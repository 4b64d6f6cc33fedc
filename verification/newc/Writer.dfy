/** The writer as it extends one byte vector in place. */
module Writer {
  import opened Timing
  import opened Newc

  class ByteVector {
    var bytes: seq<byte>

    constructor ()
      ensures bytes == []
    {
      bytes := [];
    }

    method Extend(more: seq<byte>)
      modifies this
      ensures bytes == old(bytes) + more
    {
      bytes := bytes + more;
    }

    /** Zeros until the length is a multiple of four: at most three. */
    method PadToFour()
      modifies this
      ensures bytes == Newc.Pad4(old(bytes))
    {
      var pushed := 0;
      while |bytes| % 4 != 0
        invariant bytes == old(bytes) + Zeros(pushed)
        invariant |old(bytes)| + pushed <= Round4(|old(bytes)|)
        decreases Round4(|old(bytes)|) - |bytes|
      {
        bytes := bytes + [0];
        pushed := pushed + 1;
        assert Zeros(pushed) == Zeros(pushed - 1) + [0];
      }
    }

    method WriteFields(words: seq<u32>)
      modifies this
      ensures bytes == old(bytes) + Fields(words)
    {
      hide Hex;
      for i := 0 to |words|
        invariant bytes == old(bytes) + Fields(words[..i])
      {
        assert words[..i + 1][..i] == words[..i];
        Extend(Hex(words[i], 8));
      }
      assert words[..|words|] == words;
    }

    /** On a four-aligned vector the two pads are the entry's own. */
    method WriteEntry(ino: u32, e: Entry)
      requires |bytes| % 4 == 0
      modifies this
      ensures bytes == old(bytes) + Encode(ino, e)
    {
      hide Fields, Words, Round4;
      Extend(MAGIC);
      WriteFields(Words(ino, e));
      Extend(e.path);
      Extend([0]);
      assert bytes == old(bytes) + Head(ino, e);
      PadToFour();
      PadAfter(old(bytes), Head(ino, e));
      label headed:
      Extend(e.data);
      PadToFour();
      PadAfter(old@headed(bytes), e.data);
    }

    method WriteArchive(es: seq<Entry>)
      requires bytes == []
      modifies this
      ensures bytes == Archive(es, 1)
    {
      hide Encode;
      assert [] + Archive(es, 1) == Archive(es, 1) && es[0..] == es;
      for i := 0 to |es|
        invariant |bytes| % 4 == 0
        invariant bytes + Archive(es[i..], i + 1) == Archive(es, 1)
      {
        assert es[i..][0] == es[i] && es[i..][1..] == es[i + 1..];
        WriteEntry((i + 1) % U32, es[i]);
      }
      WriteEntry((|es| + 1) % U32, END);
    }
  }

  /** Padding after an aligned start pads the new part alone. */
  lemma PadAfter(start: seq<byte>, part: seq<byte>)
    requires |start| % 4 == 0
    ensures Newc.Pad4(start + part) == start + Newc.Pad4(part)
  {
    assert Round4(|start + part|) == |start| + Round4(|part|);
  }
}
