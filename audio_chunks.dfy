/** The recorder's chunk buffer: `ondataavailable` keeps a chunk only when
    it holds data, and `onstop` packs the kept chunks into one blob. */
module AudioChunks {

  /** An opaque piece of recorded audio and its size in bytes. */
  datatype Chunk = Chunk(size: nat)

  /** The blob handed to transcription: the parts in order and a type tag. */
  datatype AudioBlob = AudioBlob(parts: seq<Chunk>, mimeType: string)

  const RecordingMimeType: string := "audio/webm"

  /** The non-empty chunks of `cs`, in their order. */
  function Kept(cs: seq<Chunk>): (r: seq<Chunk>)
    ensures |r| <= |cs|
    ensures forall i :: 0 <= i < |r| ==> r[i].size > 0 && r[i] in cs
    decreases |cs|
  {
    if cs == [] then []
    else (if cs[0].size > 0 then [cs[0]] else []) + Kept(cs[1..])
  }

  /** Total number of bytes in a sequence of chunks. */
  function TotalSize(cs: seq<Chunk>): nat
    decreases |cs|
  {
    if cs == [] then 0 else cs[0].size + TotalSize(cs[1..])
  }

  /** The buffer that `ondataavailable` builds one delivery at a time is the
      filter of everything delivered: pushing a chunk exactly when it is
      non-empty keeps the buffer equal to the non-empty delivered chunks. */
  lemma {:induction false} KeptSnoc(cs: seq<Chunk>, c: Chunk)
    ensures Kept(cs + [c]) == Kept(cs) + (if c.size > 0 then [c] else [])
    decreases |cs|
  {
    if cs == [] {
      assert [c][1..] == [];
    } else {
      assert (cs + [c])[1..] == cs[1..] + [c];
      KeptSnoc(cs[1..], c);
    }
  }

  lemma {:induction false} TotalSizeAppend(a: seq<Chunk>, b: seq<Chunk>)
    ensures TotalSize(a + b) == TotalSize(a) + TotalSize(b)
    decreases |a|
  {
    if a == [] {
      assert a + b == b;
    } else {
      assert (a + b)[1..] == a[1..] + b;
      TotalSizeAppend(a[1..], b);
    }
  }

  /** Dropping the empty chunks loses no audio: the blob carries every byte
      delivered since the recording started. */
  lemma {:induction false} KeptKeepsEveryByte(cs: seq<Chunk>)
    ensures TotalSize(Kept(cs)) == TotalSize(cs)
    decreases |cs|
  {
    if cs != [] {
      var head := if cs[0].size > 0 then [cs[0]] else [];
      KeptKeepsEveryByte(cs[1..]);
      TotalSizeAppend(head, Kept(cs[1..]));
      assert TotalSize([cs[0]]) == cs[0].size by {
        assert [cs[0]][1..] == [];
      }
    }
  }

  /** A buffer holding only non-empty chunks is left as it is by the filter. */
  lemma {:induction false} KeptOfNonEmpty(cs: seq<Chunk>)
    requires forall i :: 0 <= i < |cs| ==> cs[i].size > 0
    ensures Kept(cs) == cs
    decreases |cs|
  {
    if cs != [] {
      KeptOfNonEmpty(cs[1..]);
      assert [cs[0]] + cs[1..] == cs;
    }
  }
}
