/**
  Fixed-size slicing of an AI answer, as the `ask` handler does before sending
  an answer longer than one chat message may be:
  `[answer[i:i+1900] for i in range(0, len(answer), 1900)]`.
  Characters are Unicode scalar values, the unit Python's `len` and slicing count.
*/
module Chunking {

  /** The slice width, kept below the chat platform's per-message ceiling of about 2000 characters. */
  const ChunkSize: nat := 1900

  function Min(a: int, b: int): int { if a <= b then a else b }

  /** Concatenation of the pieces in order: the inverse of slicing. */
  function Flatten(ss: seq<string>): string
  {
    if ss == [] then "" else ss[0] + Flatten(ss[1..])
  }

  lemma {:induction false} FlattenAppend(a: seq<string>, b: seq<string>)
    ensures Flatten(a + b) == Flatten(a) + Flatten(b)
  {
    if a == [] {
      assert a + b == b;
    } else {
      assert (a + b)[1..] == a[1..] + b;
      FlattenAppend(a[1..], b);
    }
  }

  /** `len(range(0, n, 1900))`. */
  function SliceCount(n: nat): nat
  {
    (n + ChunkSize - 1) / ChunkSize
  }

  /** The list comprehension; Python's slice `s[i:i+1900]` stops at the end of `s`. */
  function Chunks(s: string): (r: seq<string>)
    ensures (|r| - 1) * ChunkSize < |s| <= |r| * ChunkSize
    ensures forall i :: 0 <= i < |r| ==> 0 < |r[i]| <= ChunkSize
    ensures forall i :: 0 <= i < |r| - 1 ==> |r[i]| == ChunkSize
  {
    seq(SliceCount(|s|), i requires 0 <= i < SliceCount(|s|) =>
      s[i * ChunkSize .. Min(i * ChunkSize + ChunkSize, |s|)])
  }

  /** The first `k` slices concatenate to the first `k * 1900` characters. */
  lemma {:induction false} ChunksPrefix(s: string, k: nat)
    requires k <= |Chunks(s)|
    ensures Flatten(Chunks(s)[..k]) == s[..Min(k * ChunkSize, |s|)]
  {
    var c := Chunks(s);
    if k == 0 {
      assert c[..0] == [];
    } else {
      ChunksPrefix(s, k - 1);
      assert c[..k] == c[..k - 1] + [c[k - 1]];
      FlattenAppend(c[..k - 1], [c[k - 1]]);
      assert Flatten([c[k - 1]]) == c[k - 1];
      assert c[k - 1] == s[(k - 1) * ChunkSize .. Min(k * ChunkSize, |s|)];
    }
  }

  /** The slices concatenate back to the answer. */
  lemma ChunksFlatten(s: string)
    ensures Flatten(Chunks(s)) == s
  {
    var c := Chunks(s);
    ChunksPrefix(s, |c|);
    assert c[..|c|] == c;
  }

  /** The predicate the source's slicing meets: full 1900-character pieces and a non-empty last piece of at most 1900. */
  predicate FixedWidthPieces(cs: seq<string>)
  {
    && (forall i :: 0 <= i < |cs| ==> 0 < |cs[i]| <= ChunkSize)
    && (forall i :: 0 <= i < |cs| - 1 ==> |cs[i]| == ChunkSize)
  }

  lemma {:induction false} PiecesLength(cs: seq<string>)
    requires cs != [] && FixedWidthPieces(cs)
    ensures |Flatten(cs)| == (|cs| - 1) * ChunkSize + |cs[|cs| - 1]|
  {
    if |cs| > 1 {
      PiecesLength(cs[1..]);
    }
  }

  lemma {:induction false} PieceAt(s: string, cs: seq<string>, i: nat)
    requires Flatten(cs) == s && FixedWidthPieces(cs)
    requires i < |cs|
    ensures i * ChunkSize < |s|
    ensures cs[i] == s[i * ChunkSize .. Min(i * ChunkSize + ChunkSize, |s|)]
  {
    PiecesLength(cs);
    assert s == cs[0] + Flatten(cs[1..]);
    if |cs| == 1 {
      assert Flatten(cs[1..]) == "";
    } else {
      assert |cs[0]| == ChunkSize;
      PiecesLength(cs[1..]);
      if i > 0 {
        var t := s[ChunkSize..];
        assert t == Flatten(cs[1..]);
        PieceAt(t, cs[1..], i - 1);
        assert cs[i] == t[(i - 1) * ChunkSize .. Min(i * ChunkSize, |t|)];
      }
    }
  }

  /** Any cut of `s` into fixed-width pieces that concatenates back to `s` is `Chunks(s)`. */
  lemma ChunksUnique(s: string, cs: seq<string>)
    requires Flatten(cs) == s && FixedWidthPieces(cs)
    ensures cs == Chunks(s)
  {
    var c := Chunks(s);
    if cs != [] {
      PiecesLength(cs);
    }
    assert |cs| == |c|;
    forall i | 0 <= i < |cs|
      ensures cs[i] == c[i]
    {
      PieceAt(s, cs, i);
    }
  }

  /** A 4500-character answer gives pieces of 1900, 1900 and 700 characters. */
  lemma ChunksOf4500(s: string)
    requires |s| == 4500
    ensures Chunks(s) == [s[..1900], s[1900..3800], s[3800..]]
    ensures |s[3800..]| == 700
  {
    var c := Chunks(s);
    assert |c| == 3;
    assert c[0] == s[..1900];
    assert c[1] == s[1900..3800];
    assert c[2] == s[3800..4500] == s[3800..];
  }
}
