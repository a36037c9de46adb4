/**
 Splicing raw JSON payloads into a marshaled frame (internal/session/hub.go).
 The frame is marshaled once with empty objects in the payload sites, and the
 raw bytes replace those.
 */
module FrameSplice {
  import opened Options

  const EMPTY: string := "{}"

  /** The rendering of the payload field in front of its value. */
  const KEY: string := "\"json\":"

  /** p occurs in s at i. */
  predicate At(s: string, p: string, i: nat) {
    i + |p| <= |s| && s[i..i + |p|] == p
  }

  /** i is where p first occurs in s. */
  predicate First(s: string, p: string, i: nat) {
    At(s, p, i) && forall j | 0 <= j < i :: !At(s, p, j)
  }

  ghost function Index(s: string, p: string): (r: Option<nat>)
    ensures r.Some? ==> First(s, p, r.value)
  {
    if i: nat :| First(s, p, i) then Some(i) else None
  }

  lemma {:induction false} FirstIsIndex(s: string, p: string, i: nat)
    requires First(s, p, i)
    ensures Index(s, p) == Some(i)
  {
  }

  /** bytes.Index. */
  method FindFirst(s: string, p: string) returns (r: Option<nat>)
    ensures r == Index(s, p)
  {
    var i := 0;
    while i + |p| <= |s|
      invariant forall j | 0 <= j < i :: !At(s, p, j)
    {
      if s[i..i + |p|] == p {
        FirstIsIndex(s, p, i);
        return Some(i);
      }
      i := i + 1;
    }
    assert forall j: nat :: !First(s, p, j);
    return None;
  }

  function Prepend(p: string, o: Option<string>): Option<string> {
    if o.None? then None else Some(p + o.value)
  }

  /** The placeholders of the frame itself, from the left, replaced by the payloads from the k-th on; keys stay. */
  ghost function Spliced(key: string, frame: string, raws: seq<string>, k: nat): Option<string>
    requires k <= |raws|
    decreases |raws| - k
  {
    if k == |raws| then Some(frame)
    else match Index(frame, key + EMPTY)
         case None => None
         case Some(i) => Prepend(frame[..i + |key|] + raws[k], Spliced(key, frame[i + |key| + 2..], raws, k + 1))
  }

  lemma {:induction false} PrependTwice(a: string, b: string, o: Option<string>)
    ensures Prepend(a, Prepend(b, o)) == Prepend(a + b, o)
  {
    if o.Some? { assert a + (b + o.value) == a + b + o.value; }
  }

  lemma {:induction false} PrependNothing(o: Option<string>)
    ensures Prepend("", o) == o
  {
    if o.Some? { assert "" + o.value == o.value; }
  }

  /** One round of the loop on bytes: the two bytes at end make room for raw. */
  lemma {:induction false} Replaced(out: string, pos: nat, end: nat, raw: string)
    requires pos <= end && end + 2 <= |out|
    ensures var next := out[..end] + raw + out[end + 2..];
            next[..end + |raw|] == out[..pos] + (out[pos..end] + raw) && next[end + |raw|..] == out[end + 2..]
  {
    assert out[..end] == out[..pos] + out[pos..end];
  }

  lemma {:induction false} SliceOfSuffix(out: string, pos: nat, n: nat)
    requires pos + n <= |out|
    ensures out[pos..][..n] == out[pos..pos + n] && out[pos..][n..] == out[pos + n..]
  {
  }

  lemma {:induction false} SplicedUnfolds(key: string, suffix: string, raws: seq<string>, k: nat, f: nat)
    requires k < |raws| && Index(suffix, key + EMPTY) == Some(f)
    ensures f + |key| + 2 <= |suffix|
    ensures Spliced(key, suffix, raws, k) ==
            Prepend(suffix[..f + |key|] + raws[k], Spliced(key, suffix[f + |key| + 2..], raws, k + 1))
  {
  }

  /** One round of the loop on what it is to compute. */
  lemma {:induction false} SplicedRound(key: string, out: string, pos: nat, raws: seq<string>, k: nat, f: nat)
    requires k < |raws| && pos <= |out| && Index(out[pos..], key + EMPTY) == Some(f)
    ensures pos + f + |key| + 2 <= |out|
    ensures Prepend(out[..pos], Spliced(key, out[pos..], raws, k)) ==
            Prepend(out[..pos] + (out[pos..pos + f + |key|] + raws[k]),
                    Spliced(key, out[pos + f + |key| + 2..], raws, k + 1))
  {
    SplicedUnfolds(key, out[pos..], raws, k, f);
    SliceOfSuffix(out, pos, f + |key|);
    SliceOfSuffix(out, pos, f + |key| + 2);
    PrependTwice(out[..pos], out[pos..pos + f + |key|] + raws[k],
                 Spliced(key, out[pos + f + |key| + 2..], raws, k + 1));
  }

  /** The search resumes behind the bytes just inserted, so what they contain does not matter. */
  method SpliceRawJsonPayloads(frame: string, raws: seq<string>) returns (r: Option<string>)
    ensures r == Spliced("\"json\":", frame, raws, 0)
  {
    r := SpliceAtKey(KEY, frame, raws);
  }

  method SpliceAtKey(key: string, frame: string, raws: seq<string>) returns (r: Option<string>)
    ensures r == Spliced(key, frame, raws, 0)
  {
    ghost var goal := Spliced(key, frame, raws, 0);
    var out, pos := frame, 0;
    PrependNothing(goal);
    assert out[..pos] == "" && out[pos..] == frame;
    for k := 0 to |raws|
      invariant 0 <= pos <= |out|
      invariant goal == Prepend(out[..pos], Spliced(key, out[pos..], raws, k))
    {
      var found := FindFirst(out[pos..], key + EMPTY);
      if found.None? {
        return None;
      }
      SplicedRound(key, out, pos, raws, k, found.value);
      var end := pos + found.value + |key|;
      Replaced(out, pos, end, raws[k]);
      out := out[..end] + raws[k] + out[end + 2..];
      pos := end + |raws[k]|;
    }
    assert out[..pos] + out[pos..] == out;
    return Some(out);
  }

  // ---------------------------------------------------------- what it means

  /** The frame from its k-th fixed piece on, with the given payloads in between. */
  function Render(pieces: seq<string>, payloads: seq<string>, k: nat): string
    requires k <= |payloads| && |pieces| == |payloads| + 1
    decreases |payloads| - k
  {
    if k == |payloads| then pieces[k] else pieces[k] + payloads[k] + Render(pieces, payloads, k + 1)
  }

  /** The payloads of the frame as it is marshaled. */
  function Empties(n: nat): seq<string> {
    seq(n, _ => EMPTY)
  }

  /** A piece ends with the key, and nothing before that looks like a placeholder. */
  predicate Piece(key: string, p: string) {
    |key| <= |p| && First(p + EMPTY, key + EMPTY, |p| - |key|)
  }

  /** The fixed pieces of a frame with a payload after each but the last. */
  predicate Template(key: string, pieces: seq<string>) {
    pieces != [] && forall k | 0 <= k < |pieces| - 1 :: Piece(key, pieces[k])
  }

  lemma {:induction false} FirstOfExtension(s: string, t: string, p: string, i: nat)
    requires i + |p| <= |s|
    ensures First(s + t, p, i) <==> First(s, p, i)
  {
    forall j | 0 <= j <= i ensures At(s + t, p, j) <==> At(s, p, j) {
      assert (s + t)[j..j + |p|] == s[j..j + |p|];
    }
  }

  lemma {:induction false} AroundEmpty(p: string, rest: string)
    ensures (p + EMPTY + rest)[..|p|] == p && (p + EMPTY + rest)[|p| + 2..] == rest
  {
  }

  /** One step of a splice, on a frame that starts with a piece and an empty object. */
  lemma {:induction false} SpliceStep(key: string, p: string, rest: string, raws: seq<string>, k: nat)
    requires Piece(key, p) && k < |raws|
    ensures Spliced(key, p + EMPTY + rest, raws, k) == Prepend(p + raws[k], Spliced(key, rest, raws, k + 1))
  {
    var i := |p| - |key|;
    FirstOfExtension(p + EMPTY, rest, key + EMPTY, i);
    FirstIsIndex(p + EMPTY + rest, key + EMPTY, i);
    AroundEmpty(p, rest);
  }

  lemma {:induction false} SpliceRendersFrom(key: string, pieces: seq<string>, raws: seq<string>, k: nat)
    requires |pieces| == |raws| + 1 && Template(key, pieces) && k <= |raws|
    ensures Spliced(key, Render(pieces, Empties(|raws|), k), raws, k) == Some(Render(pieces, raws, k))
    decreases |raws| - k
  {
    if k < |raws| {
      SpliceRendersFrom(key, pieces, raws, k + 1);
      SpliceStep(key, pieces[k], Render(pieces, Empties(|raws|), k + 1), raws, k);
    }
  }

  /**
   If placeholders occur in the frame only at its payload sites, splicing gives
   the frame with the real payloads in those sites, whatever they contain.
   */
  lemma {:induction false} SpliceRenders(key: string, pieces: seq<string>, raws: seq<string>)
    requires |pieces| == |raws| + 1 && Template(key, pieces)
    ensures Spliced(key, Render(pieces, Empties(|raws|), 0), raws, 0) == Some(Render(pieces, raws, 0))
  {
    SpliceRendersFrom(key, pieces, raws, 0);
  }

  lemma {:induction false} PieceAt(key: string, frame: string, i: nat)
    requires First(frame, key + EMPTY, i)
    ensures Piece(key, frame[..i + |key|]) && frame == frame[..i + |key|] + EMPTY + frame[i + |key| + 2..]
  {
    var p, rest := frame[..i + |key|], frame[i + |key| + 2..];
    assert frame[i..i + |key| + 2][|key|..] == (key + EMPTY)[|key|..] == EMPTY;
    assert frame[i + |key|..i + |key| + 2] == EMPTY;
    assert frame == p + EMPTY + rest;
    FirstOfExtension(p + EMPTY, rest, key + EMPTY, i);
  }

  /** The pieces around the first n placeholders of a frame. */
  ghost function Pieces(key: string, frame: string, n: nat): (ps: seq<string>)
    requires n <= Placeholders(key, frame)
    ensures |ps| == n + 1
  {
    if n == 0 then [frame] else
    var i := Index(frame, key + EMPTY).value;
    [frame[..i + |key|]] + Pieces(key, frame[i + |key| + 2..], n - 1)
  }

  lemma {:induction false} RenderShift(p: string, pieces: seq<string>, q: string, payloads: seq<string>, k: nat)
    requires k <= |payloads| && |pieces| == |payloads| + 1
    ensures Render([p] + pieces, [q] + payloads, k + 1) == Render(pieces, payloads, k)
    decreases |payloads| - k
  {
    if k < |payloads| { RenderShift(p, pieces, q, payloads, k + 1); }
  }

  /** Every frame with enough placeholders is of that form. */
  lemma {:induction false} PiecesAreATemplate(key: string, frame: string, n: nat)
    requires n <= Placeholders(key, frame)
    ensures Template(key, Pieces(key, frame, n))
    decreases n
  {
    if n > 0 {
      var i := Index(frame, key + EMPTY).value;
      PieceAt(key, frame, i);
      PiecesAreATemplate(key, frame[i + |key| + 2..], n - 1);
    }
  }

  /** Putting a piece and its payload in front. */
  lemma {:induction false} RenderMore(p: string, pieces: seq<string>, n: nat)
    requires |pieces| == n + 1
    ensures Render([p] + pieces, Empties(n + 1), 0) == p + EMPTY + Render(pieces, Empties(n), 0)
  {
    assert Empties(n + 1) == [EMPTY] + Empties(n);
    RenderShift(p, pieces, EMPTY, Empties(n), 0);
  }

  lemma {:induction false} PiecesRender(key: string, frame: string, n: nat)
    requires n <= Placeholders(key, frame)
    ensures frame == Render(Pieces(key, frame, n), Empties(n), 0)
    decreases n
  {
    if n > 0 {
      var i := Index(frame, key + EMPTY).value;
      var p, rest := frame[..i + |key|], frame[i + |key| + 2..];
      PieceAt(key, frame, i);
      PiecesRender(key, rest, n - 1);
      RenderMore(p, Pieces(key, rest, n - 1), n - 1);
    }
  }

  /** How many placeholders a scan from the left finds. */
  ghost function Placeholders(key: string, frame: string): nat
    decreases |frame|
  {
    match Index(frame, key + EMPTY)
    case None => 0
    case Some(i) => 1 + Placeholders(key, frame[i + |key| + 2..])
  }

  lemma {:induction false} SpliceFailsFrom(key: string, frame: string, raws: seq<string>, k: nat)
    requires k <= |raws|
    ensures Spliced(key, frame, raws, k).None? <==> Placeholders(key, frame) < |raws| - k
    decreases |raws| - k
  {
    if k < |raws| && Index(frame, key + EMPTY).Some? {
      SpliceFailsFrom(key, frame[Index(frame, key + EMPTY).value + |key| + 2..], raws, k + 1);
    }
  }

  /**
   For every frame: splicing fails exactly when the frame has fewer placeholders
   than there are payloads, and otherwise only empty objects are replaced.
   */
  lemma {:induction false} SpliceReplacesEmptyObjects(key: string, frame: string, raws: seq<string>)
    ensures Spliced(key, frame, raws, 0).None? <==> Placeholders(key, frame) < |raws|
    ensures Spliced(key, frame, raws, 0).Some? ==>
              frame == Render(Pieces(key, frame, |raws|), Empties(|raws|), 0) &&
              Spliced(key, frame, raws, 0) == Some(Render(Pieces(key, frame, |raws|), raws, 0))
  {
    SpliceFailsFrom(key, frame, raws, 0);
    if Placeholders(key, frame) >= |raws| {
      PiecesAreATemplate(key, frame, |raws|);
      PiecesRender(key, frame, |raws|);
      SpliceRenders(key, Pieces(key, frame, |raws|), raws);
    }
  }
}
