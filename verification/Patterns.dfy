/**
 The subscription-key language and its decision procedure for language
 intersection (internal/authz/authorizer.go: compilePattern, patternsIntersect).

 A key is a literal channel, or a non-empty literal prefix followed by a final
 "*" or "**". Its language is the set of channels `Topics.Match` accepts.
 */
module Patterns {
  import opened Options
  import opened Topics

  datatype Kind = Exact | Star | DStar

  /** segments is the whole key for an exact one, the literal prefix otherwise. */
  datatype Compiled = Compiled(kind: Kind, segments: seq<string>)

  function Compile(pattern: string): (r: Option<Compiled>) {
    if !ValidTopic(pattern) then None else
    var segs := Split(pattern);
    if !IsWildcard(pattern) then Some(Compiled(Exact, segs)) else
    var last, prefix := segs[|segs| - 1], segs[..|segs| - 1];
    if last != "*" && last != "**" then None else
    if exists i | 0 <= i < |prefix| :: '*' in prefix[i] then None else
    if |prefix| == 0 then None else
    Some(Compiled(if last == "**" then DStar else Star, prefix))
  }

  /** A literal segment: non-empty, no delimiter, no wildcard character. */
  predicate Literal(seg: string) {
    seg != "" && Plain(seg) && '*' !in seg
  }

  predicate AllLiteral(segs: seq<string>) {
    forall i | 0 <= i < |segs| :: Literal(segs[i])
  }

  /** The key language, read off the segments. */
  predicate InKeyLanguage(pattern: string) {
    var segs := Split(pattern);
    var last := segs[|segs| - 1];
    AllLiteral(segs[..|segs| - 1]) && (Literal(last) || (|segs| > 1 && (last == "*" || last == "**")))
  }

  predicate WellFormed(c: Compiled) {
    |c.segments| >= 1 && AllLiteral(c.segments)
  }

  /** The language of a compiled key, on segments. */
  predicate Accepts(c: Compiled, t: seq<string>) {
    AllNonEmpty(t) &&
    match c.kind
    case Exact => t == c.segments
    case Star => |t| == |c.segments| + 1 && c.segments <= t
    case DStar => c.segments <= t
  }

  lemma {:induction false} KeysAreValid(pattern: string)
    requires InKeyLanguage(pattern)
    ensures ValidTopic(pattern)
  {
    var segs := Split(pattern);
    var n := |segs| - 1;
    assert !HasDoubleStar("*");
    forall i | 0 <= i <= n ensures segs[i] != "" && (HasDoubleStar(segs[i]) ==> i == n && segs[i] == "**") {
      if i < n { assert segs[i] == segs[..n][i]; }
    }
  }

  /** In a key only the last segment can hold a "*", and a key with one ends in a wildcard segment. */
  lemma {:induction false} StarOfKey(pattern: string)
    requires InKeyLanguage(pattern)
    ensures IsWildcard(pattern) <==> !Literal(Split(pattern)[|Split(pattern)| - 1])
  {
    var segs := Split(pattern);
    var n := |segs| - 1;
    CharInSplit(pattern, '*');
    assert forall i | 0 <= i < n :: segs[i] == segs[..n][i];
    assert !Literal("*") && !Literal("**") by { assert "*"[0] == '*' && "**"[0] == '*'; }
    if IsWildcard(pattern) {
      var i :| 0 <= i <= n && '*' in segs[i];
      assert i == n;
    }
  }

  lemma {:induction false} CompiledIsKey(pattern: string)
    requires Compile(pattern).Some?
    ensures InKeyLanguage(pattern)
  {
    var segs := Split(pattern);
    var n := |segs| - 1;
    WeaveOfSplit(pattern);
    CharInSplit(pattern, '*');
    if IsWildcard(pattern) {
      forall i | 0 <= i < n ensures Literal(segs[..n][i]) { assert segs[..n][i] == segs[i]; }
    } else {
      forall i | 0 <= i <= n ensures Literal(segs[i]) { assert '*' !in segs[i]; }
    }
  }

  /** compilePattern accepts the key language, the whole of it and nothing else. */
  lemma {:induction false} CompileAcceptsKeys(pattern: string)
    ensures Compile(pattern).Some? <==> InKeyLanguage(pattern)
  {
    if Compile(pattern).Some? {
      CompiledIsKey(pattern);
    }
    if InKeyLanguage(pattern) {
      KeysAreValid(pattern);
      StarOfKey(pattern);
    }
  }

  /** The compiled form denotes the channels the raw key matches. */
  lemma {:induction false} CompileMeaning(pattern: string, channel: string)
    requires Compile(pattern).Some?
    ensures WellFormed(Compile(pattern).value)
    ensures Match(pattern, channel) <==> Accepts(Compile(pattern).value, Split(channel))
  {
    var segs, t, c := Split(pattern), Split(channel), Compile(pattern).value;
    var n := |segs| - 1;
    WeaveOfSplit(pattern);
    CharInSplit(pattern, '*');
    assert segs[..n] + [segs[n]] == segs;
    if c.kind.Exact? {
      forall i | 0 <= i <= n ensures Literal(segs[i]) { assert '*' !in segs[i]; }
      assert forall i | 0 <= i <= n :: segs[i] != "*" && segs[i] != "**";
      LiteralPrefixMatches(segs, t);
    } else {
      forall i | 0 <= i < n ensures Literal(segs[..n][i]) { assert segs[..n][i] == segs[i]; }
      LiteralPrefixMatches(segs[..n], t);
      assert forall i | 0 <= i < n :: segs[..n][i] == segs[i];
    }
  }

  lemma {:induction false} LiteralPrefixMatches(p: seq<string>, t: seq<string>)
    requires AllLiteral(p)
    ensures (|p| <= |t| && forall i | 0 <= i < |p| :: SegmentMatches(p[i], t[i])) <==> p <= t
  {
    if |p| <= |t| && forall i | 0 <= i < |p| :: SegmentMatches(p[i], t[i]) {
      forall i | 0 <= i < |p| ensures p[i] == t[i] {
        assert '*' !in p[i] && '*' in "*";
      }
    }
  }

  // ---------------------------------------------------------- intersection

  /** S is the prefix of a "*" key, D the prefix of a "**" key. */
  predicate StarIntersectsDStar(S: seq<string>, D: seq<string>) {
    if D <= S then true
    else if S <= D then |D| == |S| + 1
    else false
  }

  predicate PatternsIntersect(a: Compiled, b: Compiled)
    decreases if a.kind.Exact? then 0 else 1
  {
    match (a.kind, b.kind)
    case (Exact, Exact) => a.segments == b.segments
    case (Exact, Star) => |a.segments| == |b.segments| + 1 && b.segments <= a.segments
    case (Exact, DStar) => b.segments <= a.segments
    case (Star, Exact) => PatternsIntersect(b, a)
    case (Star, Star) => a.segments == b.segments
    case (Star, DStar) => StarIntersectsDStar(a.segments, b.segments)
    case (DStar, Exact) => PatternsIntersect(b, a)
    case (DStar, Star) => StarIntersectsDStar(b.segments, a.segments)
    case (DStar, DStar) => a.segments <= b.segments || b.segments <= a.segments
  }

  /** No segment list in both languages is missed. */
  lemma {:induction false} IntersectComplete(a: Compiled, b: Compiled, t: seq<string>)
    requires Accepts(a, t) && Accepts(b, t)
    ensures PatternsIntersect(a, b)
  {
    if |a.segments| <= |b.segments| {
      PrefixesOfOne(a.segments, b.segments, t);
    } else {
      PrefixesOfOne(b.segments, a.segments, t);
    }
  }

  lemma {:induction false} PrefixesOfOne(p: seq<string>, q: seq<string>, t: seq<string>)
    requires p <= t && q <= t && |p| <= |q|
    ensures p <= q && (|p| == |q| ==> p == q)
  {
    forall i | 0 <= i < |p| ensures p[i] == q[i] {
      assert p[i] == t[i] == q[i];
    }
  }

  /** A shortest common member of two intersecting languages. */
  function Witness(a: Compiled, b: Compiled): (t: seq<string>)
    requires WellFormed(a) && WellFormed(b) && PatternsIntersect(a, b)
    ensures Accepts(a, t) && Accepts(b, t) && |t| >= 1 && AllLiteral(t)
  {
    if a.kind.Exact? then a.segments
    else if b.kind.Exact? then assert PatternsIntersect(b, a); b.segments
    else if a.kind.Star? && (b.kind.Star? || b.segments <= a.segments) then a.segments + ["x"]
    else if b.kind.Star? && a.segments <= b.segments then b.segments + ["x"]
    else if |a.segments| < |b.segments| then b.segments
    else a.segments
  }

  /** An ordinary channel: a valid topic without wildcard characters. */
  predicate Concrete(channel: string) {
    ValidTopic(channel) && !IsWildcard(channel)
  }

  /** Literal segments joined by "." form a concrete channel with those segments. */
  lemma {:induction false} JoinIsConcrete(t: seq<string>) returns (channel: string)
    requires |t| >= 1 && AllLiteral(t)
    ensures Split(channel) == t && Concrete(channel)
  {
    var dots := seq(|t| - 1, i => '.');
    channel := Weave(t, dots);
    SplitOfWeave(t, dots);
    CharInSplit(channel, '*');
  }

  /**
   patternsIntersect decides, without listing channels, whether some channel
   matches both keys; and if any string does, then an ordinary channel does.
   */
  lemma {:induction false} IntersectExact(p: string, q: string)
    requires Compile(p).Some? && Compile(q).Some?
    ensures PatternsIntersect(Compile(p).value, Compile(q).value) <==>
            exists ch :: Match(p, ch) && Match(q, ch)
    ensures PatternsIntersect(Compile(p).value, Compile(q).value) <==>
            exists ch :: Concrete(ch) && Match(p, ch) && Match(q, ch)
  {
    var a, b := Compile(p).value, Compile(q).value;
    forall ch | Match(p, ch) && Match(q, ch) ensures PatternsIntersect(a, b) {
      CompileMeaning(p, ch);
      CompileMeaning(q, ch);
      IntersectComplete(a, b, Split(ch));
    }
    if PatternsIntersect(a, b) {
      CompileMeaning(p, "");
      CompileMeaning(q, "");
      var ch := JoinIsConcrete(Witness(a, b));
      CompileMeaning(p, ch);
      CompileMeaning(q, ch);
      assert Concrete(ch) && Match(p, ch) && Match(q, ch);
    }
  }
}
