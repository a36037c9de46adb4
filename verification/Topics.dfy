/**
 Channel and subscription-key syntax: segment splitting, validity and pattern
 matching (pkg/topics/matcher.go).

 Both "." and ":" separate segments. A string is determined by its segments
 together with its delimiters (`WeaveOfSplit`, `SplitOfWeave`); matching looks
 at the segments alone.
 */
module Topics {

  predicate IsDelimiter(c: char) {
    c == '.' || c == ':'
  }

  /** A string no delimiter occurs in. */
  predicate Plain(s: string) {
    forall i | 0 <= i < |s| :: !IsDelimiter(s[i])
  }

  predicate AllPlain(segs: seq<string>) {
    forall i | 0 <= i < |segs| :: Plain(segs[i])
  }

  predicate AllNonEmpty(segs: seq<string>) {
    forall i | 0 <= i < |segs| :: segs[i] != ""
  }

  predicate AllDelimiters(ds: string) {
    forall i | 0 <= i < |ds| :: IsDelimiter(ds[i])
  }

  /** The segments of s; consecutive delimiters yield empty segments. */
  function Split(s: string): (segs: seq<string>)
    ensures |segs| >= 1
  {
    if s == "" then [""] else
    var rest := Split(s[1..]);
    if IsDelimiter(s[0]) then [""] + rest else [[s[0]] + rest[0]] + rest[1..]
  }

  /** The delimiters of s, in order. */
  function Delims(s: string): (ds: string) {
    if s == "" then ""
    else if IsDelimiter(s[0]) then [s[0]] + Delims(s[1..])
    else Delims(s[1..])
  }

  /** Segments interleaved with delimiters. */
  function Weave(segs: seq<string>, ds: string): (s: string)
    requires |segs| == |ds| + 1
  {
    if |segs| == 1 then segs[0] else segs[0] + [ds[0]] + Weave(segs[1..], ds[1..])
  }

  /** Nothing is lost by splitting: weaving the parts gives the string back. */
  lemma {:induction false} WeaveOfSplit(s: string)
    ensures |Split(s)| == |Delims(s)| + 1
    ensures AllPlain(Split(s)) && AllDelimiters(Delims(s))
    ensures Weave(Split(s), Delims(s)) == s
  {
    if s != "" {
      WeaveOfSplit(s[1..]);
      var rest, ds := Split(s[1..]), Delims(s[1..]);
      if IsDelimiter(s[0]) {
        assert Split(s)[1..] == rest && Delims(s)[1..] == ds;
      } else {
        assert Split(s)[0] == [s[0]] + rest[0] && Delims(s) == ds;
        if |rest| > 1 {
          assert Split(s)[1..] == rest[1..];
        }
      }
    }
  }

  lemma {:induction false} WeaveParts(segs: seq<string>, ds: string)
    requires |segs| == |ds| + 1 > 1
    ensures var s, n := Weave(segs, ds), |segs[0]|;
            n < |s| && s[..n] == segs[0] && s[n] == ds[0] && s[n + 1..] == Weave(segs[1..], ds[1..])
  {
  }

  /** Splitting inverts weaving, so the two parts are unique. */
  lemma {:induction false} SplitOfWeave(segs: seq<string>, ds: string)
    requires |segs| == |ds| + 1
    requires AllPlain(segs) && AllDelimiters(ds)
    ensures Split(Weave(segs, ds)) == segs
    ensures Delims(Weave(segs, ds)) == ds
    decreases |segs|
  {
    var s := Weave(segs, ds);
    if |segs| == 1 {
      SplitOfPlain(s);
    } else {
      WeaveParts(segs, ds);
      SplitOfWeave(segs[1..], ds[1..]);
      SplitAtDelimiter(s, |segs[0]|);
      assert segs == [segs[0]] + segs[1..] && ds == [ds[0]] + ds[1..];
    }
  }

  lemma {:induction false} SplitOfPlain(s: string)
    requires Plain(s)
    ensures Split(s) == [s] && Delims(s) == ""
  {
    if s != "" {
      SplitOfPlain(s[1..]);
      assert s == [s[0]] + s[1..];
    }
  }

  lemma {:induction false} SplitAtDelimiter(s: string, i: nat)
    requires i < |s| && Plain(s[..i]) && IsDelimiter(s[i])
    ensures Split(s) == [s[..i]] + Split(s[i + 1..])
    ensures Delims(s) == [s[i]] + Delims(s[i + 1..])
  {
    if i > 0 {
      assert !IsDelimiter(s[..i][0]);
      assert s[1..][..i - 1] == s[..i][1..];
      SplitAtDelimiter(s[1..], i - 1);
      assert s[1..][i..] == s[i + 1..];
      assert [s[0]] + s[1..][..i - 1] == s[..i];
    }
  }

  lemma {:induction false} SplitStep(s: string, start: nat, i: nat)
    requires start <= i < |s| && Plain(s[start..i]) && IsDelimiter(s[i])
    ensures Split(s[start..]) == [s[start..i]] + Split(s[i + 1..])
  {
    var open := s[start..];
    assert open[..i - start] == s[start..i] && open[i - start + 1..] == s[i + 1..];
    SplitAtDelimiter(open, i - start);
  }

  /** Closing the open segment moves it from the split of the rest to the segments found. */
  lemma {:induction false} SegmentClosed(s: string, start: nat, i: nat, segs: seq<string>, whole: seq<string>)
    requires start <= i < |s| && IsDelimiter(s[i]) && forall k | start <= k < i :: !IsDelimiter(s[k])
    requires segs + Split(s[start..]) == whole
    ensures segs + [s[start..i]] + Split(s[i + 1..]) == whole
  {
    SplitStep(s, start, i);
  }

  /** The scan of the source: one pass with the start of the open segment. */
  method SplitSegments(s: string) returns (segs: seq<string>)
    ensures segs == Split(s)
  {
    segs := [];
    var start := 0;
    ghost var whole := Split(s);
    assert s[start..] == s;
    for i := 0 to |s|
      invariant 0 <= start <= i
      invariant forall k | start <= k < i :: !IsDelimiter(s[k])
      invariant segs + Split(s[start..]) == whole
    {
      if s[i] == '.' || s[i] == ':' {
        SegmentClosed(s, start, i, segs, whole);
        segs := segs + [s[start..i]];
        start := i + 1;
      }
    }
    assert Plain(s[start..]);
    SplitOfPlain(s[start..]);
    segs := segs + [s[start..]];
  }

  /** A character other than a delimiter occurs in s iff it occurs in a segment. */
  lemma {:induction false} CharInSplit(s: string, c: char)
    requires !IsDelimiter(c)
    ensures c in s <==> exists i :: 0 <= i < |Split(s)| && c in Split(s)[i]
  {
    if s != "" {
      CharInSplit(s[1..], c);
      var segs, rest := Split(s), Split(s[1..]);
      assert c in s <==> c == s[0] || c in s[1..];
      if IsDelimiter(s[0]) {
        assert forall i :: 0 <= i < |rest| ==> segs[i + 1] == rest[i];
      } else {
        assert segs[0] == [s[0]] + rest[0];
        assert forall i :: 1 <= i < |rest| ==> segs[i] == rest[i];
        if c == s[0] { assert c in segs[0]; }
      }
    }
  }

  /** "**" occurs in s. */
  predicate HasDoubleStar(s: string) {
    exists i :: 0 <= i < |s| - 1 && s[i] == '*' && s[i + 1] == '*'
  }

  /** A non-empty list of non-empty segments with "**" only as the final one. */
  predicate ValidTopic(topic: string) {
    var segs := Split(topic);
    forall i | 0 <= i < |segs| ::
      segs[i] != "" && (HasDoubleStar(segs[i]) ==> i == |segs| - 1 && segs[i] == "**")
  }

  method ValidateTopic(topic: string) returns (ok: bool)
    ensures ok == ValidTopic(topic)
  {
    var segs := SplitSegments(topic);
    for i := 0 to |segs|
      invariant forall j | 0 <= j < i ::
          segs[j] != "" && (HasDoubleStar(segs[j]) ==> j == |segs| - 1 && segs[j] == "**")
    {
      if segs[i] == "" {
        return false;
      }
      if HasDoubleStar(segs[i]) && (i != |segs| - 1 || segs[i] != "**") {
        return false;
      }
    }
    return true;
  }

  predicate IsWildcard(channel: string) {
    '*' in channel
  }

  predicate SegmentMatches(p: string, t: string) {
    p == t || p == "*"
  }

  /** Pattern segments p match topic segments t; a final "**" absorbs the rest of t. */
  predicate MatchSegments(p: seq<string>, t: seq<string>)
    requires |p| >= 1
  {
    AllNonEmpty(t) &&
    if p[|p| - 1] == "**" then
      |p| - 1 <= |t| && forall i | 0 <= i < |p| - 1 :: SegmentMatches(p[i], t[i])
    else
      |p| == |t| && forall i | 0 <= i < |p| :: SegmentMatches(p[i], t[i])
  }

  predicate Match(pattern: string, topic: string) {
    MatchSegments(Split(pattern), Split(topic))
  }

  /** The segment comparison of the source, after both names are split. */
  method MatchSplit(pattern: seq<string>, topic: seq<string>) returns (matched: bool)
    requires |pattern| >= 1
    ensures matched == MatchSegments(pattern, topic)
  {
    for i := 0 to |topic|
      invariant AllNonEmpty(topic[..i])
    {
      if topic[i] == "" {
        return false;
      }
    }
    assert topic[..|topic|] == topic;
    var p, t := pattern, topic;
    if p[|p| - 1] == "**" {
      p := p[..|p| - 1];
      if |t| < |p| {
        return false;
      }
      t := t[..|p|];
    }
    if |p| != |t| {
      return false;
    }
    for i := 0 to |t|
      invariant forall j | 0 <= j < i :: SegmentMatches(p[j], t[j])
    {
      if t[i] != p[i] && p[i] != "*" {
        return false;
      }
    }
    return true;
  }

  /** The reslicing comparison of the source computes `Match`. */
  method MatchCriteria(pattern: string, topic: string) returns (matched: bool)
    ensures matched == Match(pattern, topic)
  {
    var p := SplitSegments(pattern);
    var t := SplitSegments(topic);
    matched := MatchSplit(p, t);
  }
}
