/**
 The glob patterns of the Redis bus that compiled interests are subscribed with
 (PSUBSCRIBE, pkg/redisbroker/pubsub.go): "*" stands for any string, "?" for any
 character, "[...]" for one character of a class, and "\" takes the next
 character literally. Delimiters are ordinary characters.
 */
module BusGlobs {

  /** A range of a class; a single character is a range of one. */
  datatype Range = Range(lo: char, hi: char)

  /** What one character is matched against. */
  datatype Tok = Lit(c: char) | AnyOne | OneOf(negated: bool, ranges: seq<Range>)

  /** A class read up to its "]", or to the end of the pattern when it is never closed. */
  datatype Class = Class(ranges: seq<Range>, rest: string, closed: bool)

  function ClassOf(p: string): (c: Class)
    ensures |c.rest| <= |p| && (c.closed ==> |c.rest| < |p|) && (!c.closed ==> c.rest == "")
  {
    if p == "" then Class([], "", false)
    else if p[0] == '\\' && |p| >= 2 then Add(Range(p[1], p[1]), ClassOf(p[2..]))
    else if p[0] == ']' then Class([], p[1..], true)
    else if |p| >= 3 && p[1] == '-' then
      Add(if p[0] <= p[2] then Range(p[0], p[2]) else Range(p[2], p[0]), ClassOf(p[3..]))
    else Add(Range(p[0], p[0]), ClassOf(p[1..]))
  }

  function Add(r: Range, c: Class): Class {
    c.(ranges := [r] + c.ranges)
  }

  predicate Fits(t: Tok, c: char) {
    match t
    case Lit(x) => x == c
    case AnyOne => true
    case OneOf(negated, ranges) =>
      negated != exists i | 0 <= i < |ranges| :: ranges[i].lo <= c <= ranges[i].hi
  }

  /** The first token of a pattern that does not start with "*", the rest, and whether it is complete. */
  datatype Head = Head(tok: Tok, rest: string, whole: bool)

  function HeadOf(p: string): (h: Head)
    requires p != ""
    ensures |h.rest| < |p|
  {
    if p[0] == '?' then Head(AnyOne, p[1..], true)
    else if p[0] == '[' then
      var negated := |p| >= 2 && p[1] == '^';
      var c := ClassOf(if negated then p[2..] else p[1..]);
      Head(OneOf(negated, c.ranges), c.rest, c.closed)
    else if p[0] == '\\' && |p| >= 2 then Head(Lit(p[1]), p[2..], true)
    else Head(Lit(p[0]), p[1..], p[0] != '\\')
  }

  predicate Glob(pattern: string, s: string)
    decreases |pattern|
  {
    if pattern == "" then s == ""
    else if pattern[0] == '*' then exists k | 0 <= k <= |s| :: Glob(pattern[1..], s[k..])
    else s != "" && Fits(HeadOf(pattern).tok, s[0]) && Glob(HeadOf(pattern).rest, s[1..])
  }

  // ------------------------------------------ a prefix and a final star

  /** The tokens of a prefix, one for each character it consumes. */
  function Toks(q: string): (ts: seq<Tok>)
    ensures |ts| <= |q|
    decreases |q|
  {
    if q == "" then [] else [HeadOf(q).tok] + Toks(HeadOf(q).rest)
  }

  /** The prefix ends between two tokens, so what follows it is read as such. */
  predicate Closed(q: string)
    decreases |q|
  {
    q == "" || (HeadOf(q).whole && Closed(HeadOf(q).rest))
  }

  /** s starts with characters that fit the tokens of q. */
  predicate Reads(q: string, s: string) {
    Closed(q) && |Toks(q)| <= |s| && forall i | 0 <= i < |Toks(q)| :: Fits(Toks(q)[i], s[i])
  }

  /** A class of one range takes the characters from one end to the other, or with "^" all the others. */
  lemma {:induction false} RangeFits(lo: char, hi: char, rest: string, c: char)
    requires lo !in {'\\', ']', '^'}
    ensures var h := HeadOf(['[', lo, '-', hi, ']'] + rest);
            h.whole && h.rest == rest && (Fits(h.tok, c) <==> lo <= c <= hi || hi <= c <= lo)
    ensures var h := HeadOf(['[', '^', lo, '-', hi, ']'] + rest);
            h.whole && h.rest == rest && (Fits(h.tok, c) <==> !(lo <= c <= hi || hi <= c <= lo))
  {
    var body := [lo, '-', hi, ']'] + rest;
    var r := if lo <= hi then Range(lo, hi) else Range(hi, lo);
    assert body[3..] == [']'] + rest && ([']'] + rest)[1..] == rest;
    assert ClassOf([']'] + rest) == Class([], rest, true);
    assert ClassOf(body) == Class([r], rest, true);
    assert (['[', lo, '-', hi, ']'] + rest)[1..] == body;
    assert (['[', '^', lo, '-', hi, ']'] + rest)[2..] == body;
    assert [r][0] == r;
  }

  /** A final star does not close a class, nor change one that is closed. */
  lemma {:induction false} ClassBeforeStar(p: string)
    ensures var a, b := ClassOf(p), ClassOf(p + "*");
            b.closed == a.closed && (a.closed ==> b.ranges == a.ranges && b.rest == a.rest + "*")
    decreases |p|
  {
    var q := p + "*";
    if p == "" {
      assert q[1..] == "";
    } else if p[0] == '\\' && |p| >= 2 {
      assert q[2..] == p[2..] + "*";
      ClassBeforeStar(p[2..]);
    } else if p[0] == '\\' {
      assert q[2..] == "" && p[1..] == "";
    } else if p[0] == ']' {
      assert q[1..] == p[1..] + "*";
    } else if |p| >= 3 && p[1] == '-' {
      assert q[3..] == p[3..] + "*";
      ClassBeforeStar(p[3..]);
    } else if |p| == 2 && p[1] == '-' {
      assert q[3..] == "" && p[1..][1..] == "";
    } else {
      assert q[1..] == p[1..] + "*";
      ClassBeforeStar(p[1..]);
    }
  }

  lemma {:induction false} HeadBeforeStar(q: string)
    requires q != "" && q[0] != '*'
    ensures var a, b := HeadOf(q), HeadOf(q + "*");
            if a.whole then b == Head(a.tok, a.rest + "*", true) else b.rest == ""
  {
    var p := q + "*";
    assert p[1..] == q[1..] + "*";
    if q[0] == '[' {
      if |q| >= 2 && q[1] == '^' {
        assert p[2..] == q[2..] + "*";
        ClassBeforeStar(q[2..]);
      } else {
        ClassBeforeStar(q[1..]);
      }
    } else if q[0] == '\\' && |q| >= 2 {
      assert p[2..] == q[2..] + "*";
    }
  }

  lemma {:induction false} RestHasNoStar(q: string)
    requires q != "" && '*' !in q
    ensures '*' !in HeadOf(q).rest
  {
    RestIsSuffix(q);
    var rest := HeadOf(q).rest;
    assert forall i | 0 <= i < |rest| :: rest[i] == q[|q| - |rest| + i];
  }

  lemma {:induction false} RestIsSuffix(q: string)
    requires q != ""
    ensures HeadOf(q).rest == q[|q| - |HeadOf(q).rest|..]
  {
    if q[0] == '[' {
      var p := if |q| >= 2 && q[1] == '^' then q[2..] else q[1..];
      ClassRestIsSuffix(p);
      assert p == q[|q| - |p|..];
    }
  }

  lemma {:induction false} ClassRestIsSuffix(p: string)
    ensures ClassOf(p).rest == p[|p| - |ClassOf(p).rest|..]
    decreases |p|
  {
    if p == "" {
    } else if p[0] == '\\' && |p| >= 2 {
      ClassRestIsSuffix(p[2..]);
    } else if p[0] == ']' {
    } else if |p| >= 3 && p[1] == '-' {
      ClassRestIsSuffix(p[3..]);
    } else {
      ClassRestIsSuffix(p[1..]);
    }
  }

  /**
   A literal prefix and a final star match exactly the strings whose first
   characters fit the tokens of the prefix; a prefix that swallows the star
   matches no string longer than itself.
   */
  lemma {:induction false} GlobOfPrefix(q: string, s: string)
    requires '*' !in q
    ensures Closed(q) ==> (Glob(q + "*", s) <==> Reads(q, s))
    ensures !Closed(q) && Glob(q + "*", s) ==> |s| <= |q|
    decreases |q|
  {
    if q == "" {
      assert q + "*" == "*" && "*"[1..] == "";
      assert Glob("", s[|s|..]);
    } else {
      assert (q + "*")[0] == q[0] != '*';
      HeadBeforeStar(q);
      if s != "" && HeadOf(q).whole {
        RestHasNoStar(q);
        GlobOfPrefix(HeadOf(q).rest, s[1..]);
        if Closed(q) { ReadsStep(q, s); }
      } else if s != "" {
        assert Glob(q + "*", s) ==> Glob("", s[1..]);
      }
    }
  }

  lemma {:induction false} ReadsStep(q: string, s: string)
    requires q != "" && s != "" && Closed(q)
    ensures Reads(q, s) <==> Fits(HeadOf(q).tok, s[0]) && Reads(HeadOf(q).rest, s[1..])
  {
    var ts, rest := Toks(q), Toks(HeadOf(q).rest);
    assert ts == [HeadOf(q).tok] + rest;
    if Reads(q, s) {
      forall i | 0 <= i < |rest| ensures Fits(rest[i], s[1..][i]) {
        assert Fits(ts[i + 1], s[i + 1]);
      }
    }
    if Fits(HeadOf(q).tok, s[0]) && Reads(HeadOf(q).rest, s[1..]) {
      forall i | 0 <= i < |ts| ensures Fits(ts[i], s[i]) {
        if i > 0 { assert Fits(rest[i - 1], s[1..][i - 1]); }
      }
    }
  }

  /** No class and no escape. */
  predicate Unbracketed(q: string) {
    '[' !in q && '\\' !in q
  }

  /** Then each character stands for itself, and "?" for any. */
  lemma {:induction false} ToksOfUnbracketed(q: string)
    requires Unbracketed(q)
    ensures Closed(q) && |Toks(q)| == |q|
    ensures forall i | 0 <= i < |q| :: Toks(q)[i] == if q[i] == '?' then AnyOne else Lit(q[i])
    decreases |q|
  {
    if q != "" {
      ToksOfUnbracketed(q[1..]);
      assert HeadOf(q).rest == q[1..];
    }
  }

  lemma {:induction false} ClassEndsWithBracket(p: string)
    requires ClassOf(p).closed
    ensures p[|p| - |ClassOf(p).rest| - 1] == ']'
    decreases |p|
  {
    if p[0] == '\\' && |p| >= 2 {
      ClassEndsWithBracket(p[2..]);
    } else if p[0] == ']' {
    } else if |p| >= 3 && p[1] == '-' {
      ClassEndsWithBracket(p[3..]);
    } else {
      ClassEndsWithBracket(p[1..]);
    }
  }

  /** A prefix that ends in a character without a meaning of its own ends in the token for it. */
  lemma {:induction false} LastTok(q: string)
    requires q != "" && q[|q| - 1] !in {']', '?', '[', '\\'} && Closed(q)
    ensures Toks(q) != [] && Toks(q)[|Toks(q)| - 1] == Lit(q[|q| - 1])
    decreases |q|
  {
    var rest := HeadOf(q).rest;
    RestIsSuffix(q);
    if rest == "" {
      assert Toks(q) == [HeadOf(q).tok];
      if q[0] == '[' {
        var p := if |q| >= 2 && q[1] == '^' then q[2..] else q[1..];
        ClassEndsWithBracket(p);
      }
    } else {
      assert rest[|rest| - 1] == q[|q| - 1];
      LastTok(rest);
      assert Toks(q) == [HeadOf(q).tok] + Toks(rest);
    }
  }
}
