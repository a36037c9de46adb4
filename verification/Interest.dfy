/**
 Compilation of a subscription key to what the live bus can route: exact
 channels and literal-prefix globs (internal/channel/interest.go).
 */
module Interest {
  import opened Options
  import opened Topics
  import opened Patterns
  import opened BusGlobs

  /** Empty strings stand for absent parts; the glob is literal up to its final "*". */
  datatype CompiledInterest = CompiledInterest(exact: string, pattern: string, alsoExact: string)

  datatype Outcome = Routable(interest: CompiledInterest) | BadTopic | NotRoutable

  function Dots(n: nat): (ds: string)
    ensures |ds| == n && AllDelimiters(ds)
  {
    seq(n, i => '.')
  }

  function JoinDots(segs: seq<string>): string {
    if segs == [] then "" else Weave(segs, Dots(|segs| - 1))
  }

  /** The literal prefix rejoined by the namespace grammar, and the delimiter the glob continues with. */
  function JoinPrefix(key: string, prefixSegs: seq<string>): (r: (string, char))
    requires ':' in key ==> |prefixSegs| >= 1
  {
    if ':' !in key then (JoinDots(prefixSegs), '.')
    else if |prefixSegs| == 1 then (prefixSegs[0], ':')
    else (prefixSegs[0] + ":" + JoinDots(prefixSegs[1..]), '.')
  }

  function CompileInterest(key: string): (r: Outcome) {
    if !ValidTopic(key) then BadTopic else
    if '*' !in key then Routable(CompiledInterest(key, "", "")) else
    var segs := Split(key);
    var last, prefixSegs := segs[|segs| - 1], segs[..|segs| - 1];
    if last != "*" && last != "**" then NotRoutable else
    if exists i | 0 <= i < |prefixSegs| :: '*' in prefixSegs[i] then NotRoutable else
    ColonSplits(key);
    var (prefix, sep) := JoinPrefix(key, prefixSegs);
    if prefix == "" then NotRoutable else
    Routable(CompiledInterest("", prefix + [sep] + "*", if last == "**" then prefix else ""))
  }

  lemma {:induction false} ColonSplits(key: string)
    ensures ':' in key ==> |Split(key)| >= 2 && |Delims(key)| >= 1
  {
    if ':' in key {
      WeaveOfSplit(key);
    }
  }

  lemma {:induction false} PrefixIsNonEmpty(key: string, prefixSegs: seq<string>)
    requires ':' in key ==> |prefixSegs| >= 1
    requires AllNonEmpty(prefixSegs)
    ensures JoinPrefix(key, prefixSegs).0 == "" <==> prefixSegs == []
  {
    if ':' !in key && |prefixSegs| > 1 {
      assert JoinDots(prefixSegs)[0] == prefixSegs[0][0];
    }
  }

  /** The pattern check that configuration validation performs (internal/config/config.go). */
  predicate ValidAuthorizerPattern(pattern: string) {
    ValidTopic(pattern) &&
    ('*' in pattern ==>
       var segs := Split(pattern);
       (segs[|segs| - 1] == "*" || segs[|segs| - 1] == "**") &&
       (forall i | 0 <= i < |segs| - 1 :: '*' !in segs[i]) &&
       |segs| != 1)
  }

  lemma {:induction false} InterestIsCompilable(key: string)
    ensures CompileInterest(key).Routable? <==> Compile(key).Some?
    ensures CompileInterest(key).BadTopic? <==> !ValidTopic(key)
  {
    if ValidTopic(key) && '*' in key {
      var segs := Split(key);
      var prefixSegs := segs[..|segs| - 1];
      ColonSplits(key);
      assert forall i | 0 <= i < |prefixSegs| :: prefixSegs[i] == segs[i];
      PrefixIsNonEmpty(key, prefixSegs);
    }
  }

  lemma {:induction false} AuthorizerPatternIsCompilable(pattern: string)
    ensures ValidAuthorizerPattern(pattern) <==> Compile(pattern).Some?
  {
    var segs := Split(pattern);
    var prefix := segs[..|segs| - 1];
    assert forall i | 0 <= i < |prefix| :: prefix[i] == segs[i];
  }

  /** The three gates a key passes accept the same strings. */
  lemma {:induction false} SameLanguage(key: string)
    ensures CompileInterest(key).Routable? <==> InKeyLanguage(key)
    ensures Compile(key).Some? <==> InKeyLanguage(key)
    ensures ValidAuthorizerPattern(key) <==> InKeyLanguage(key)
    ensures CompileInterest(key).BadTopic? <==> !ValidTopic(key)
  {
    CompileAcceptsKeys(key);
    InterestIsCompilable(key);
    AuthorizerPatternIsCompilable(key);
  }

  // ------------------------------------------------------------- the bus

  /** A publication on the channel reaches a node subscribed to the compiled parts. */
  predicate Routed(ci: CompiledInterest, channel: string) {
    (ci.exact != "" && channel == ci.exact) ||
    (ci.alsoExact != "" && channel == ci.alsoExact) ||
    (ci.pattern != "" && Glob(ci.pattern, channel))
  }

  // -------------------------------------------------------- which delimiters

  /** The first n delimiters of a compiled key: ":" then dots when the key has a ":", else dots. */
  function Expected(key: string, n: nat): (ds: string)
    ensures |ds| == n && AllDelimiters(ds)
  {
    if n > 0 && ':' in key then ":" + Dots(n - 1) else Dots(n)
  }

  /** The channel delimits its leading segments as the compiled key does. */
  predicate SameGrammar(key: string, channel: string) {
    if '*' !in key then Delims(channel) == Delims(key) else
    var n, ds := |Split(key)| - 1, Delims(channel);
    var k := if n <= |ds| then n else |ds|;
    ds[..k] == Expected(key, k)
  }

  lemma {:induction false} DelimsOfConcat(a: string, b: string)
    ensures Delims(a + b) == Delims(a) + Delims(b)
  {
    if a == "" {
      assert a + b == b;
    } else {
      assert (a + b)[0] == a[0] && (a + b)[1..] == a[1..] + b;
      DelimsOfConcat(a[1..], b);
      assert [a[0]] + (Delims(a[1..]) + Delims(b)) == [a[0]] + Delims(a[1..]) + Delims(b);
    }
  }

  /** Weaving in two halves. */
  lemma {:induction false} WeaveConcat(segs: seq<string>, ds: string, n: nat)
    requires |segs| == |ds| + 1 && 1 <= n <= |ds|
    ensures Weave(segs, ds) == Weave(segs[..n], ds[..n - 1]) + [ds[n - 1]] + Weave(segs[n..], ds[n..])
    decreases n
  {
    if n > 1 {
      WeaveConcat(segs[1..], ds[1..], n - 1);
      assert segs[1..][..n - 1] == segs[..n][1..] && ds[1..][..n - 2] == ds[..n - 1][1..];
      assert segs[1..][n - 1..] == segs[n..] && ds[1..][n - 1..] == ds[n..];
    }
  }

  /** The compiled prefix is the literal segments woven with the expected delimiters. */
  lemma {:induction false} PrefixIsWoven(key: string, prefixSegs: seq<string>)
    requires |prefixSegs| >= 1
    ensures var n := |prefixSegs|;
            JoinPrefix(key, prefixSegs) == (Weave(prefixSegs, Expected(key, n - 1)), Expected(key, n)[n - 1])
  {
    var n := |prefixSegs|;
    if ':' in key && n > 1 {
      assert Expected(key, n - 1)[1..] == Dots(n - 2);
    }
  }

  /** What weaving a prefix of a channel's segments and continuing it says about its delimiters. */
  lemma {:induction false} PrefixDelims(channel: string, prefix: seq<string>, es: string)
    requires |es| == |prefix| >= 1 && AllPlain(prefix) && AllDelimiters(es)
    requires Weave(prefix, es[..|es| - 1]) + [es[|es| - 1]] <= channel
    ensures es <= Delims(channel)
  {
    var woven, sep := Weave(prefix, es[..|es| - 1]), es[|es| - 1];
    SplitOfWeave(prefix, es[..|es| - 1]);
    DelimsOfConcat(woven, [sep]);
    assert Delims([sep]) == [sep] + Delims("");
    assert es == es[..|es| - 1] + [sep];
    DelimsOfConcat(woven + [sep], channel[|woven| + 1..]);
    assert channel == woven + [sep] + channel[|woven| + 1..];
  }

  lemma {:induction false} WovenStart(segs: seq<string>, ds: string, n: nat)
    requires |segs| == |ds| + 1 && 1 <= n <= |ds|
    ensures Weave(segs[..n], ds[..n - 1]) + [ds[n - 1]] <= Weave(segs, ds)
  {
    WeaveConcat(segs, ds, n);
    var head, tail := Weave(segs[..n], ds[..n - 1]) + [ds[n - 1]], Weave(segs[n..], ds[n..]);
    assert head <= head + tail;
  }

  lemma {:induction false} SameDelimsStart(channel: string, prefix: seq<string>, es: string)
    requires |es| == |prefix| >= 1
    requires |prefix| < |Split(channel)| && prefix <= Split(channel) && es <= Delims(channel)
    ensures Weave(prefix, es[..|es| - 1]) + [es[|es| - 1]] <= channel
  {
    var segs, ds, n := Split(channel), Delims(channel), |prefix|;
    WeaveOfSplit(channel);
    assert segs[..n] == prefix && ds[..n - 1] == es[..n - 1];
    assert Weave(prefix, es[..n - 1]) == Weave(segs[..n], ds[..n - 1]);
    WovenStart(segs, ds, n);
  }

  // -------------------------------------------------------- what is routed

  /** What the bus glob of a wildcard key has in front of its final star. */
  function Stem(key: string): string
    requires CompileInterest(key).Routable? && '*' in key
  {
    var pattern := CompileInterest(key).interest.pattern;
    pattern[..|pattern| - 1]
  }

  /** The stem, read as a glob, fits its own text: no class or escape in it that would take it for another. */
  predicate ReadsItself(key: string)
    requires CompileInterest(key).Routable?
  {
    '*' in key ==> Reads(Stem(key), Stem(key))
  }

  /**
   What is routed of the channels a routable key matches. A channel delimited as
   the compiled key is routed iff the key's stem reads as itself, or the channel
   ends with the prefix and has an entry of its own. For a key without "[" and
   "\\" routing loses exactly the channels delimited differently.
   */
  lemma {:induction false} RoutingIff(key: string, channel: string)
    requires CompileInterest(key).Routable? && Match(key, channel)
    ensures SameGrammar(key, channel) ==>
              (Routed(CompileInterest(key).interest, channel) <==>
               ReadsItself(key) || |Split(channel)| < |Split(key)|)
    ensures Unbracketed(key) ==> (Routed(CompileInterest(key).interest, channel) <==> SameGrammar(key, channel))
  {
    if '*' in key {
      WildcardRouting(key, channel);
    } else {
      ExactRouting(key, channel);
    }
  }

  lemma {:induction false} ExactRouting(key: string, channel: string)
    requires CompileInterest(key).Routable? && Match(key, channel) && '*' !in key
    ensures Routed(CompileInterest(key).interest, channel) <==> SameGrammar(key, channel)
  {
    SameLanguage(key);
    CompileMeaning(key, channel);
    WeaveOfSplit(key);
    WeaveOfSplit(channel);
    assert Split(channel) == Split(key);
    assert key != "";
    if Delims(channel) == Delims(key) {
      assert channel == Weave(Split(key), Delims(key)) == key;
    }
  }

  /** The shape of a compiled wildcard key. */
  lemma {:induction false} WildcardShape(key: string) returns (prefixSegs: seq<string>, prefix: string, sep: char)
    requires CompileInterest(key).Routable? && '*' in key
    ensures prefixSegs == Split(key)[..|Split(key)| - 1] && |prefixSegs| >= 1 && AllLiteral(prefixSegs)
    ensures var n := |prefixSegs|;
            prefix == Weave(prefixSegs, Expected(key, n - 1)) && sep == Expected(key, n)[n - 1]
    ensures var ci := CompileInterest(key).interest;
            ci.exact == "" && ci.pattern == prefix + [sep] + "*" &&
            ci.alsoExact == if Compile(key).value.kind.DStar? then prefix else ""
    ensures '*' !in prefix + [sep] && prefix != ""
  {
    SameLanguage(key);
    CompileMeaning(key, "");
    ColonSplits(key);
    var n := |Split(key)| - 1;
    prefixSegs := Split(key)[..n];
    assert prefixSegs == Compile(key).value.segments;
    PrefixIsWoven(key, prefixSegs);
    prefix, sep := JoinPrefix(key, prefixSegs).0, JoinPrefix(key, prefixSegs).1;
    SplitOfWeave(prefixSegs, Expected(key, n - 1));
    CharInSplit(prefix, '*');
    assert sep != '*';
  }

  /** What the compiled parts of a wildcard key route. */
  lemma {:induction false} RoutedByPrefix(key: string, channel: string)
    returns (prefixSegs: seq<string>, prefix: string, sep: char)
    requires CompileInterest(key).Routable? && '*' in key
    ensures prefixSegs == Split(key)[..|Split(key)| - 1] && |prefixSegs| >= 1 && AllLiteral(prefixSegs)
    ensures prefix == Weave(prefixSegs, Expected(key, |prefixSegs| - 1))
    ensures sep == Expected(key, |prefixSegs|)[|prefixSegs| - 1] && Stem(key) == prefix + [sep]
    ensures Routed(CompileInterest(key).interest, channel) <==>
            (Glob(Stem(key) + "*", channel) || (Compile(key).value.kind.DStar? && channel == prefix))
    ensures '*' !in Stem(key)
  {
    prefixSegs, prefix, sep := WildcardShape(key);
    var pattern := CompileInterest(key).interest.pattern;
    assert pattern[..|pattern| - 1] == prefix + [sep];
    assert pattern == Stem(key) + "*";
  }

  /** What a wildcard key matches: something past its prefix, or for "**" nothing. */
  lemma {:induction false} MatchedByPrefix(key: string, channel: string, prefixSegs: seq<string>)
    requires Compile(key).Some? && Match(key, channel) && '*' in key && prefixSegs == Split(key)[..|Split(key)| - 1]
    ensures prefixSegs <= Split(channel) && (|prefixSegs| == |Split(channel)| ==> Compile(key).value.kind.DStar?)
  {
    CompileMeaning(key, channel);
    assert prefixSegs == Compile(key).value.segments;
  }

  lemma {:induction false} WildcardRouting(key: string, channel: string)
    requires CompileInterest(key).Routable? && Match(key, channel) && '*' in key
    ensures SameGrammar(key, channel) ==>
              (Routed(CompileInterest(key).interest, channel) <==>
               ReadsItself(key) || |Split(channel)| < |Split(key)|)
    ensures Unbracketed(key) ==> (Routed(CompileInterest(key).interest, channel) <==> SameGrammar(key, channel))
  {
    SameLanguage(key);
    var prefixSegs, prefix, sep := RoutedByPrefix(key, channel);
    MatchedByPrefix(key, channel, prefixSegs);
    if Unbracketed(key) { StemIsUnbracketed(key, prefixSegs); }
    if |Split(channel)| == |prefixSegs| {
      assert Split(channel) == prefixSegs;
      RoutingOfBarePrefix(key, channel, prefixSegs, prefix, sep);
      if Unbracketed(key) {
        BareIsTooShort(Stem(key), channel, prefixSegs, Expected(key, |prefixSegs| - 1), sep);
      }
    } else {
      RoutingPastPrefix(key, channel, prefixSegs, prefix, sep);
      var es := Expected(key, |prefixSegs|);
      assert es[..|es| - 1] == Expected(key, |prefixSegs| - 1);
      GlobPastPrefix(Stem(key), channel, prefixSegs, es);
    }
  }

  /** The characters of the stem are characters of the key, delimiters aside. */
  lemma {:induction false} StemIsUnbracketed(key: string, prefixSegs: seq<string>)
    requires CompileInterest(key).Routable? && '*' in key && Unbracketed(key)
    requires prefixSegs == Split(key)[..|Split(key)| - 1] && |prefixSegs| >= 1
    requires var n := |prefixSegs|; Stem(key) == Weave(prefixSegs, Expected(key, n - 1)) + [Expected(key, n)[n - 1]]
    ensures Unbracketed(Stem(key))
  {
    StemCharacters(key, prefixSegs, '[');
    StemCharacters(key, prefixSegs, '\\');
  }

  lemma {:induction false} StemCharacters(key: string, prefixSegs: seq<string>, c: char)
    requires prefixSegs == Split(key)[..|Split(key)| - 1] && |prefixSegs| >= 1 && !IsDelimiter(c) && c !in key
    ensures var n := |prefixSegs|; c !in Weave(prefixSegs, Expected(key, n - 1)) + [Expected(key, n)[n - 1]]
  {
    var n := |prefixSegs|;
    WeaveOfSplit(key);
    assert AllPlain(prefixSegs);
    SplitOfWeave(prefixSegs, Expected(key, n - 1));
    CharInSplit(Weave(prefixSegs, Expected(key, n - 1)), c);
    CharInSplit(key, c);
    assert forall i | 0 <= i < n :: prefixSegs[i] == Split(key)[i];
  }

  /** A glob that reads each character by itself needs more than the bare prefix. */
  lemma {:induction false} BareIsTooShort(q: string, channel: string, prefix: seq<string>, es: string, sep: char)
    requires |prefix| == |es| + 1 && AllDelimiters(es) && q == Weave(prefix, es) + [sep]
    requires Unbracketed(q) && '*' !in q
    requires Split(channel) == prefix
    ensures !Glob(q + "*", channel)
  {
    ToksOfUnbracketed(q);
    GlobOfPrefix(q, channel);
    WeaveOfSplit(channel);
    SameButDelims(prefix, es, Delims(channel));
  }

  /** Weaving with other delimiters changes characters only from delimiter to delimiter. */
  lemma {:induction false} SameButDelims(segs: seq<string>, es: string, ds: string)
    requires |segs| == |es| + 1 == |ds| + 1 && AllDelimiters(es) && AllDelimiters(ds)
    ensures |Weave(segs, es)| == |Weave(segs, ds)|
    ensures forall i | 0 <= i < |Weave(segs, es)| ::
              Weave(segs, es)[i] == Weave(segs, ds)[i] ||
              (IsDelimiter(Weave(segs, es)[i]) && IsDelimiter(Weave(segs, ds)[i]))
    decreases |segs|
  {
    if |segs| > 1 {
      SameButDelims(segs[1..], es[1..], ds[1..]);
      var a, b := Weave(segs[1..], es[1..]), Weave(segs[1..], ds[1..]);
      var n := |segs[0]|;
      forall i | 0 <= i < |Weave(segs, es)|
        ensures Weave(segs, es)[i] == Weave(segs, ds)[i] ||
                (IsDelimiter(Weave(segs, es)[i]) && IsDelimiter(Weave(segs, ds)[i]))
      {
        if i > n {
          assert Weave(segs, es)[i] == a[i - n - 1] && Weave(segs, ds)[i] == b[i - n - 1];
        }
      }
    }
  }

  /** Past the prefix the channel has the stem's text, delimiters aside, and something more. */
  lemma {:induction false} PastStem(channel: string, prefix: seq<string>, es: string)
    requires |es| == |prefix| >= 1 && AllDelimiters(es)
    requires |prefix| < |Split(channel)| && prefix <= Split(channel) && AllNonEmpty(Split(channel))
    ensures var q := Weave(prefix, es[..|es| - 1]) + [es[|es| - 1]];
            |q| < |channel| &&
            forall i | 0 <= i < |q| :: q[i] == channel[i] || (IsDelimiter(q[i]) && IsDelimiter(channel[i]))
  {
    var segs, ds, n := Split(channel), Delims(channel), |prefix|;
    WeaveOfSplit(channel);
    assert segs[..n] == prefix;
    WeaveConcat(segs, ds, n);
    SameButDelims(prefix, es[..n - 1], ds[..n - 1]);
    var mine, theirs, tail := Weave(prefix, es[..n - 1]), Weave(prefix, ds[..n - 1]), Weave(segs[n..], ds[n..]);
    assert channel == theirs + [ds[n - 1]] + tail;
    assert segs[n..][0] == segs[n] != "";
    assert tail != "";
    var q := mine + [es[n - 1]];
    forall i | 0 <= i < |q| ensures q[i] == channel[i] || (IsDelimiter(q[i]) && IsDelimiter(channel[i])) {
      if i < |mine| { assert q[i] == mine[i] && channel[i] == theirs[i]; }
    }
  }

  /** On text that is the stem's own, a glob reads as it reads the stem. */
  lemma {:induction false} ReadsOwnText(q: string, s: string)
    requires q <= s && |q| < |s| && '*' !in q
    ensures Glob(q + "*", s) <==> Reads(q, q)
  {
    GlobOfPrefix(q, s);
    assert forall i | 0 <= i < |q| :: q[i] == s[i];
  }

  /** A glob without classes and escapes reads no other delimiters than its own. */
  lemma {:induction false} ReadsOnlyOwnDelims(q: string, s: string)
    requires Unbracketed(q) && '*' !in q && |q| < |s|
    requires forall i | 0 <= i < |q| :: q[i] == s[i] || (IsDelimiter(q[i]) && IsDelimiter(s[i]))
    ensures Glob(q + "*", s) <==> q <= s
  {
    ToksOfUnbracketed(q);
    GlobOfPrefix(q, s);
    if Reads(q, s) {
      forall i | 0 <= i < |q| ensures q[i] == s[i] {
        assert Fits(Toks(q)[i], s[i]);
      }
    }
  }

  /** What the glob of a stem does with a channel that goes on past it. */
  lemma {:induction false} GlobPastPrefix(q: string, channel: string, prefix: seq<string>, es: string)
    requires |es| == |prefix| >= 1 && AllDelimiters(es) && '*' !in q
    requires q == Weave(prefix, es[..|es| - 1]) + [es[|es| - 1]]
    requires prefix <= Split(channel) && |prefix| < |Split(channel)| && AllNonEmpty(Split(channel))
    ensures q <= channel ==> (Glob(q + "*", channel) <==> Reads(q, q))
    ensures Unbracketed(q) ==> (Glob(q + "*", channel) <==> q <= channel)
  {
    PastStem(channel, prefix, es);
    if q <= channel { ReadsOwnText(q, channel); }
    if Unbracketed(q) { ReadsOnlyOwnDelims(q, channel); }
  }

  /** Only a "**" key matches with nothing after the prefix; the extra exact channel serves it. */
  lemma {:induction false} RoutingOfBarePrefix(key: string, channel: string, prefixSegs: seq<string>, prefix: string,
                                               sep: char)
    requires |prefixSegs| == |Split(key)| - 1 >= 1 && '*' in key && AllPlain(prefixSegs)
    requires prefix == Weave(prefixSegs, Expected(key, |prefixSegs| - 1))
    requires sep == Expected(key, |prefixSegs|)[|prefixSegs| - 1]
    requires Split(channel) == prefixSegs
    ensures channel == prefix <==> SameGrammar(key, channel)
    ensures !(prefix + [sep] <= channel)
  {
    var n := |prefixSegs|;
    WeaveOfSplit(channel);
    SplitOfWeave(prefixSegs, Expected(key, n - 1));
    assert Delims(channel)[..n - 1] == Delims(channel);
    if prefix + [sep] <= channel {
      assert Expected(key, n)[..n - 1] == Expected(key, n - 1);
      PrefixDelims(channel, prefixSegs, Expected(key, n));
      assert false;
    }
  }

  /** A channel that goes on past the prefix starts with it, woven so, iff its delimiters start so. */
  lemma {:induction false} StartsIffDelims(channel: string, prefix: seq<string>, es: string)
    requires |es| == |prefix| >= 1 && AllPlain(prefix) && AllDelimiters(es)
    requires |prefix| < |Split(channel)| && prefix <= Split(channel)
    ensures Weave(prefix, es[..|es| - 1]) + [es[|es| - 1]] <= channel <==> es <= Delims(channel)
  {
    if Weave(prefix, es[..|es| - 1]) + [es[|es| - 1]] <= channel {
      PrefixDelims(channel, prefix, es);
    }
    if es <= Delims(channel) {
      SameDelimsStart(channel, prefix, es);
    }
  }

  lemma {:induction false} RoutingPastPrefix(key: string, channel: string, prefixSegs: seq<string>, prefix: string,
                                             sep: char)
    requires |prefixSegs| == |Split(key)| - 1 >= 1 && '*' in key && AllPlain(prefixSegs)
    requires prefix == Weave(prefixSegs, Expected(key, |prefixSegs| - 1))
    requires sep == Expected(key, |prefixSegs|)[|prefixSegs| - 1]
    requires prefixSegs <= Split(channel) && |prefixSegs| < |Split(channel)|
    ensures prefix + [sep] <= channel <==> SameGrammar(key, channel)
    ensures channel != prefix
  {
    var n := |prefixSegs|;
    StartsAsExpected(key, channel, prefixSegs);
    PastHasDelims(channel, n);
    SameGrammarPast(key, channel, n);
    LongerIsOther(channel, prefixSegs, Expected(key, n - 1));
  }

  lemma {:induction false} StartsAsExpected(key: string, channel: string, prefixSegs: seq<string>)
    requires |prefixSegs| >= 1 && AllPlain(prefixSegs)
    requires prefixSegs <= Split(channel) && |prefixSegs| < |Split(channel)|
    ensures var n := |prefixSegs|;
            Weave(prefixSegs, Expected(key, n - 1)) + [Expected(key, n)[n - 1]] <= channel <==>
            Expected(key, n) <= Delims(channel)
  {
    var n := |prefixSegs|;
    var es := Expected(key, n);
    assert es[..n - 1] == Expected(key, n - 1);
    StartsIffDelims(channel, prefixSegs, es);
  }

  lemma {:induction false} PastHasDelims(channel: string, n: nat)
    requires n < |Split(channel)|
    ensures n <= |Delims(channel)|
  {
    WeaveOfSplit(channel);
  }

  lemma {:induction false} LongerIsOther(channel: string, segs: seq<string>, ds: string)
    requires |segs| == |ds| + 1 && AllPlain(segs) && AllDelimiters(ds) && |segs| < |Split(channel)|
    ensures channel != Weave(segs, ds)
  {
    SplitOfWeave(segs, ds);
  }

  lemma {:induction false} SameGrammarPast(key: string, channel: string, n: nat)
    requires '*' in key && n == |Split(key)| - 1 <= |Delims(channel)|
    ensures SameGrammar(key, channel) <==> Expected(key, n) <= Delims(channel)
  {
    assert Expected(key, n) <= Delims(channel) <==> Delims(channel)[..n] == Expected(key, n);
  }

  /** A namespaced name: exactly one ":" and it is the first delimiter. */
  predicate Namespaced(s: string) {
    var ds := Delims(s);
    |ds| >= 1 && ds[0] == ':' && forall i | 1 <= i < |ds| :: ds[i] == '.'
  }

  predicate Unnamespaced(s: string) {
    forall i | 0 <= i < |Delims(s)| :: Delims(s)[i] == '.'
  }

  /** Two names of one grammar delimit their leading segments alike. */
  lemma {:induction false} OneGrammarIsSame(key: string, channel: string)
    requires '*' in key
    requires (Namespaced(key) && Namespaced(channel)) || (Unnamespaced(key) && Unnamespaced(channel))
    ensures SameGrammar(key, channel)
  {
    ColonIffColonDelim(key);
    var n, ds := |Split(key)| - 1, Delims(channel);
    var k := if n <= |ds| then n else |ds|;
    assert (':' in key) <==> Namespaced(key);
    assert ds[..k] == Expected(key, k);
  }

  /**
   Within one grammar what the key matches is routed, iff the key's stem reads as
   itself or nothing follows it; and without "[" and "\\" in the key it does.
   */
  lemma {:induction false} OneGrammarRoutedIff(key: string, channel: string)
    requires CompileInterest(key).Routable? && Match(key, channel)
    requires (Namespaced(key) && Namespaced(channel)) || (Unnamespaced(key) && Unnamespaced(channel))
    ensures Routed(CompileInterest(key).interest, channel) <==> ReadsItself(key) || |Split(channel)| < |Split(key)|
    ensures Unbracketed(key) ==> Routed(CompileInterest(key).interest, channel)
  {
    if '*' in key {
      OneGrammarIsSame(key, channel);
    } else {
      ExactMatchIsSame(key, channel);
    }
    RoutingIff(key, channel);
  }

  lemma {:induction false} ExactMatchIsSame(key: string, channel: string)
    requires CompileInterest(key).Routable? && Match(key, channel) && '*' !in key
    requires (Namespaced(key) && Namespaced(channel)) || (Unnamespaced(key) && Unnamespaced(channel))
    ensures SameGrammar(key, channel)
  {
    SameLanguage(key);
    CompileMeaning(key, channel);
    assert Split(channel) == Split(key);
    WeaveOfSplit(key);
    WeaveOfSplit(channel);
    assert Delims(channel) == Delims(key);
  }

  lemma {:induction false} ColonIffColonDelim(s: string)
    ensures ':' in s <==> ':' in Delims(s)
  {
    if s != "" {
      ColonIffColonDelim(s[1..]);
      assert s == [s[0]] + s[1..];
    }
  }

  lemma {:induction false} SplitOfPair(a: string, d: char, b: string)
    requires Plain(a) && Plain(b) && IsDelimiter(d)
    ensures Split(a + [d] + b) == [a, b] && Delims(a + [d] + b) == [d]
  {
    var s := a + [d] + b;
    assert s[..|a|] == a && s[|a| + 1..] == b;
    SplitAtDelimiter(s, |a|);
    SplitOfPlain(b);
  }

  lemma {:induction false} StarKey(a: string)
    requires Literal(a)
    ensures var key := a + ['.'] + "*";
            Split(key) == [a, "*"] && '*' in key && ':' !in key && InKeyLanguage(key) && CompileInterest(key).Routable?
  {
    var key := a + ['.'] + "*";
    SplitOfPair(a, '.', "*");
    assert key[|a| + 1] == '*';
    assert Split(key)[..1] == [a];
    SameLanguage(key);
    forall i | 0 <= i < |key| ensures key[i] != ':' {
      if i < |a| { assert key[i] == a[i]; }
    }
  }

  /** A key and a channel it matches in different grammars: the publication is not routed. */
  lemma {:induction false} ForeignGrammarIsLost(a: string, b: string)
    requires Literal(a) && Literal(b)
    ensures var key, channel := a + ['.'] + "*", a + [':'] + b;
            CompileInterest(key).Routable? && Match(key, channel) && !Routed(CompileInterest(key).interest, channel)
  {
    StarMatches(a, ':', b);
    StarRouted(a, a + [':'] + b);
    ColonIsNotRead(a, b);
  }

  lemma {:induction false} StarMatches(a: string, d: char, b: string)
    requires Literal(a) && Literal(b) && IsDelimiter(d)
    ensures CompileInterest(a + ['.'] + "*").Routable? && Match(a + ['.'] + "*", a + [d] + b)
  {
    StarKey(a);
    SplitOfPair(a, d, b);
    assert Match(a + ['.'] + "*", a + [d] + b);
  }

  lemma {:induction false} StarRouted(a: string, channel: string)
    requires Literal(a)
    ensures CompileInterest(a + ['.'] + "*").Routable?
    ensures Routed(CompileInterest(a + ['.'] + "*").interest, channel) <==> Glob(a + ['.'] + "*", channel)
  {
    var key := a + ['.'] + "*";
    StarKey(a);
    StemOfStarKey(a);
    var _, _, _ := RoutedByPrefix(key, channel);
    assert Compile(key).value.kind.Star?;
  }

  lemma {:induction false} ColonIsNotRead(a: string, b: string)
    requires Literal(a) && b != ""
    ensures !Glob(a + ['.'] + "*", a + [':'] + b)
  {
    var q, s := a + ['.'], a + [':'] + b;
    assert '*' !in q by { assert forall i | 0 <= i < |q| :: i < |a| ==> q[i] == a[i]; }
    GlobOfPrefix(q, s);
    if Closed(q) {
      LastTok(q);
      var m := |Toks(q)| - 1;
      assert m < |a| ==> s[m] == a[m];
      assert m == |a| ==> s[m] == ':';
      assert !Fits(Toks(q)[m], s[m]);
    }
  }

  /** The stem of a dotted star key of one literal segment. */
  lemma {:induction false} StemOfStarKey(a: string)
    requires Literal(a)
    ensures CompileInterest(a + ['.'] + "*").Routable? && '*' in a + ['.'] + "*" && Stem(a + ['.'] + "*") == a + ['.']
  {
    StarKey(a);
    var prefixSegs, prefix, sep := RoutedByPrefix(a + ['.'] + "*", "");
    assert prefixSegs == [a];
  }

  /** A channel of the key's own grammar that the key matches, and what the bus does with it. */
  lemma {:induction false} LostIffNotItself(a: string, b: string)
    requires Literal(a) && Literal(b)
    ensures var key, channel := a + ['.'] + "*", a + ['.'] + b;
            CompileInterest(key).Routable? && Match(key, channel) && Unnamespaced(key) && Unnamespaced(channel) &&
            (Routed(CompileInterest(key).interest, channel) <==> Reads(a + ['.'], a + ['.']))
  {
    var key, channel := a + ['.'] + "*", a + ['.'] + b;
    StarKey(a);
    StemOfStarKey(a);
    SplitOfPair(a, '.', "*");
    SplitOfPair(a, '.', b);
    StarMatches(a, '.', b);
    OneGrammarRoutedIff(key, channel);
  }

  /**
   A key with a class or an escape in its prefix can miss channels of its own
   grammar: the bus takes "[c]" for the character c, and "\\c" too.
   */
  lemma {:induction false} BracketedKeyIsLost(c: char, b: string)
    requires Literal([c]) && Literal(b) && c !in {'[', ']', '^', '\\'}
    ensures var key, channel := ['[', c, ']'] + ['.'] + "*", ['[', c, ']'] + ['.'] + b;
            CompileInterest(key).Routable? && Match(key, channel) && !Routed(CompileInterest(key).interest, channel)
    ensures var key, channel := ['\\', c] + ['.'] + "*", ['\\', c] + ['.'] + b;
            CompileInterest(key).Routable? && Match(key, channel) && !Routed(CompileInterest(key).interest, channel)
  {
    var bracketed, escaped := ['[', c, ']'], ['\\', c];
    assert c == [c][0];
    LostIffNotItself(bracketed, b);
    LostIffNotItself(escaped, b);
    ClassOfOne(c);
    assert (bracketed + ['.'])[1..] == [c, ']', '.'];
    assert Toks(bracketed + ['.'])[0] == OneOf(false, [Range(c, c)]);
    assert Toks(escaped + ['.'])[0] == Lit(c);
  }

  lemma {:induction false} ClassOfOne(c: char)
    requires c !in {']', '\\'}
    ensures ClassOf([c, ']', '.']).ranges == [Range(c, c)]
  {
    var p := [c, ']', '.'];
    assert p[1..] == [']', '.'];
    assert ClassOf(p[1..]) == Class([], [']', '.'][1..], true);
  }
}
