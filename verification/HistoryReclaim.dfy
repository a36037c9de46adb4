/**
 Creating and reclaiming a channel's history in the memory broker: a publisher
 looks the history up under the broker's lock and writes to it later under the
 history's own lock (internal/stream/broker_memory.go).
 */
module HistoryReclaim {
  import opened Options
  import opened RunLemmas

  /** One assigned offset, and the history object that assigned it. */
  datatype Issue = Issue(h: nat, offset: nat)

  /**
   entry is the channel's history object in the map, offs[h] the last offset
   object h assigned. held maps a publisher to the object it looked up and has
   not written to yet; issued is history.
   */
  datatype State = State(entry: Option<nat>, offs: seq<nat>, held: map<nat, nat>, issued: seq<Issue>)

  datatype Event = LookUp(p: nat) | Write(p: nat) | LastSubscriberLeaves

  predicate Reclaims(s: State) {
    s.entry.Some? && s.entry.value < |s.offs| && s.offs[s.entry.value] == 0
  }

  function Next(s: State, e: Event): State {
    match e
    case LookUp(p) =>
      if p in s.held then s
      else if s.entry.Some? then s.(held := s.held[p := s.entry.value])
      else s.(entry := Some(|s.offs|), offs := s.offs + [0], held := s.held[p := |s.offs|])
    case Write(p) =>
      if p !in s.held || s.held[p] >= |s.offs| then s
      else
        var h := s.held[p];
        s.(offs := s.offs[h := s.offs[h] + 1], held := s.held - {p}, issued := s.issued + [Issue(h, s.offs[h] + 1)])
    case LastSubscriberLeaves => if Reclaims(s) then s.(entry := None) else s
  }

  const INIT := State(None, [], map[], [])

  function Run(es: seq<Event>): State {
    if es == [] then INIT else Next(Run(es[..|es| - 1]), es[|es| - 1])
  }

  /** How many of these offsets object h assigned. */
  function Count(issued: seq<Issue>, h: nat): nat {
    if issued == [] then 0 else Count(issued[..|issued| - 1], h) + if issued[|issued| - 1].h == h then 1 else 0
  }

  lemma {:induction false} CountSnoc(issued: seq<Issue>, i: Issue, h: nat)
    ensures Count(issued + [i], h) == Count(issued, h) + if i.h == h then 1 else 0
  {
    assert (issued + [i])[..|issued|] == issued;
  }

  /** Each object counts 1, 2, 3, ... by itself. */
  ghost predicate Counts(s: State) {
    (forall p | p in s.held :: s.held[p] < |s.offs|) && (s.entry.Some? ==> s.entry.value < |s.offs|) &&
    (forall h | 0 <= h < |s.offs| :: s.offs[h] == Count(s.issued, h)) &&
    (forall h | h >= |s.offs| :: Count(s.issued, h) == 0) &&
    (forall i | 0 <= i < |s.issued| :: s.issued[i].offset == Count(s.issued[..i], s.issued[i].h) + 1)
  }

  lemma {:induction false} NextCounts(s: State, e: Event)
    requires Counts(s)
    ensures Counts(Next(s, e))
  {
    var n := Next(s, e);
    if e.Write? && n != s {
      var last := n.issued[|s.issued|];
      forall h: nat ensures Count(n.issued, h) == Count(s.issued, h) + if last.h == h then 1 else 0 {
        CountSnoc(s.issued, last, h);
      }
      forall i | 0 <= i < |n.issued| ensures n.issued[i].offset == Count(n.issued[..i], n.issued[i].h) + 1 {
        if i < |s.issued| { assert n.issued[..i] == s.issued[..i]; } else { assert n.issued[..i] == s.issued; }
      }
    }
  }

  lemma {:induction false} RunCounts(es: seq<Event>)
    ensures Counts(Run(es))
    decreases |es|
  {
    if es != [] {
      RunCounts(es[..|es| - 1]);
      NextCounts(Run(es[..|es| - 1]), es[|es| - 1]);
    }
  }

  predicate OneObject(s: State) {
    forall i, j | 0 <= i < |s.issued| && 0 <= j < |s.issued| :: s.issued[i].h == s.issued[j].h
  }

  predicate OffsetsUnique(s: State) {
    forall i, j | 0 <= i < j < |s.issued| :: s.issued[i].offset != s.issued[j].offset
  }

  /** The first offset an object assigned, which is 1. */
  lemma {:induction false} FirstIssue(s: State, i: nat) returns (k: nat)
    requires Counts(s) && i < |s.issued|
    ensures k <= i && s.issued[k] == Issue(s.issued[i].h, 1)
    decreases i
  {
    var h := s.issued[i].h;
    if Count(s.issued[..i], h) == 0 {
      k := i;
    } else {
      var j := Earlier(s.issued[..i], h);
      k := FirstIssue(s, j);
    }
  }

  lemma {:induction false} Earlier(issued: seq<Issue>, h: nat) returns (j: nat)
    requires Count(issued, h) > 0
    ensures j < |issued| && issued[j].h == h
    decreases |issued|
  {
    if issued[|issued| - 1].h == h { j := |issued| - 1; } else { j := Earlier(issued[..|issued| - 1], h); }
  }

  lemma {:induction false} CountOfOne(issued: seq<Issue>, h: nat)
    requires forall i | 0 <= i < |issued| :: issued[i].h == h
    ensures Count(issued, h) == |issued|
    decreases |issued|
  {
    if issued != [] { CountOfOne(issued[..|issued| - 1], h); }
  }

  /** No offset of the channel is assigned twice iff a single history object assigned all of them. */
  lemma {:induction false} UniqueIffOneObject(es: seq<Event>)
    ensures OffsetsUnique(Run(es)) <==> OneObject(Run(es))
  {
    RunCounts(es);
    var s := Run(es);
    if OneObject(s) {
      forall i | 0 <= i < |s.issued| ensures s.issued[i].offset == i + 1 {
        CountOfOne(s.issued[..i], s.issued[i].h);
      }
    } else {
      var i, j :| 0 <= i < |s.issued| && 0 <= j < |s.issued| && s.issued[i].h != s.issued[j].h;
      var a := FirstIssue(s, i);
      var b := FirstIssue(s, j);
      assert a != b && s.issued[a].offset == s.issued[b].offset;
    }
  }

  /** A write by p goes to the object that assigned the first offset, if any was assigned. */
  predicate SameObject(s: State, e: Event) {
    e.Write? && e.p in s.held ==> s.issued == [] || s.issued[0].h == s.held[e.p]
  }

  lemma {:induction false} StepIsUniqueIff(es: seq<Event>, e: Event)
    ensures OffsetsUnique(Next(Run(es), e)) <==> OffsetsUnique(Run(es)) && SameObject(Run(es), e)
  {
    var s, n := Run(es), Next(Run(es), e);
    RunCounts(es);
    RunSnoc(es, e);
    UniqueIffOneObject(es);
    UniqueIffOneObject(es + [e]);
    if e.Write? && e.p in s.held {
      assert n.issued[..|s.issued|] == s.issued && n.issued[|s.issued|].h == s.held[e.p];
      if OneObject(n) {
        assert forall i | 0 <= i < |s.issued| :: n.issued[i] == s.issued[i];
      }
    } else {
      assert n.issued == s.issued;
    }
  }

  /**
   Checked before each write: over a whole run no offset is assigned twice iff
   every write goes to the object that assigned the first.
   */
  lemma {:induction false} UniqueIffSameObject(es: seq<Event>)
    ensures OffsetsUnique(Run(es)) <==> forall k: nat | k < |es| :: !OtherObjectAt(es)(k)
  {
    var unique := (k: nat) => k <= |es| && OffsetsUnique(Run(es[..k]));
    forall k: nat | 0 <= k < |es| ensures unique(k + 1) <==> unique(k) && !OtherObjectAt(es)(k) {
      StepIsUniqueIff(es[..k], es[k]);
      assert es[..k + 1] == es[..k] + [es[k]];
      RunSnoc(es[..k], es[k]);
    }
    KeptIff(unique, OtherObjectAt(es), 0, |es|);
    assert es[..|es|] == es;
  }

  function OtherObjectAt(es: seq<Event>): nat -> bool {
    (k: nat) => k < |es| && !SameObject(Run(es[..k]), es[k])
  }

  // --------------------------------------------------- when it is guaranteed

  /** Whenever the history is reclaimed, no publisher is between looking it up and writing. */
  ghost predicate NoReclaimUnderPublisher(es: seq<Event>) {
    forall k | 0 <= k < |es| && es[k] == LastSubscriberLeaves && Reclaims(Run(es[..k])) ::
      forall p | p in Run(es[..k]).held :: Run(es[..k]).held[p] != Run(es[..k]).entry.value
  }

  /** Then only the object in the map is ever held or written. */
  ghost predicate OnlyEntry(s: State) {
    (forall p | p in s.held :: s.entry == Some(s.held[p])) &&
    (forall i | 0 <= i < |s.issued| :: s.entry == Some(s.issued[i].h))
  }

  lemma {:induction false} RunOnlyEntry(es: seq<Event>)
    requires NoReclaimUnderPublisher(es)
    ensures OnlyEntry(Run(es))
    decreases |es|
  {
    if es != [] {
      var n := |es| - 1;
      var s := Run(es[..n]);
      assert forall k | 0 <= k < n :: es[..n][..k] == es[..k];
      RunOnlyEntry(es[..n]);
      RunCounts(es[..n]);
      if es[n] == LastSubscriberLeaves && Reclaims(s) {
        if s.issued != [] {
          assert s.issued[0].h == s.entry.value;
          NonZero(s.issued, 0);
        }
      }
    }
  }

  lemma {:induction false} NonZero(issued: seq<Issue>, i: nat)
    requires i < |issued|
    ensures Count(issued, issued[i].h) > 0
    decreases |issued|
  {
    if i < |issued| - 1 { NonZero(issued[..|issued| - 1], i); }
  }

  /** So the channel's offsets are 1, 2, 3, ... in the order they are assigned. */
  lemma {:induction false} OffsetsCountUp(es: seq<Event>, i: nat)
    requires NoReclaimUnderPublisher(es) && i < |Run(es).issued|
    ensures Run(es).issued[i].offset == i + 1
  {
    RunOnlyEntry(es);
    RunCounts(es);
    var s := Run(es);
    CountOfOne(s.issued[..i], s.issued[i].h);
  }

  lemma {:induction false} RunSnoc(es: seq<Event>, e: Event)
    ensures Run(es + [e]) == Next(Run(es), e)
  {
    assert (es + [e])[..|es|] == es;
  }

  /** A publisher overtaken by a reclaim writes to an object nobody can read, and offset 1 is assigned again. */
  lemma {:induction false} OvertakenPublisherRepeatsAnOffset(p: nat, q: nat) returns (es: seq<Event>)
    ensures Run(es).issued == [Issue(0, 1), Issue(1, 1)] && Run(es).entry == Some(1)
  {
    es := [];
    RunSnoc(es, LookUp(p));
    es := es + [LookUp(p)];
    assert Run(es) == State(Some(0), [0], map[p := 0], []);
    RunSnoc(es, LastSubscriberLeaves);
    es := es + [LastSubscriberLeaves];
    assert Run(es) == State(None, [0], map[p := 0], []);
    RunSnoc(es, Write(p));
    es := es + [Write(p)];
    assert Run(es) == State(None, [1], map[], [Issue(0, 1)]);
    RunSnoc(es, LookUp(q));
    es := es + [LookUp(q)];
    assert Run(es) == State(Some(1), [1, 0], map[q := 1], [Issue(0, 1)]);
    RunSnoc(es, Write(q));
    es := es + [Write(q)];
  }
}
