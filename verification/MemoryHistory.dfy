/**
 The per-channel history ring of the memory broker
 (internal/stream/broker_memory.go: channelHistory, Publish, History).
 */
module MemoryHistory {
  import opened Options

  const DEFAULT_HISTORY_LIMIT: nat := 1000

  datatype Publication = Publication(channel: string, offset: nat, epoch: string, payload: string)

  datatype GapReason = NoGap | HeadTrimmed | EmptyExpired

  datatype Page = Page(pubs: seq<Publication>, truncated: bool, gap: bool, reason: GapReason, firstRetained: nat)

  /** Offsets are 1, 2, 3, ... without a hole. */
  predicate Dense(log: seq<Publication>) {
    forall i | 0 <= i < |log| :: log[i].offset == i + 1
  }

  /** What a channel has accepted and how many of the latest it still retains. */
  datatype Log = Log(accepted: seq<Publication>, retained: nat)

  predicate ValidLog(log: Log) {
    Dense(log.accepted) && log.retained <= |log.accepted|
  }

  const NO_LOG := Log([], 0)

  function Max(a: nat, b: nat): nat {
    if a < b then b else a
  }

  function Min(a: nat, b: nat): nat {
    if a < b then a else b
  }

  /** The oldest retained offset; one past the newest when nothing is retained. */
  function First(log: Log): nat
    requires ValidLog(log)
  {
    |log.accepted| - log.retained + 1
  }

  function EffectiveLimit(limit: int): nat {
    if limit <= 0 then DEFAULT_HISTORY_LIMIT else limit
  }

  /** The retained publications from offset since on, at most limit of them, oldest first. */
  function Slice(log: Log, since: nat, limit: nat): (pubs: seq<Publication>)
    requires ValidLog(log)
  {
    var n := |log.accepted|;
    var lo := Max(since, First(log)) - 1;
    if lo >= n then [] else log.accepted[lo..Min(lo + limit, n)]
  }

  function PageOf(log: Log, since: nat, limit: int): (page: Page)
    requires ValidLog(log)
  {
    if log.retained == 0 then
      Page([], false, since > 0, if since > 0 then EmptyExpired else NoGap, 0)
    else
      var pubs, gap := Slice(log, since, EffectiveLimit(limit)), since > 0 && First(log) > since;
      Page(pubs, |pubs| == EffectiveLimit(limit), gap, if gap then HeadTrimmed else NoGap, First(log))
  }

  /** The publication was accepted and is still there. */
  predicate Retained(log: Log, offset: nat)
    requires ValidLog(log)
  {
    First(log) <= offset <= |log.accepted|
  }

  predicate Accepted(log: Log, offset: nat) {
    1 <= offset <= |log.accepted|
  }

  /** A page holds the retained publications from since on: contiguous, none skipped, none repeated. */
  lemma PageContents(log: Log, since: nat, limit: int)
    requires ValidLog(log)
    ensures var pubs := PageOf(log, since, limit).pubs;
            (forall i | 0 <= i < |pubs| ::
               pubs[i].offset == Max(since, First(log)) + i && Retained(log, pubs[i].offset) &&
               pubs[i] == log.accepted[pubs[i].offset - 1]) &&
            |pubs| <= (if limit <= 0 then 1000 else limit) &&
            (|pubs| < (if limit <= 0 then 1000 else limit) ==>
               forall offset: nat | Retained(log, offset) && offset >= since ::
                 exists i | 0 <= i < |pubs| :: pubs[i].offset == offset)
  {
    var pubs := PageOf(log, since, limit).pubs;
    var lo := Max(since, First(log));
    forall offset: nat | Retained(log, offset) && offset >= since && |pubs| < EffectiveLimit(limit)
      ensures exists i | 0 <= i < |pubs| :: pubs[i].offset == offset
    {
      assert pubs[offset - lo].offset == offset;
    }
  }

  /**
   Gap reports are exact: from a positive offset, a page without a gap means
   every accepted publication from there on is retained, and a trimmed head
   means at least one of them was overwritten.
   */
  lemma GapReportsAreExact(log: Log, since: nat, limit: int)
    requires ValidLog(log) && since > 0 && (log.accepted != [] ==> log.retained > 0)
    ensures var page := PageOf(log, since, limit);
            (page.reason == NoGap ==> forall o: nat | Accepted(log, o) && o >= since :: Retained(log, o)) &&
            (page.reason == HeadTrimmed <==> exists o: nat :: Accepted(log, o) && o >= since && !Retained(log, o)) &&
            (page.reason == EmptyExpired <==> log.accepted == []) &&
            (page.gap <==> page.reason != NoGap)
  {
    if log.retained > 0 && First(log) > since {
      assert Accepted(log, since) && !Retained(log, since);
    }
  }

  // ---------------------------------------------------------------- the ring

  lemma WrapAround(x: nat, size: nat)
    requires 0 < size && x < 2 * size
    ensures x % size == if x < size then x else x - size
  {
    if x >= size {
      var q := x / size;
      assert x == size * q + x % size;
      assert q == 1;
    }
  }

  /** Slot of the i-th oldest entry of a ring of that size whose oldest is at head. */
  function Slot(head: nat, size: nat, i: nat): (k: nat)
    requires head < size && i <= size
    ensures k < size && k == if head + i < size then head + i else head + i - size
  {
    WrapAround(head + i, size);
    (head + i) % size
  }

  /** Moving the head on by one renumbers the slots; the old head's slot becomes the newest. */
  lemma SlotAfterOverwrite(head: nat, size: nat, i: nat)
    requires head < size && i < size
    ensures (head + 1) % size < size
    ensures if i < size - 1 then Slot((head + 1) % size, size, i) == Slot(head, size, i + 1) != head
            else Slot((head + 1) % size, size, i) == head
  {
    WrapAround(head + 1, size);
  }

  lemma SliceByElements(log: Log, since: nat, cap: nat, result: seq<Publication>, scanned: nat)
    requires ValidLog(log) && log.retained > 0 && cap > 0 && scanned <= log.retained
    requires var lo := Max(since, First(log));
             |result| == (if First(log) + scanned <= lo then 0 else First(log) + scanned - lo) &&
             forall j | 0 <= j < |result| :: result[j] == log.accepted[lo - 1 + j]
    requires (|result| == cap) || (|result| < cap && scanned == log.retained)
    ensures result == Slice(log, since, cap)
  {}

  /** The slots, read from head on, hold the last count accepted publications. */
  predicate Holds(slots: seq<Option<Publication>>, head: nat, count: nat, accepted: seq<Publication>) {
    head < |slots| && count == Min(|accepted|, |slots|) &&
    forall i | 0 <= i < count :: slots[Slot(head, |slots|, i)] == Some(accepted[|accepted| - count + i])
  }

  lemma AppendHolds(slots: seq<Option<Publication>>, head: nat, count: nat, accepted: seq<Publication>,
                    pub: Publication)
    requires Holds(slots, head, count, accepted) && count < |slots|
    ensures Holds(slots[Slot(head, |slots|, count) := Some(pub)], head, count + 1, accepted + [pub])
  {
  }

  lemma OverwriteHolds(slots: seq<Option<Publication>>, head: nat, accepted: seq<Publication>, pub: Publication)
    requires Holds(slots, head, |slots|, accepted)
    ensures Holds(slots[head := Some(pub)], (head + 1) % |slots|, |slots|, accepted + [pub])
  {
    var n := |slots|;
    var next, now, h := slots[head := Some(pub)], accepted + [pub], (head + 1) % n;
    WrapAround(head + 1, n);
    forall i | 0 <= i < n ensures next[Slot(h, n, i)] == Some(now[|now| - n + i]) {
      SlotAfterOverwrite(head, n, i);
    }
  }

  /** A fixed-capacity circular buffer that overwrites its oldest entry. */
  class ChannelHistory {
    const size: nat
    const entries: array<Option<Publication>>
    var head: nat
    var count: nat
    var nextOff: nat
    ghost var accepted: seq<Publication>

    /** The ring holds the last count accepted publications, oldest at head. */
    ghost predicate Valid()
      reads this, entries
    {
      0 < size == entries.Length && Dense(accepted) && nextOff == |accepted| &&
      Holds(entries[..], head, count, accepted)
    }

    ghost function View(): (log: Log)
      requires Valid()
      reads this, entries
      ensures ValidLog(log) && (log.accepted != [] ==> log.retained > 0)
    {
      Log(accepted, count)
    }

    constructor (capacity: nat)
      requires capacity > 0
      ensures Valid() && size == capacity && View() == NO_LOG && fresh(entries)
    {
      size := capacity;
      entries := new Option<Publication>[capacity](i => None);
      head, count, nextOff, accepted := 0, 0, 0, [];
    }

    /** Appends under the next offset; nothing but the oldest entry of a full ring is lost. */
    method Publish(channel: string, epoch: string, payload: string) returns (offset: nat)
      requires Valid()
      modifies this, entries
      ensures Valid() && offset == |old(accepted)| + 1
      ensures accepted == old(accepted) + [Publication(channel, offset, epoch, payload)]
    {
      nextOff := nextOff + 1;
      offset := nextOff;
      var stored := Publication(channel, offset, epoch, payload);
      ghost var slots := entries[..];
      var slot := Slot(head, size, count);
      if count == size {
        OverwriteHolds(slots, head, accepted, stored);
        entries[head] := Some(stored);
        assert entries[..] == slots[head := Some(stored)];
        head := (head + 1) % size;
      } else {
        AppendHolds(slots, head, count, accepted, stored);
        entries[slot] := Some(stored);
        assert entries[..] == slots[slot := Some(stored)];
        count := count + 1;
      }
      accepted := accepted + [stored];
    }

    /** The scan of the ring returns exactly the page of the accepted log. */
    method History(since: nat, limit: int) returns (page: Page)
      requires Valid()
      ensures page == PageOf(View(), since, limit)
    {
      var cap := if limit <= 0 then DEFAULT_HISTORY_LIMIT else limit;
      if count == 0 {
        return Page([], false, since > 0, if since > 0 then EmptyExpired else NoGap, 0);
      }
      assert Slot(head, size, 0) == head && entries[..][head] == entries[head];
      var firstRetained := entries[head].value.offset;
      var gap := since > 0 && firstRetained > since;
      var result: seq<Publication> := [];
      var i := 0;
      ghost var log := View();
      ghost var lo := Max(since, First(log));
      while i < count
        invariant 0 <= i <= count && |result| < cap
        invariant |result| == if First(log) + i <= lo then 0 else First(log) + i - lo
        invariant forall j | 0 <= j < |result| :: result[j] == log.accepted[lo - 1 + j]
      {
        var pub := entries[Slot(head, size, i)].value;
        assert entries[..][Slot(head, size, i)] == entries[Slot(head, size, i)];
        assert pub == log.accepted[First(log) - 1 + i] && pub.offset == First(log) + i;
        i := i + 1;
        if pub.offset < since {
          continue;
        }
        result := result + [pub];
        if |result| >= cap {
          break;
        }
      }
      SliceByElements(log, since, cap, result, i);
      return Page(result, |result| == cap, gap, if gap then HeadTrimmed else NoGap, firstRetained);
    }
  }
}
