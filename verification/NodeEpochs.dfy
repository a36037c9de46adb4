/** Process generations of a node and their incarnation strings (internal/cluster/epoch.go). */
module NodeEpochs {
  import opened Options
  import opened Decimals

  function FormatNodeEpoch(epoch: nat): string {
    Format(epoch)
  }

  function ParseNodeEpoch(incarnation: string): (r: Option<nat>) {
    if incarnation == "" then None else
    var epoch := ParseUint(incarnation);
    if epoch.None? || epoch.value == 0 then None
    else if FormatNodeEpoch(epoch.value) != incarnation then None
    else epoch
  }

  /** a is a strictly newer generation than b; strings that are not epochs never are. */
  predicate NodeEpochNewer(a: string, b: string) {
    var ea, eb := ParseNodeEpoch(a), ParseNodeEpoch(b);
    ea.Some? && eb.Some? && ea.value > eb.value
  }

  /** The accepted strings are the digit strings without leading zero that fit 64 bits. */
  lemma ParseAcceptsPrintedEpochs(s: string)
    ensures ParseNodeEpoch(s).Some? <==> s != "" && AllDigits(s) && s[0] != '0' && Value(s) < TWO64
    ensures ParseNodeEpoch(s).Some? <==> exists e :: 0 < e < TWO64 && s == FormatNodeEpoch(e)
  {
    if s != "" && AllDigits(s) && s[0] != '0' {
      FormatOfValue(s);
    }
    if ParseNodeEpoch(s).Some? {
      ValueOfFormat(ParseNodeEpoch(s).value);
    }
    forall e | 0 < e < TWO64 && s == FormatNodeEpoch(e) ensures ParseNodeEpoch(s) == Some(e) {
      ParseOfFormat(e);
      ValueOfFormat(e);
    }
  }

  /** Newer exactly when both are printed epochs and the first is the larger. */
  lemma {:induction false} NewerIff(a: string, b: string)
    ensures NodeEpochNewer(a, b) <==>
            exists x, y :: 0 < y < x < TWO64 && a == FormatNodeEpoch(x) && b == FormatNodeEpoch(y)
  {
    ParseAcceptsPrintedEpochs(a);
    ParseAcceptsPrintedEpochs(b);
    if NodeEpochNewer(a, b) {
      var x, y := ParseNodeEpoch(a).value, ParseNodeEpoch(b).value;
      assert a == FormatNodeEpoch(x) && b == FormatNodeEpoch(y);
      ValueOfFormat(x);
    }
    forall x, y | 0 < y < x < TWO64 && a == FormatNodeEpoch(x) && b == FormatNodeEpoch(y)
      ensures NodeEpochNewer(a, b)
    {
      ParseOfFormat(x);
      ParseOfFormat(y);
      ValueOfFormat(x);
      ValueOfFormat(y);
    }
  }

  /** How many of the first k allocations were for node. */
  function Count(issued: seq<string>, node: string): nat {
    if issued == [] then 0 else
    Count(issued[..|issued| - 1], node) + if issued[|issued| - 1] == node then 1 else 0
  }

  /** The epoch the k-th allocation returned. */
  function EpochOf(issued: seq<string>, k: nat): nat
    requires k < |issued|
  {
    Count(issued[..k + 1], issued[k])
  }

  lemma CountSnoc(issued: seq<string>, node: string, x: string)
    ensures Count(issued + [node], x) == Count(issued, x) + if x == node then 1 else 0
  {
    assert (issued + [node])[..|issued|] == issued;
  }

  lemma NextMod(n: nat)
    ensures (n % TWO64 + 1) % TWO64 == (n + 1) % TWO64
  {
  }

  /** The process-local allocator: one 64-bit counter per node. */
  class MemoryNodeEpochAllocator {
    var epochs: map<string, nat>
    ghost var issued: seq<string>

    ghost predicate Valid()
      reads this
    {
      (forall node :: Count(issued, node) % TWO64 == if node in epochs then epochs[node] else 0) &&
      "" !in issued
    }

    constructor ()
      ensures Valid() && issued == []
    {
      epochs, issued := map[], [];
    }

    method NextNodeEpoch(node: string) returns (epoch: Option<nat>)
      requires Valid()
      modifies this
      ensures Valid()
      ensures epoch.Some? <==> node != ""
      ensures issued == if node != "" then old(issued) + [node] else old(issued)
      ensures node != "" ==> epoch.value == EpochOf(issued, |issued| - 1) % TWO64
    {
      if node == "" {
        return None;
      }
      var next := ((if node in epochs then epochs[node] else 0) + 1) % TWO64;
      epochs := epochs[node := next];
      issued := issued + [node];
      forall x ensures Count(issued, x) == Count(old(issued), x) + if x == node then 1 else 0 {
        CountSnoc(old(issued), node, x);
      }
      NextMod(Count(old(issued), node));
      assert issued[..|issued|] == issued;
      return Some(next);
    }
  }

  lemma {:induction false} CountMonotone(issued: seq<string>, i: nat, j: nat, node: string)
    requires i <= j <= |issued|
    ensures Count(issued[..i], node) <= Count(issued[..j], node) <= j
    ensures i < j && issued[j - 1] == node ==> Count(issued[..i], node) < Count(issued[..j], node)
  {
    if j > 0 {
      assert issued[..j][..j - 1] == issued[..j - 1];
      if i < j {
        CountMonotone(issued, i, j - 1, node);
      } else {
        CountMonotone(issued, j - 1, j - 1, node);
      }
    }
  }

  /**
   Of two generations allocated for one node, in any interleaving with other
   nodes, the later is the newer and never the other way round.
   */
  lemma NewerIsLater(issued: seq<string>, i: nat, j: nat)
    requires i < j < |issued| < TWO64 && issued[i] == issued[j]
    ensures var a, b := FormatNodeEpoch(EpochOf(issued, i)), FormatNodeEpoch(EpochOf(issued, j));
            NodeEpochNewer(b, a) && !NodeEpochNewer(a, b)
  {
    CountMonotone(issued, i, i + 1, issued[i]);
    CountMonotone(issued, i + 1, j + 1, issued[i]);
    var ei, ej := EpochOf(issued, i), EpochOf(issued, j);
    ParseOfFormat(ei);
    ParseOfFormat(ej);
    ValueOfFormat(ei);
    ValueOfFormat(ej);
  }
}
