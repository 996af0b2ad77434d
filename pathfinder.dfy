/** Path selection for multi-hop transfers (ABM_simulation/pathfinder.py). The trust
    graph has an edge from each truster to each human it trusts, and a candidate path
    follows those edges from the receiver to the sender. A hop i -> i+1 is walked as a
    payment from path[i] to path[i+1], so value moves from the receiver's end towards the
    sender's; it can carry at most the trust that path[i+1] extends to path[i] -- the
    reverse of the edge the path followed -- and at most path[i]'s balance of its own
    token. */
module PathFinder {
  import opened Types
  import Hub
  import opened Holdings

  type Path = seq<Id>

  /** The cutoff of the path enumeration: at most this many edges. */
  const MAX_DEPTH: nat := 5

  function Min(x: int, y: int): int
  {
    if x <= y then x else y
  }

  /** find_transfer_paths, as a property of its output: every listed path is a simple
      path of the trust graph from `target` to `source` with at most MAX_DEPTH edges,
      every such path is listed, and none twice. The enumeration itself is a library call
      and the list is an input here. */
  ghost predicate TransferPaths(edges: set<(Id, Id)>, source: Id, target: Id, paths: seq<Path>)
  {
    && (forall i :: 0 <= i < |paths| ==> SimplePathBetween(edges, target, source, paths[i]))
    && (forall p :: SimplePathBetween(edges, target, source, p) ==> p in paths)
    && (forall i, j :: 0 <= i < j < |paths| ==> paths[i] != paths[j])
  }

  ghost predicate SimplePathBetween(edges: set<(Id, Id)>, from: Id, to: Id, p: Path)
  {
    && 2 <= |p| <= MAX_DEPTH + 1
    && p[0] == from && p[|p| - 1] == to
    && (forall i :: 0 <= i < |p| - 1 ==> (p[i], p[i + 1]) in edges)
    && (forall i, j :: 0 <= i < j < |p| ==> p[i] != p[j])
  }

  /** What hop i of `path` can carry: min(trust path[i+1] -> path[i], path[i]'s own balance). */
  function HopCapacity(b: Hub.Balances, trusts: map<Id, map<Id, Hub.Trust>>, path: Path, i: nat): (c: int)
    requires i + 1 < |path|
    ensures c <= TrustAmount(trusts, path[i + 1], path[i])
    ensures c <= CurrencyBalance(b, path[i], path[i])
    ensures c == TrustAmount(trusts, path[i + 1], path[i]) || c == CurrencyBalance(b, path[i], path[i])
  {
    Min(TrustAmount(trusts, path[i + 1], path[i]), CurrencyBalance(b, path[i], path[i]))
  }

  /** The capacities of the hops of a path, in path order. */
  function HopCapacities(b: Hub.Balances, trusts: map<Id, map<Id, Hub.Trust>>, path: Path): (caps: seq<int>)
    ensures |caps| == if |path| <= 1 then 0 else |path| - 1
    ensures forall i :: 0 <= i < |caps| ==> caps[i] == HopCapacity(b, trusts, path, i)
  {
    if |path| <= 1 then [] else seq(|path| - 1, i requires 0 <= i < |path| - 1 => HopCapacity(b, trusts, path, i))
  }

  /** The running minimum of get_max_transfer_amount. It starts at `amount` and stops at
      the first hop whose capacity is below `amount`, so it is either `amount` (every
      hop can carry it) or the capacity of that first short hop. */
  function Bottleneck(caps: seq<int>, amount: int): (m: int)
    ensures m <= amount
  {
    if |caps| == 0 then amount
    else if caps[0] < amount then caps[0]
    else Bottleneck(caps[1..], amount)
  }

  /** The bottleneck is `amount` exactly when every hop can carry it, and otherwise the
      capacity of the first hop that cannot. */
  lemma {:induction false} BottleneckCharacterized(caps: seq<int>, amount: int)
    ensures var m := Bottleneck(caps, amount);
      && (m == amount <==> forall i :: 0 <= i < |caps| ==> caps[i] >= amount)
      && (m < amount ==> exists k :: 0 <= k < |caps| && caps[k] == m && forall j :: 0 <= j < k ==> caps[j] >= amount)
  {
    if |caps| > 0 && caps[0] >= amount {
      BottleneckCharacterized(caps[1..], amount);
      var m := Bottleneck(caps[1..], amount);
      assert forall i :: 1 <= i < |caps| ==> caps[i] == caps[1..][i - 1];
      if m < amount {
        var k :| 0 <= k < |caps[1..]| && caps[1..][k] == m && forall j :: 0 <= j < k ==> caps[1..][j] >= amount;
        assert caps[k + 1] == m;
        assert forall j :: 0 <= j < k + 1 ==> caps[j] >= amount by {
          forall j | 0 <= j < k + 1 ensures caps[j] >= amount {
            if j > 0 { assert caps[j] == caps[1..][j - 1]; }
          }
        }
      }
    }
  }

  /** One step of the running minimum from hop i. */
  lemma BottleneckFrom(caps: seq<int>, i: nat, amount: int)
    requires i < |caps|
    ensures Bottleneck(caps[i..], amount) == if caps[i] < amount then caps[i] else Bottleneck(caps[i + 1..], amount)
  {
    assert caps[i..][0] == caps[i] && caps[i..][1..] == caps[i + 1..];
  }

  /** get_max_transfer_amount, as a value. */
  function MaxTransferAmount(b: Hub.Balances, trusts: map<Id, map<Id, Hub.Trust>>, path: Path, amount: int): int
  {
    Bottleneck(HopCapacities(b, trusts, path), amount)
  }

  /** What the source promises of get_max_transfer_amount: never more than `amount`, and
      exactly `amount` when every hop can carry it (in particular for a path of at most
      one node). */
  lemma MaxTransferAmountBounds(b: Hub.Balances, trusts: map<Id, map<Id, Hub.Trust>>, path: Path, amount: int)
    ensures var m := MaxTransferAmount(b, trusts, path, amount);
      && m <= amount
      && (|path| <= 1 ==> m == amount)
      && (m == amount <==> forall i :: 0 <= i < |path| - 1 ==> HopCapacity(b, trusts, path, i) >= amount)
  {
    var caps := HopCapacities(b, trusts, path);
    BottleneckCharacterized(caps, amount);
  }

  /** Otherwise the result is the capacity of the first hop that cannot carry `amount`,
      so it is no more than the capacity -- the trust and the balance -- of that hop and
      of every hop visited before it. */
  lemma MaxTransferAmountStopsAtShortHop(b: Hub.Balances, trusts: map<Id, map<Id, Hub.Trust>>, path: Path, amount: int)
    ensures var m := MaxTransferAmount(b, trusts, path, amount);
      m < amount ==>
        exists k :: 0 <= k < |path| - 1 && m == HopCapacity(b, trusts, path, k) &&
          forall j :: 0 <= j <= k ==> m <= HopCapacity(b, trusts, path, j)
  {
    var caps := HopCapacities(b, trusts, path);
    var m := Bottleneck(caps, amount);
    BottleneckCharacterized(caps, amount);
    if m < amount {
      var k :| 0 <= k < |caps| && caps[k] == m && forall j :: 0 <= j < k ==> caps[j] >= amount;
      assert forall j :: 0 <= j <= k ==> m <= caps[j];
    }
  }

  /** The enumerated edge of hop i is a trust line from path[i] to path[i+1], but the
      hop is bounded by the reverse line. Where that reverse line is missing the hop
      carries nothing, so a path with a one-way hop never carries a positive amount in
      full: only mutual trust lets value through. */
  lemma OneWayHopCannotCarry(b: Hub.Balances, trusts: map<Id, map<Id, Hub.Trust>>, path: Path, i: nat, amount: int)
    requires 0 < amount && i + 1 < |path|
    requires !(path[i + 1] in trusts && path[i] in trusts[path[i + 1]])
    ensures HopCapacity(b, trusts, path, i) <= 0
    ensures MaxTransferAmount(b, trusts, path, amount) < amount
  {
    MaxTransferAmountBounds(b, trusts, path, amount);
  }

  /** get_max_transfer_amount: the loop of the source, stopping at the first hop whose
      running minimum drops below `amount`. */
  method GetMaxTransferAmount(b: Hub.Balances, trusts: map<Id, map<Id, Hub.Trust>>, path: Path, amount: int) returns (maxAmount: int)
    ensures maxAmount == MaxTransferAmount(b, trusts, path, amount)
  {
    ghost var caps := HopCapacities(b, trusts, path);
    maxAmount := amount;
    var i := 0;
    while i < |path| - 1
      invariant 0 <= i <= |caps|
      invariant maxAmount == amount
      invariant Bottleneck(caps[i..], amount) == Bottleneck(caps, amount)
    {
      var trustee, truster := path[i], path[i + 1];
      var trustAmount := TrustAmount(trusts, truster, trustee);
      var balance := CurrencyBalance(b, trustee, trustee);
      maxAmount := Min(Min(maxAmount, trustAmount), balance);
      BottleneckFrom(caps, i, amount);
      if maxAmount < amount {
        return;
      }
      i := i + 1;
    }
  }

  /** The choice made so far: the optimal path, if any, and its capacity. */
  datatype Choice = Choice(path: Option<Path>, maxTransferable: int)

  /** One iteration of find_optimal_transfer_path: take the path if it is sufficient and
      shorter than the current choice (or there is none), or else if its capacity is
      strictly larger than the current one. */
  function Step(c: Choice, path: Path, pathMax: int, amount: int): Choice
  {
    if pathMax >= amount && (c.path.None? || |path| < |c.path.value|) then Choice(Some(path), pathMax)
    else if pathMax > c.maxTransferable then Choice(Some(path), pathMax)
    else c
  }

  /** The choice after visiting the first n candidates in order, `caps[i]` being the
      capacity of `paths[i]`. */
  function Selection(paths: seq<Path>, caps: seq<int>, amount: int, n: nat): Choice
    requires |caps| == |paths| && n <= |paths|
  {
    if n == 0 then Choice(None, 0)
    else Step(Selection(paths, caps, amount, n - 1), paths[n - 1], caps[n - 1], amount)
  }

  /** The capacity of every candidate. */
  function PathCapacities(b: Hub.Balances, trusts: map<Id, map<Id, Hub.Trust>>, paths: seq<Path>, amount: int): (caps: seq<int>)
    ensures |caps| == |paths|
    ensures forall i :: 0 <= i < |caps| ==> caps[i] == MaxTransferAmount(b, trusts, paths[i], amount)
  {
    seq(|paths|, i requires 0 <= i < |paths| => MaxTransferAmount(b, trusts, paths[i], amount))
  }

  /** find_optimal_transfer_path, as a value. */
  function OptimalTransferPath(b: Hub.Balances, trusts: map<Id, map<Id, Hub.Trust>>, paths: seq<Path>, amount: int): Choice
  {
    var caps := PathCapacities(b, trusts, paths, amount);
    Selection(paths, caps, amount, |paths|)
  }

  /** Among the first n candidates, k is sufficient, no sufficient one is shorter, and
      every earlier sufficient one is longer. */
  ghost predicate ShortestSufficient(paths: seq<Path>, caps: seq<int>, amount: int, n: nat, k: int)
    requires |caps| == |paths| && n <= |paths|
  {
    && 0 <= k < n && caps[k] >= amount
    && (forall j :: 0 <= j < n && caps[j] >= amount ==> |paths[k]| <= |paths[j]|)
    && (forall j :: 0 <= j < k && caps[j] >= amount ==> |paths[k]| < |paths[j]|)
  }

  /** Among the first n candidates, k has the largest capacity, and every earlier one a
      strictly smaller one. */
  ghost predicate FirstLargest(caps: seq<int>, n: nat, k: int)
    requires n <= |caps|
  {
    && 0 <= k < n
    && (forall j :: 0 <= j < n ==> caps[j] <= caps[k])
    && (forall j :: 0 <= j < k ==> caps[j] < caps[k])
  }

  ghost predicate SomeSufficient(caps: seq<int>, amount: int, n: nat)
    requires n <= |caps|
  {
    exists i :: 0 <= i < n && caps[i] >= amount
  }

  ghost predicate SomePositive(caps: seq<int>, n: nat)
    requires n <= |caps|
  {
    exists i :: 0 <= i < n && caps[i] > 0
  }

  /** The three outcomes of the selection among the first n candidates: the earliest of
      the shortest sufficient candidates; failing one, the first of largest positive
      capacity; failing that, no path and 0. In each, the reported capacity is the chosen
      candidate's. */
  ghost predicate Characterized(paths: seq<Path>, caps: seq<int>, amount: int, n: nat, c: Choice)
    requires |caps| == |paths| && n <= |paths|
  {
    && (SomeSufficient(caps, amount, n) ==>
          exists k :: ShortestSufficient(paths, caps, amount, n, k) && c == Choice(Some(paths[k]), caps[k]))
    && (!SomeSufficient(caps, amount, n) && SomePositive(caps, n) ==>
          exists k :: FirstLargest(caps, n, k) && caps[k] > 0 && c == Choice(Some(paths[k]), caps[k]))
    && (!SomeSufficient(caps, amount, n) && !SomePositive(caps, n) ==> c == Choice(None, 0))
  }

  /** Once a sufficient candidate is chosen, a later one replaces it only when shorter. */
  lemma StepAfterSufficient(paths: seq<Path>, caps: seq<int>, amount: int, n: nat)
    requires |caps| == |paths| && 0 < n <= |paths|
    requires caps[n - 1] <= amount
    requires SomeSufficient(caps, amount, n - 1)
    requires Characterized(paths, caps, amount, n - 1, Selection(paths, caps, amount, n - 1))
    ensures Characterized(paths, caps, amount, n, Selection(paths, caps, amount, n))
  {
    var k :| ShortestSufficient(paths, caps, amount, n - 1, k) && Selection(paths, caps, amount, n - 1) == Choice(Some(paths[k]), caps[k]);
    assert SomeSufficient(caps, amount, n) by { assert caps[k] >= amount; }
    if caps[n - 1] >= amount && |paths[n - 1]| < |paths[k]| {
      assert ShortestSufficient(paths, caps, amount, n, n - 1);
    } else {
      assert ShortestSufficient(paths, caps, amount, n, k);
    }
  }

  /** Before any sufficient candidate, the first sufficient one is always taken, and a
      partial one only when strictly larger. */
  lemma StepAfterLargest(paths: seq<Path>, caps: seq<int>, amount: int, n: nat)
    requires |caps| == |paths| && 0 < n <= |paths|
    requires caps[n - 1] <= amount
    requires !SomeSufficient(caps, amount, n - 1) && SomePositive(caps, n - 1)
    requires Characterized(paths, caps, amount, n - 1, Selection(paths, caps, amount, n - 1))
    ensures Characterized(paths, caps, amount, n, Selection(paths, caps, amount, n))
  {
    var k :| FirstLargest(caps, n - 1, k) && caps[k] > 0 && Selection(paths, caps, amount, n - 1) == Choice(Some(paths[k]), caps[k]);
    assert SomePositive(caps, n) by { assert caps[k] > 0; }
    if caps[n - 1] >= amount {
      assert ShortestSufficient(paths, caps, amount, n, n - 1);
    } else if caps[n - 1] > caps[k] {
      assert FirstLargest(caps, n, n - 1);
    } else {
      assert FirstLargest(caps, n, k);
    }
  }

  /** With nothing chosen, a sufficient candidate or a positive one is taken. */
  lemma StepAfterNone(paths: seq<Path>, caps: seq<int>, amount: int, n: nat)
    requires |caps| == |paths| && 0 < n <= |paths|
    requires caps[n - 1] <= amount
    requires !SomeSufficient(caps, amount, n - 1) && !SomePositive(caps, n - 1)
    requires Characterized(paths, caps, amount, n - 1, Selection(paths, caps, amount, n - 1))
    ensures Characterized(paths, caps, amount, n, Selection(paths, caps, amount, n))
  {
    if caps[n - 1] >= amount {
      assert ShortestSufficient(paths, caps, amount, n, n - 1);
    } else if caps[n - 1] > 0 {
      assert FirstLargest(caps, n, n - 1);
    } else {
      assert !SomePositive(caps, n);
    }
  }

  /** The selection rule, proved for any capacities no larger than `amount` (which
      get_max_transfer_amount guarantees). */
  lemma {:induction false} SelectionCharacterized(paths: seq<Path>, caps: seq<int>, amount: int, n: nat)
    requires |caps| == |paths| && n <= |paths|
    requires forall i :: 0 <= i < |caps| ==> caps[i] <= amount
    ensures Characterized(paths, caps, amount, n, Selection(paths, caps, amount, n))
  {
    if n == 0 {
      return;
    }
    SelectionCharacterized(paths, caps, amount, n - 1);
    if SomeSufficient(caps, amount, n - 1) {
      StepAfterSufficient(paths, caps, amount, n);
    } else if SomePositive(caps, n - 1) {
      StepAfterLargest(paths, caps, amount, n);
    } else {
      StepAfterNone(paths, caps, amount, n);
    }
  }

  /** find_optimal_transfer_path picks by that rule among the real capacities, and the
      reported capacity is get_max_transfer_amount of the chosen path. */
  lemma OptimalTransferPathCharacterized(b: Hub.Balances, trusts: map<Id, map<Id, Hub.Trust>>, paths: seq<Path>, amount: int)
    ensures Characterized(paths, PathCapacities(b, trusts, paths, amount), amount, |paths|, OptimalTransferPath(b, trusts, paths, amount))
    ensures var c := OptimalTransferPath(b, trusts, paths, amount);
      c.path.Some? ==> c.maxTransferable == MaxTransferAmount(b, trusts, c.path.value, amount)
  {
    var caps := PathCapacities(b, trusts, paths, amount);
    forall i | 0 <= i < |caps| ensures caps[i] <= amount {
      MaxTransferAmountBounds(b, trusts, paths[i], amount);
    }
    SelectionCharacterized(paths, caps, amount, |paths|);
  }

  /** Whatever is chosen from the enumerated candidates runs from the receiver to the
      sender along trust edges. */
  lemma ChosenPathRunsFromTarget(edges: set<(Id, Id)>, source: Id, target: Id, b: Hub.Balances, trusts: map<Id, map<Id, Hub.Trust>>, paths: seq<Path>, amount: int)
    requires TransferPaths(edges, source, target, paths)
    ensures var c := OptimalTransferPath(b, trusts, paths, amount);
      c.path.Some? ==> SimplePathBetween(edges, target, source, c.path.value)
  {
    OptimalTransferPathCharacterized(b, trusts, paths, amount);
  }

  /** The choice after the first n of the real candidates' capacities. */
  function SelectionOf(b: Hub.Balances, trusts: map<Id, map<Id, Hub.Trust>>, paths: seq<Path>, amount: int, n: nat): Choice
    requires n <= |paths|
  {
    Selection(paths, PathCapacities(b, trusts, paths, amount), amount, n)
  }

  /** Visiting candidate n takes one Step with its own capacity. */
  lemma SelectionOfNext(b: Hub.Balances, trusts: map<Id, map<Id, Hub.Trust>>, paths: seq<Path>, amount: int, n: nat)
    requires n < |paths|
    ensures SelectionOf(b, trusts, paths, amount, n + 1) ==
      Step(SelectionOf(b, trusts, paths, amount, n), paths[n], MaxTransferAmount(b, trusts, paths[n], amount), amount)
    ensures SelectionOf(b, trusts, paths, amount, |paths|) == OptimalTransferPath(b, trusts, paths, amount)
  {
  }

  /** The comparison in the body of find_optimal_transfer_path's loop. */
  method ChoosePath(optimalPath: Option<Path>, maxTransferable: int, path: Path, pathMax: int, amount: int)
    returns (optimalPath': Option<Path>, maxTransferable': int)
    ensures Choice(optimalPath', maxTransferable') == Step(Choice(optimalPath, maxTransferable), path, pathMax, amount)
  {
    optimalPath', maxTransferable' := optimalPath, maxTransferable;
    if pathMax >= amount && (optimalPath.None? || |path| < |optimalPath.value|) {
      optimalPath', maxTransferable' := Some(path), pathMax;
    } else if pathMax > maxTransferable {
      optimalPath', maxTransferable' := Some(path), pathMax;
    }
  }

  /** find_optimal_transfer_path: the loop of the source over the candidates. */
  method FindOptimalTransferPath(b: Hub.Balances, trusts: map<Id, map<Id, Hub.Trust>>, paths: seq<Path>, amount: int)
    returns (optimalPath: Option<Path>, maxTransferable: int)
    ensures Choice(optimalPath, maxTransferable) == OptimalTransferPath(b, trusts, paths, amount)
  {
    optimalPath, maxTransferable := None, 0;
    for i := 0 to |paths|
      invariant Choice(optimalPath, maxTransferable) == SelectionOf(b, trusts, paths, amount, i)
    {
      var path := paths[i];
      var pathMax := GetMaxTransferAmount(b, trusts, path, amount);
      SelectionOfNext(b, trusts, paths, amount, i);
      optimalPath, maxTransferable := ChoosePath(optimalPath, maxTransferable, path, pathMax, amount);
    }
  }
}
