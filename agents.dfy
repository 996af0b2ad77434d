/** The ledger side of the simulation's hub agent (ABM_simulation/agents.py): id
    allocation, mint counters, the multi-hop transfer along a chosen path, the
    transaction log and the totals read from it. */
module Agents {
  import opened Types
  import opened TimeSeries
  import opened Demurrage
  import opened Ledger = Hub
  import opened Holdings
  import opened PathFinder

  /** One entry of the transaction log, filed under its sender. */
  datatype Transaction = Transaction(to: Id, amount: int, time: int)

  type Log = map<Id, seq<Transaction>>

  /** record_transaction: append one entry to the sender's list, creating the list. */
  function Recorded(log: Log, fromId: Id, toId: Id, amount: int, time: int): (log': Log)
    ensures fromId in log' && |log'[fromId]| == (if fromId in log then |log[fromId]| else 0) + 1
    ensures log'[fromId][|log'[fromId]| - 1] == Transaction(toId, amount, time)
    ensures fromId in log ==> log'[fromId][..|log[fromId]|] == log[fromId]
    ensures forall h :: h != fromId ==> (h in log' <==> h in log)
    ensures forall h :: h != fromId && h in log ==> log'[h] == log[h]
  {
    var entries := if fromId in log then log[fromId] else [];
    log[fromId := entries + [Transaction(toId, amount, time)]]
  }

  /** The sum of the amounts of a list of transactions. */
  function AmountSum(txs: seq<Transaction>): int
  {
    if |txs| == 0 then 0 else AmountSum(txs[..|txs| - 1]) + txs[|txs| - 1].amount
  }

  ghost function Counts(log: Log): map<Id, int>
  {
    map h | h in log :: |log[h]|
  }

  ghost function Volumes(log: Log): map<Id, int>
  {
    map h | h in log :: AmountSum(log[h])
  }

  /** get_total_transactions: the number of entries across all senders. */
  ghost function TotalTransactions(log: Log): (n: int)
    ensures n >= 0
  {
    SumValuesNonNegative(Counts(log));
    SumValues(Counts(log))
  }

  /** get_total_transaction_volume: the sum of all amounts across all senders. */
  ghost function TotalTransactionVolume(log: Log): int
  {
    SumValues(Volumes(log))
  }

  /** Recording one transaction adds one entry to the count. */
  lemma RecordedCount(log: Log, fromId: Id, toId: Id, amount: int, time: int)
    ensures TotalTransactions(Recorded(log, fromId, toId, amount, time)) == TotalTransactions(log) + 1
  {
    var log' := Recorded(log, fromId, toId, amount, time);
    var n := if fromId in log then |log[fromId]| else 0;
    var counts' := Counts(log)[fromId := n + 1];
    assert Counts(log').Keys == counts'.Keys;
    assert Counts(log') == counts';
    SumValuesUpdate(Counts(log), fromId, n + 1);
  }

  /** Recording one transaction adds its amount to the volume. */
  lemma RecordedVolume(log: Log, fromId: Id, toId: Id, amount: int, time: int)
    ensures TotalTransactionVolume(Recorded(log, fromId, toId, amount, time)) == TotalTransactionVolume(log) + amount
  {
    var log' := Recorded(log, fromId, toId, amount, time);
    var entries := if fromId in log then log[fromId] else [];
    assert log'[fromId][..|entries|] == entries;
    var volumes' := Volumes(log)[fromId := AmountSum(entries) + amount];
    assert Volumes(log').Keys == volumes'.Keys;
    assert Volumes(log') == volumes';
    SumValuesUpdate(Volumes(log), fromId, AmountSum(entries) + amount);
  }

  /** get_total_supply: the sum over issuers of each one's latest supply; an issuer
      without a supply entry makes max() raise. */
  ghost function TotalSupply(supply: map<Id, Series>): (r: Result<int>)
    ensures r.Err? <==> exists h :: h in supply && supply[h].Keys == {}
  {
    if exists h :: h in supply && supply[h].Keys == {} then Err(EmptyMax)
    else Ok(SumValues(Latests(supply)))
  }

  /** Every issuer has a supply entry. */
  ghost predicate AllSupplied(supply: map<Id, Series>)
  {
    forall h :: h in supply ==> supply[h].Keys != {}
  }

  /** Each issuer's latest supply. */
  ghost function Latests(supply: map<Id, Series>): map<Id, int>
    requires AllSupplied(supply)
  {
    map h | h in supply :: Latest(supply[h])
  }

  /** Replacing one issuer's series replaces only that issuer's latest supply. */
  lemma LatestsUpdate(supply: map<Id, Series>, h: Id, s: Series)
    requires AllSupplied(supply) && s.Keys != {}
    ensures AllSupplied(supply[h := s])
    ensures Latests(supply[h := s]) == Latests(supply)[h := Latest(s)]
  {
    var supply' := supply[h := s];
    assert Latests(supply').Keys == Latests(supply)[h := Latest(s)].Keys;
  }

  /** A burn at a time no earlier than the issuer's latest supply entry lowers the total
      supply by exactly the amount burnt. */
  lemma BurnLowersTotalSupply(e: Env, h: Id, amount: int, currentTime: int)
    requires Valid(e)
    requires Burned(e, h, amount, currentTime).0.Ok?
    requires currentTime >= MaxOf(e.supply[h].Keys)
    ensures TotalSupply(e.supply).Ok?
    ensures TotalSupply(Burned(e, h, amount, currentTime).1.supply) == Ok(TotalSupply(e.supply).value - amount)
  {
    BurnedOutcome(e, h, amount, currentTime);
    var supply := e.supply;
    var supply' := Burned(e, h, amount, currentTime).1.supply;
    var latest := Latest(supply[h]);
    assert supply' == supply[h := supply[h][currentTime := latest - amount]];
    LatestAfterWrite(supply[h], currentTime, latest - amount);
    assert AllSupplied(supply) by {
      forall x | x in supply ensures supply[x].Keys != {} {
        assert Known(e, x);
      }
    }
    LatestsUpdate(supply, h, supply[h][currentTime := latest - amount]);
    SumValuesUpdate(Latests(supply), h, latest - amount);
    assert TotalSupply(supply) == Ok(SumValues(Latests(supply)));
    assert TotalSupply(supply') == Ok(SumValues(Latests(supply')));
  }

  /** The writes HubAgent.transfer makes itself after a successful hop from `fromId` to
      `toId`: overwrite the sender's own balance with its latest value minus `amount`
      (a second debit, since Hub.transfer already made one), then add `amount` to the
      receiver's holding of the sender's token, creating that series if absent. */
  function HopWrites(e: Env, fromId: Id, toId: Id, amount: int, t: int): (e': Env)
    requires fromId in e.balance && fromId in e.balance[fromId] && toId in e.balance
    ensures e'.(balance := e.balance) == e
  {
    var debited := CurrencyBalance(e.balance, fromId, fromId) - amount;
    var b1 := e.balance[fromId := e.balance[fromId][fromId := e.balance[fromId][fromId][t := debited]]];
    var held := CurrencyBalance(b1, toId, fromId);
    var b2 :=
      if fromId in b1[toId] then b1[toId := b1[toId][fromId := b1[toId][fromId][t := held + amount]]]
      else b1[toId := b1[toId][fromId := map[t := amount]]];
    e.(balance := b2)
  }

  /** At a time no earlier than its latest entry, the hop's own write lowers the
      sender's own balance by `amount`. */
  lemma HopWritesDebit(e: Env, fromId: Id, toId: Id, amount: int, t: int)
    requires fromId in e.balance && fromId in e.balance[fromId] && toId in e.balance && fromId != toId
    requires Holds(e.balance, fromId, fromId) ==> t >= MaxOf(e.balance[fromId][fromId].Keys)
    ensures CurrencyBalance(HopWrites(e, fromId, toId, amount, t).balance, fromId, fromId) == CurrencyBalance(e.balance, fromId, fromId) - amount
  {
    LatestAfterWrite(e.balance[fromId][fromId], t, CurrencyBalance(e.balance, fromId, fromId) - amount);
  }

  /** At a time no earlier than that series' latest entry, the hop's own write raises
      the receiver's holding of the sender's token by `amount`. */
  lemma HopWritesCredit(e: Env, fromId: Id, toId: Id, amount: int, t: int)
    requires fromId in e.balance && fromId in e.balance[fromId] && toId in e.balance && fromId != toId
    requires Holds(e.balance, toId, fromId) ==> t >= MaxOf(e.balance[toId][fromId].Keys)
    ensures CurrencyBalance(HopWrites(e, fromId, toId, amount, t).balance, toId, fromId) == CurrencyBalance(e.balance, toId, fromId) + amount
  {
    if fromId in e.balance[toId] {
      LatestAfterWrite(e.balance[toId][fromId], t, CurrencyBalance(e.balance, toId, fromId) + amount);
    } else {
      LatestAfterWrite(map[], t, amount);
    }
  }

  /** Every series other than those two is left alone. */
  lemma HopWritesFrame(e: Env, fromId: Id, toId: Id, amount: int, t: int, x: Id, y: Id)
    requires fromId in e.balance && fromId in e.balance[fromId] && toId in e.balance && fromId != toId
    requires x in e.balance && y in e.balance[x] && (x, y) != (fromId, fromId) && (x, y) != (toId, fromId)
    ensures var b' := HopWrites(e, fromId, toId, amount, t).balance;
      x in b' && y in b'[x] && b'[x][y] == e.balance[x][y]
  {
  }

  /** Moving the amount stores a positive debit at the hop's time. */
  lemma BalancesMovedDebitStored(e: Env, fromId: Id, toId: Id, amount: int, t: int)
    requires HasSelfBalance(e.balance, fromId) && HasSelfBalance(e.balance, toId) && fromId != toId
    requires SelfBalance(e.balance, fromId) - amount > 0
    ensures var e2 := BalancesMoved(e, fromId, toId, amount, t).1;
      && fromId in e2.balance && fromId in e2.balance[fromId]
      && e2.balance[fromId][fromId] == e.balance[fromId][fromId][t := SelfBalance(e.balance, fromId) - amount]
  {
    var v := SelfBalance(e.balance, fromId) - amount;
    var e1 := BalanceUpdated(e, t, fromId, -amount).1;
    assert e1 == WithSelfBalance(e, fromId, t, v);
    WithSelfBalanceOthers(e, fromId, t, v, toId);
    var (rr, e2) := BalanceUpdated(e1, t, toId, amount);
    assert rr.Ok?;
    if rr.value > 0 {
      WithSelfBalanceOthers(e1, toId, t, rr.value, fromId);
    }
    assert e2 == BalancesMoved(e, fromId, toId, amount, t).1;
  }

  /** The first debit of a hop, when positive, is stored at the hop's time. */
  lemma FirstDebitStored(c: Curves, e: Env, fromId: Id, toId: Id, amount: int, t: int)
    requires Valid(e)
    requires Transferred(c, e, fromId, toId, amount, t).0.Ok?
    requires SelfBalance(e.balance, fromId) - amount > 0
    ensures var e' := Transferred(c, e, fromId, toId, amount, t).1;
      && fromId != toId && toId in e'.balance
      && fromId in e'.balance && fromId in e'.balance[fromId]
      && e'.balance[fromId][fromId] == e.balance[fromId][fromId][t := SelfBalance(e.balance, fromId) - amount]
  {
    TransferredKeys(c, e, fromId, toId, amount, t);
    TransferSucceeds(c, e, fromId, toId, amount, t);
    assert Known(e, toId);
    BalancesMovedDebitStored(e, fromId, toId, amount, t);
    SuppliesRefreshedKeepsBalance(c, BalancesMoved(e, fromId, toId, amount, t).1, fromId, toId, t);
    TransferredState(c, e, fromId, toId, amount, t);
  }

  /** The agent's own debit on top of a first debit stored at time `t`, no earlier
      than any entry before it, leaves the sender `2 * amount` lower. */
  lemma SecondDebit(e: Env, e': Env, fromId: Id, toId: Id, amount: int, t: int)
    requires HasSelfBalance(e.balance, fromId) && t >= MaxOf(e.balance[fromId][fromId].Keys)
    requires fromId in e'.balance && fromId in e'.balance[fromId] && toId in e'.balance && fromId != toId
    requires e'.balance[fromId][fromId] == e.balance[fromId][fromId][t := SelfBalance(e.balance, fromId) - amount]
    ensures CurrencyBalance(HopWrites(e', fromId, toId, amount, t).balance, fromId, fromId) == SelfBalance(e.balance, fromId) - 2 * amount
  {
    LatestAfterWrite(e.balance[fromId][fromId], t, SelfBalance(e.balance, fromId) - amount);
    HopWritesDebit(e', fromId, toId, amount, t);
  }

  /** HubAgent.transfer debits the sender twice: once through Hub.transfer and once
      more by its own write, so a sender whose balance stays positive after the first
      debit ends `2 * amount` lower. */
  lemma HopDebitsSenderTwice(c: Curves, e: Env, fromId: Id, toId: Id, amount: int, t: int)
    requires Valid(e)
    requires Transferred(c, e, fromId, toId, amount, t).0.Ok?
    requires t >= MaxOf(e.balance[fromId][fromId].Keys)
    requires SelfBalance(e.balance, fromId) - amount > 0
    ensures var e' := Transferred(c, e, fromId, toId, amount, t).1;
      && fromId in e'.balance && fromId in e'.balance[fromId] && toId in e'.balance
      && CurrencyBalance(HopWrites(e', fromId, toId, amount, t).balance, fromId, fromId) == SelfBalance(e.balance, fromId) - 2 * amount
  {
    FirstDebitStored(c, e, fromId, toId, amount, t);
    SecondDebit(e, Transferred(c, e, fromId, toId, amount, t).1, fromId, toId, amount, t);
  }

  /** One hop of HubAgent.transfer: Hub.transfer between the two, then, if it did not
      raise, the agent's own writes. The flag is false when Hub.transfer raised; the
      environment is then whatever Hub.transfer left. */
  function AgentHop(c: Curves, e: Env, fromId: Id, toId: Id, amount: int, t: int): (out: (bool, Env))
    ensures out.0 == Transferred(c, e, fromId, toId, amount, t).0.Ok?
    ensures !out.0 ==> out.1 == Transferred(c, e, fromId, toId, amount, t).1
  {
    var (res, e1) := Transferred(c, e, fromId, toId, amount, t);
    if res.Err? then (false, e1)
    else
      TransferredKeys(c, e, fromId, toId, amount, t);
      (true, HopWrites(e1, fromId, toId, amount, t))
  }

  /** AgentHop at a fixed amount and time, as a step on (environment, from, to). */
  function AgentStep(c: Curves, amount: int, t: int): (Env, Id, Id) -> (bool, Env)
  {
    (e: Env, fromId: Id, toId: Id) => AgentHop(c, e, fromId, toId, amount, t)
  }

  /** One hop of HubAgent.transfer over Hub.transfer as written. */
  function AgentHopAsWritten(e: Env, fromId: Id, toId: Id, amount: int, t: int): (out: (bool, Env))
    ensures out.0 == TransferredAsWritten(e, fromId, toId, amount, t).0.Ok?
    ensures !out.0 ==> out.1 == TransferredAsWritten(e, fromId, toId, amount, t).1
  {
    var (res, e1) := TransferredAsWritten(e, fromId, toId, amount, t);
    if res.Err? then (false, e1)
    else
      BalancesMovedKeys(e, fromId, toId, amount, t);
      (true, HopWrites(e1, fromId, toId, amount, t))
  }

  function AgentStepAsWritten(amount: int, t: int): (Env, Id, Id) -> (bool, Env)
  {
    (e: Env, fromId: Id, toId: Id) => AgentHopAsWritten(e, fromId, toId, amount, t)
  }

  /** The hops along `path` from hop i on, for any step: a failed step aborts the rest
      (the error is swallowed; earlier hops stay), a successful one is logged and the
      walk goes on. */
  function HopsWith(hop: (Env, Id, Id) -> (bool, Env), e: Env, log: Log, path: Path, i: nat, amount: int, t: int): (out: (Env, Log))
    decreases |path| - i
  {
    if i + 1 >= |path| then (e, log)
    else
      var (ok, e1) := hop(e, path[i], path[i + 1]);
      if !ok then (e1, log)
      else HopsWith(hop, e1, Recorded(log, path[i], path[i + 1], amount, t), path, i + 1, amount, t)
  }

  /** The hops of HubAgent.transfer from hop i on. */
  function Hops(c: Curves, e: Env, log: Log, path: Path, i: nat, amount: int, t: int): (out: (Env, Log))
  {
    HopsWith(AgentStep(c, amount, t), e, log, path, i, amount, t)
  }

  /** Hop i of HubAgent.transfer, spelled out: stop on an error from Hub.transfer,
      otherwise apply the agent's writes, log the hop and go on. */
  lemma HopsStep(c: Curves, e: Env, log: Log, path: Path, i: nat, amount: int, t: int)
    requires i + 1 < |path|
    ensures var (res, e1) := Transferred(c, e, path[i], path[i + 1], amount, t);
      && (res.Err? ==> Hops(c, e, log, path, i, amount, t) == (e1, log))
      && (res.Ok? ==>
        && path[i] in e1.balance && path[i] in e1.balance[path[i]] && path[i + 1] in e1.balance
        && Hops(c, e, log, path, i, amount, t) ==
           Hops(c, HopWrites(e1, path[i], path[i + 1], amount, t), Recorded(log, path[i], path[i + 1], amount, t), path, i + 1, amount, t))
  {
    TransferredKeys(c, e, path[i], path[i + 1], amount, t);
    assert AgentStep(c, amount, t)(e, path[i], path[i + 1]) == AgentHop(c, e, path[i], path[i + 1], amount, t);
  }

  /** As written, a first hop whose sender's or receiver's supply was last written on
      an earlier day moves both balances inside Hub.transfer and then raises
      AttributeError; the agent swallows it, so the walk ends with the balances moved,
      none of the agent's own writes and nothing logged. Corrected, the same hop
      completes and is logged. */
  lemma StaleSupplyHopLogsNothing(c: Curves, e: Env, log: Log, path: Path, amount: int, t: int)
    requires Valid(e) && |path| >= 2
    requires TransferCheck(e, path[0], path[1], amount, t).None? && path[1] in e.balance
    requires SupplyStale(e, path[0], t) || SupplyStale(e, path[1], t)
    ensures HopsWith(AgentStepAsWritten(amount, t), e, log, path, 0, amount, t) == (BalancesMoved(e, path[0], path[1], amount, t).1, log)
    ensures TotalTransactions(Hops(c, e, log, path, 0, amount, t).1) > TotalTransactions(log)
  {
    TransferAsWrittenRaisesAfterMove(e, path[0], path[1], amount, t);
    assert AgentStepAsWritten(amount, t)(e, path[0], path[1]) == AgentHopAsWritten(e, path[0], path[1], amount, t);
    TransferSucceeds(c, e, path[0], path[1], amount, t);
    assert AgentStep(c, amount, t)(e, path[0], path[1]) == AgentHop(c, e, path[0], path[1], amount, t);
    HopsCount(AgentStep(c, amount, t), e, log, path, 0, amount, t);
  }

  /** HubAgent.transfer: choose a path among the candidates (the paths from the
      receiver to the sender), and walk it only if one was found that can carry
      `amount`. */
  function AgentTransferred(c: Curves, e: Env, log: Log, amount: int, t: int, paths: seq<Path>): (out: (Env, Log))
  {
    var choice := OptimalTransferPath(e.balance, e.trusts, paths, amount);
    if choice.path.Some? && |choice.path.value| > 0 && choice.maxTransferable >= amount then
      Hops(c, e, log, choice.path.value, 0, amount, t)
    else (e, log)
  }

  /** Nothing changes unless some candidate can carry `amount`. */
  lemma AgentTransferNeedsSufficientPath(c: Curves, e: Env, log: Log, amount: int, t: int, paths: seq<Path>)
    requires forall i :: 0 <= i < |paths| ==> MaxTransferAmount(e.balance, e.trusts, paths[i], amount) < amount
    ensures AgentTransferred(c, e, log, amount, t, paths) == (e, log)
  {
    OptimalTransferPathCharacterized(e.balance, e.trusts, paths, amount);
    var caps := PathCapacities(e.balance, e.trusts, paths, amount);
    assert !SomeSufficient(caps, amount, |paths|);
  }

  /** `amount` added up `k` times. */
  function Repeated(k: nat, amount: int): int
  {
    if k == 0 then 0 else Repeated(k - 1, amount) + amount
  }

  lemma {:induction false} RepeatedIsProduct(k: nat, amount: int)
    ensures Repeated(k, amount) == k * amount
  {
    if k > 0 {
      RepeatedIsProduct(k - 1, amount);
    }
  }

  /** The number of hops the walk from hop i on completes. */
  function HopsDone(hop: (Env, Id, Id) -> (bool, Env), e: Env, path: Path, i: nat): (k: nat)
    ensures k <= (if i + 1 >= |path| then 0 else |path| - 1 - i)
    decreases |path| - i
  {
    if i + 1 >= |path| then 0
    else
      var (ok, e1) := hop(e, path[i], path[i + 1]);
      if !ok then 0 else HopsDone(hop, e1, path, i + 1) + 1
  }

  /** Whatever each hop does to the environment, the walk logs one transaction per
      completed hop... */
  lemma {:induction false} HopsCount(hop: (Env, Id, Id) -> (bool, Env), e: Env, log: Log, path: Path, i: nat, amount: int, t: int)
    ensures TotalTransactions(HopsWith(hop, e, log, path, i, amount, t).1) == TotalTransactions(log) + HopsDone(hop, e, path, i)
    decreases |path| - i
  {
    if i + 1 < |path| {
      var (ok, e1) := hop(e, path[i], path[i + 1]);
      if ok {
        RecordedCount(log, path[i], path[i + 1], amount, t);
        HopsCount(hop, e1, Recorded(log, path[i], path[i + 1], amount, t), path, i + 1, amount, t);
      }
    }
  }

  /** ... and each of them is of `amount`. */
  lemma {:induction false} HopsVolume(hop: (Env, Id, Id) -> (bool, Env), e: Env, log: Log, path: Path, i: nat, amount: int, t: int)
    ensures TotalTransactionVolume(HopsWith(hop, e, log, path, i, amount, t).1) ==
      TotalTransactionVolume(log) + Repeated(HopsDone(hop, e, path, i), amount)
    decreases |path| - i
  {
    if i + 1 < |path| {
      var (ok, e1) := hop(e, path[i], path[i + 1]);
      var log' := Recorded(log, path[i], path[i + 1], amount, t);
      if ok {
        RecordedVolume(log, path[i], path[i + 1], amount, t);
        HopsVolume(hop, e1, log', path, i + 1, amount, t);
        var k' := HopsDone(hop, e1, path, i + 1);
        assert HopsDone(hop, e, path, i) == k' + 1;
        assert Repeated(k' + 1, amount) == Repeated(k', amount) + amount;
        assert HopsWith(hop, e, log, path, i, amount, t) == HopsWith(hop, e1, log', path, i + 1, amount, t);
      } else {
        assert HopsWith(hop, e, log, path, i, amount, t).1 == log;
        assert HopsDone(hop, e, path, i) == 0;
      }
    }
  }

  /** Each completed hop logs exactly one transaction of `amount`: the log grows by at
      most one entry per hop, and its volume by `amount` per entry. */
  lemma HopsRecordAmount(c: Curves, e: Env, log: Log, path: Path, i: nat, amount: int, t: int) returns (k: nat)
    ensures k <= (if i + 1 >= |path| then 0 else |path| - 1 - i)
    ensures TotalTransactions(Hops(c, e, log, path, i, amount, t).1) == TotalTransactions(log) + k
    ensures TotalTransactionVolume(Hops(c, e, log, path, i, amount, t).1) == TotalTransactionVolume(log) + k * amount
  {
    k := HopsDone(AgentStep(c, amount, t), e, path, i);
    HopsCount(AgentStep(c, amount, t), e, log, path, i, amount, t);
    HopsVolume(AgentStep(c, amount, t), e, log, path, i, amount, t);
    RepeatedIsProduct(k, amount);
  }

  /** The hops change only balances and supplies: trust lines, mints, traits and the
      population stay as they were. */
  lemma {:induction false} HopsKeepTrusts(c: Curves, e: Env, log: Log, path: Path, i: nat, amount: int, t: int)
    ensures var e' := Hops(c, e, log, path, i, amount, t).0;
      e'.(balance := e.balance, supply := e.supply) == e
    decreases |path| - i
  {
    if i + 1 < |path| {
      var (res, e1) := Transferred(c, e, path[i], path[i + 1], amount, t);
      TransferFrame(c, e, path[i], path[i + 1], amount, t);
      HopsStep(c, e, log, path, i, amount, t);
      if res.Ok? {
        HopsKeepTrusts(c, HopWrites(e1, path[i], path[i + 1], amount, t), Recorded(log, path[i], path[i + 1], amount, t), path, i + 1, amount, t);
      }
    }
  }

  class HubAgent {
    const humans: HumanEnvironment
    const hub: Ledger.Hub
    var nextHumanId: int
    var transactions: Log
    var totalMints: int
    var totalMintVolume: int

    /** The hub works on the agent's own environment. */
    ghost predicate Valid()
    {
      hub.avatars == humans
    }

    constructor(curves: Curves)
      ensures Valid() && fresh(humans) && humans.State() == EMPTY && hub.curves == curves
      ensures nextHumanId == 0 && transactions == map[] && totalMints == 0 && totalMintVolume == 0
    {
      var environment := new HumanEnvironment();
      humans := environment;
      hub := new Ledger.Hub(environment, curves);
      nextHumanId := 0;
      transactions := map[];
      totalMints := 0;
      totalMintVolume := 0;
    }

    /** get_next_human_id: ids are handed out strictly increasing, from 1. */
    method GetNextHumanId() returns (id: int)
      modifies this
      ensures id == old(nextHumanId) + 1 && nextHumanId == id
      ensures transactions == old(transactions) && totalMints == old(totalMints) && totalMintVolume == old(totalMintVolume)
    {
      nextHumanId := nextHumanId + 1;
      return nextHumanId;
    }

    /** mint: the hub's mint, with its error swallowed (the result is then None); the
        counters move only for a non-zero issuance. */
    method Mint(humanId: Id, currentTime: int) returns (issuance: Option<int>)
      requires Valid()
      modifies this, humans
      ensures var (r, e') := Minted(hub.curves, old(humans.State()), humanId, currentTime);
        humans.State() == e' && issuance == (if r.Ok? then r.value else None)
      ensures issuance.Some? && issuance.value != 0 ==>
        totalMints == old(totalMints) + 1 && totalMintVolume == old(totalMintVolume) + issuance.value
      ensures !(issuance.Some? && issuance.value != 0) ==>
        totalMints == old(totalMints) && totalMintVolume == old(totalMintVolume)
      ensures nextHumanId == old(nextHumanId) && transactions == old(transactions)
    {
      var r := hub.Mint(humanId, currentTime);
      if r.Err? {
        return None;
      }
      issuance := r.value;
      if issuance.Some? && issuance.value != 0 {
        totalMints := totalMints + 1;
        totalMintVolume := totalMintVolume + issuance.value;
      }
    }

    /** record_transaction. */
    method RecordTransaction(fromId: Id, toId: Id, amount: int, time: int)
      modifies this
      ensures transactions == Recorded(old(transactions), fromId, toId, amount, time)
      ensures nextHumanId == old(nextHumanId) && totalMints == old(totalMints) && totalMintVolume == old(totalMintVolume)
    {
      var entries := if fromId in transactions then transactions[fromId] else [];
      transactions := transactions[fromId := entries + [Transaction(toId, amount, time)]];
    }

    /** The agent's own writes after a successful hop (the body of the loop of
        transfer, after Hub.transfer): the sender's own balance is overwritten with its
        latest value minus `amount`, and the receiver's holding of the sender's token is
        raised by `amount` or created. */
    method WriteHop(fromId: Id, toId: Id, amount: int, currentTime: int)
      requires fromId in humans.balance && fromId in humans.balance[fromId] && toId in humans.balance
      modifies humans
      ensures humans.State() == HopWrites(old(humans.State()), fromId, toId, amount, currentTime)
    {
      var balance := humans.balance;
      var currentBalance := CurrencyBalance(balance, fromId, fromId);
      balance := balance[fromId := balance[fromId][fromId := balance[fromId][fromId][currentTime := currentBalance - amount]]];
      currentBalance := CurrencyBalance(balance, toId, fromId);
      if fromId in balance[toId] {
        balance := balance[toId := balance[toId][fromId := balance[toId][fromId][currentTime := currentBalance + amount]]];
      } else {
        balance := balance[toId := balance[toId][fromId := map[currentTime := amount]]];
      }
      humans.balance := balance;
    }

    /** transfer: `paths` are the candidate paths from `receiverId` to `senderId` in the
        trust graph `edges`, as find_transfer_paths lists them. Walk the chosen path hop
        by hop: Hub.transfer, the agent's own balance writes, the log entry; an error
        ends the walk. The walked path starts at the receiver and ends at the sender. */
    method Transfer(senderId: Id, receiverId: Id, amount: int, currentTime: int, ghost edges: set<(Id, Id)>, paths: seq<Path>)
      requires Valid()
      requires TransferPaths(edges, senderId, receiverId, paths)
      modifies this, humans
      ensures (humans.State(), transactions) == AgentTransferred(hub.curves, old(humans.State()), old(transactions), amount, currentTime, paths)
      ensures var choice := OptimalTransferPath(old(humans.balance), old(humans.trusts), paths, amount);
        choice.path.Some? ==> SimplePathBetween(edges, receiverId, senderId, choice.path.value)
      ensures nextHumanId == old(nextHumanId) && totalMints == old(totalMints) && totalMintVolume == old(totalMintVolume)
    {
      ChosenPathRunsFromTarget(edges, senderId, receiverId, humans.balance, humans.trusts, paths, amount);
      var optimalPath, maxTransferable := FindOptimalTransferPath(humans.balance, humans.trusts, paths, amount);
      if !(optimalPath.Some? && |optimalPath.value| > 0 && maxTransferable >= amount) {
        return;
      }
      var path := optimalPath.value;
      var i := 0;
      while i < |path| - 1
        invariant 0 <= i <= |path|
        invariant Hops(hub.curves, humans.State(), transactions, path, i, amount, currentTime) ==
          Hops(hub.curves, old(humans.State()), old(transactions), path, 0, amount, currentTime)
        invariant nextHumanId == old(nextHumanId) && totalMints == old(totalMints) && totalMintVolume == old(totalMintVolume)
        decreases |path| - i
      {
        var fromId, toId := path[i], path[i + 1];
        ghost var before, log := humans.State(), transactions;
        var r := hub.Transfer(fromId, toId, amount, currentTime);
        HopsStep(hub.curves, before, log, path, i, amount, currentTime);
        if r.Err? {
          return;
        }
        WriteHop(fromId, toId, amount, currentTime);
        RecordTransaction(fromId, toId, amount, currentTime);
        assert Hops(hub.curves, humans.State(), transactions, path, i + 1, amount, currentTime) ==
          Hops(hub.curves, before, log, path, i, amount, currentTime);
        i := i + 1;
      }
    }
  }
}
