/** The human environment and the Hub (circlesUBI/hub.py). The environment is a set of
    dictionaries keyed by human id -- balances, supplies, trusts, mints -- whose series
    are keyed by timestamp; "current" always means the entry at the largest timestamp.
    Every operation is first given as a function from the environment before to the
    result and the environment after (the `...ed` functions below); the classes at the
    end update their fields step by step, as the Python does, and are proved to end in
    exactly that state. */
module Hub {
  import opened Types
  import opened TimeSeries
  import opened FixedPoint
  import opened Demurrage
  import opened Circles

  /** The deterministic part of a human's traits (the three random reals are left out). */
  datatype Traits = Traits(invitedBy: Option<Id>, createdAt: int)

  /** A trust line: the truster accepts up to `amount` of the trustee's token until
      `createdAt + duration`. */
  datatype Trust = Trust(createdAt: int, amount: int, duration: int)

  datatype MintEntry = MintEntry(day: int, issuance: int)

  /** timestamp -> amount */
  type Series = map<int, int>

  /** holder -> currency (issuer) -> timestamp -> amount */
  type Balances = map<Id, map<Id, Series>>

  /** The HumanEnvironment's dictionaries, as a value. */
  datatype Env = Env(
    populationSize: int,
    traits: map<Id, Traits>,
    balance: Balances,
    supply: map<Id, Series>,
    trusts: map<Id, map<Id, Trust>>,
    mints: map<Id, map<int, MintEntry>>)

  const EMPTY: Env := Env(0, map[], map[], map[], map[], map[])

  /** Whole-token amounts Hub passes through mul_fixed(_, EXA). */
  const INVITATION_COST: int := 10
  const DEFAULT_TRUST_VALUE: int := 100
  const DEFAULT_TRUST_DURATION: int := 1_000_000_000
  const DEFAULT_NATIVE_BALANCE: int := 50

  /** What every operation keeps: every human with a balance entry is Known, and the
      supply, mint and trait dictionaries hold no one else. */
  ghost predicate Valid(e: Env)
  {
    && (forall h :: h in e.balance ==> Known(e, h))
    && (forall h :: h in e.supply ==> h in e.balance)
    && (forall h :: h in e.mints ==> h in e.balance)
    && (forall h :: h in e.traits ==> h in e.balance)
  }

  /** A registered human: its own-currency series, supply and mint history exist and
      are non-empty, and it has traits. */
  predicate Known(e: Env, h: Id)
  {
    && h in e.balance && h in e.balance[h] && e.balance[h][h].Keys != {}
    && h in e.supply && e.supply[h].Keys != {}
    && h in e.mints && e.mints[h].Keys != {}
    && h in e.traits
  }

  lemma EmptyValid()
    ensures Valid(EMPTY)
  {
  }

  /** A human's own-currency series exists and is non-empty. */
  predicate HasSelfBalance(b: Balances, h: Id)
  {
    h in b && h in b[h] && b[h][h].Keys != {}
  }

  /** The value at the latest timestamp of a human's own-currency series. */
  function SelfBalance(b: Balances, h: Id): int
    requires HasSelfBalance(b, h)
  {
    Latest(b[h][h])
  }

  // ---------------------------------------------------------------------------------
  // The three kinds of write: one entry of a human's own-currency series, of its
  // supply series, of its mint history.

  function WithSelfBalance(e: Env, h: Id, t: int, v: int): Env
    requires h in e.balance && h in e.balance[h]
  {
    e.(balance := e.balance[h := e.balance[h][h := e.balance[h][h][t := v]]])
  }

  function WithSupply(e: Env, h: Id, t: int, v: int): Env
    requires h in e.supply
  {
    e.(supply := e.supply[h := e.supply[h][t := v]])
  }

  function WithMint(e: Env, h: Id, t: int, m: MintEntry): Env
    requires h in e.mints
  {
    e.(mints := e.mints[h := e.mints[h][t := m]])
  }

  lemma WithSelfBalanceValid(e: Env, h: Id, t: int, v: int)
    requires Valid(e) && h in e.balance
    ensures Valid(WithSelfBalance(e, h, t, v))
  {
    var e' := WithSelfBalance(e, h, t, v);
    assert t in e'.balance[h][h];
  }

  lemma WithSupplyValid(e: Env, h: Id, t: int, v: int)
    requires Valid(e) && h in e.supply
    ensures Valid(WithSupply(e, h, t, v))
  {
    var e' := WithSupply(e, h, t, v);
    assert t in e'.supply[h];
  }

  lemma WithMintValid(e: Env, h: Id, t: int, m: MintEntry)
    requires Valid(e) && h in e.mints
    ensures Valid(WithMint(e, h, t, m))
  {
    var e' := WithMint(e, h, t, m);
    assert t in e'.mints[h];
  }

  /** Trust lines play no part in validity. */
  lemma WithTrustsValid(e: Env, trusts: map<Id, map<Id, Trust>>)
    requires Valid(e)
    ensures Valid(e.(trusts := trusts))
  {
    var e' := e.(trusts := trusts);
    assert forall h :: Known(e, h) ==> Known(e', h);
  }

  /** `e'` differs from `e` at most in the own-currency series and the supplies of the
      humans in `hs`: trust lines, mints, traits, the population count and every other
      holding are as they were. */
  ghost predicate TouchesOnly(e: Env, e': Env, hs: set<Id>)
  {
    && e'.trusts == e.trusts && e'.mints == e.mints && e'.traits == e.traits
    && e'.populationSize == e.populationSize
    && e'.balance.Keys == e.balance.Keys
    && (forall x :: x in e.balance ==> e'.balance[x].Keys == e.balance[x].Keys)
    && (forall x, y :: x in e.balance && y in e.balance[x] && !(x == y && x in hs) ==> e'.balance[x][y] == e.balance[x][y])
    && e'.supply.Keys == e.supply.Keys
    && (forall x :: x in e.supply && x !in hs ==> e'.supply[x] == e.supply[x])
  }

  lemma TouchesOnlyTrans(e1: Env, e2: Env, e3: Env, hs: set<Id>)
    requires TouchesOnly(e1, e2, hs) && TouchesOnly(e2, e3, hs)
    ensures TouchesOnly(e1, e3, hs)
  {
  }

  lemma WithSelfBalanceTouches(e: Env, h: Id, t: int, v: int, hs: set<Id>)
    requires h in e.balance && h in e.balance[h] && h in hs
    ensures TouchesOnly(e, WithSelfBalance(e, h, t, v), hs)
  {
  }

  lemma WithSupplyTouches(e: Env, h: Id, t: int, v: int, hs: set<Id>)
    requires h in e.supply && h in hs
    ensures TouchesOnly(e, WithSupply(e, h, t, v), hs)
  {
  }

  // ---------------------------------------------------------------------------------
  // HumanEnvironment

  /** add_human: overwrite all four entries of `id` and count one more registration,
      whether or not `id` was already there. */
  function HumanAdded(e: Env, id: Id, traits: Traits, balance: map<Id, Series>, supply: Series, mints: map<int, MintEntry>): (e': Env)
    ensures e'.populationSize == e.populationSize + 1
    ensures e'.balance == e.balance[id := balance] && e'.supply == e.supply[id := supply]
    ensures e'.mints == e.mints[id := mints] && e'.traits == e.traits[id := traits]
    ensures e'.trusts == e.trusts
  {
    e.(populationSize := e.populationSize + 1,
       traits := e.traits[id := traits],
       balance := e.balance[id := balance],
       supply := e.supply[id := supply],
       mints := e.mints[id := mints])
  }

  /** Adding a human with a non-empty balance in its own currency, a non-empty supply
      and a non-empty mint history keeps the environment valid. */
  lemma HumanAddedValid(e: Env, id: Id, traits: Traits, balance: map<Id, Series>, supply: Series, mints: map<int, MintEntry>)
    requires Valid(e) && id in balance && balance[id].Keys != {}
    requires supply.Keys != {} && mints.Keys != {}
    ensures Valid(HumanAdded(e, id, traits, balance, supply, mints))
  {
    var e' := HumanAdded(e, id, traits, balance, supply, mints);
    assert Known(e', id);
  }

  /** add_trust: first write wins. An existing (truster, trustee) line is never
      overwritten; otherwise the line is added and nothing else changes. */
  function TrustAdded(e: Env, truster: Id, trustee: Id, data: Trust): (e': Env)
    ensures truster in e'.trusts && trustee in e'.trusts[truster]
    ensures truster in e.trusts && trustee in e.trusts[truster] ==> e' == e
    ensures !(truster in e.trusts && trustee in e.trusts[truster]) ==> e'.trusts[truster][trustee] == data
    ensures forall x, y :: x in e.trusts && y in e.trusts[x] ==> x in e'.trusts && y in e'.trusts[x] && e'.trusts[x][y] == e.trusts[x][y]
    ensures forall x, y :: x in e'.trusts && y in e'.trusts[x] ==> (x in e.trusts && y in e.trusts[x]) || (x, y) == (truster, trustee)
    ensures e'.(trusts := e.trusts) == e
  {
    var lines := if truster in e.trusts then e.trusts[truster] else map[];
    if trustee in lines then e
    else e.(trusts := e.trusts[truster := lines[trustee := data]])
  }

  /** update_balance: add `change` to the human's current own-currency balance and
      return the sum. Unknown humans raise ValueError. Only a strictly positive sum is
      written (at `currentTime`); a zero or negative one leaves the series as it was. */
  function BalanceUpdated(e: Env, currentTime: int, h: Id, change: int): (out: (Result<int>, Env))
    ensures out.0 == Err(UnknownHuman) <==> h !in e.balance
    ensures out.0.Err? ==> out.1 == e
    ensures out.0.Ok? ==> HasSelfBalance(e.balance, h) && out.0.value == SelfBalance(e.balance, h) + change
    ensures out.0.Ok? && out.0.value <= 0 ==> out.1 == e
    ensures out.0.Ok? && out.0.value > 0 ==> out.1 == WithSelfBalance(e, h, currentTime, out.0.value)
  {
    if h !in e.balance then (Err(UnknownHuman), e)
    else if h !in e.balance[h] then (Err(MissingKey), e)
    else if e.balance[h][h].Keys == {} then (Err(EmptyMax), e)
    else
      var mostRecentBalance := Latest(e.balance[h][h]);
      var newBalance := mostRecentBalance + change;
      if newBalance > 0 then (Ok(newBalance), WithSelfBalance(e, h, currentTime, newBalance))
      else (Ok(newBalance), e)
  }

  /** update_balance keeps the environment valid, and on a valid environment it fails
      exactly for unknown humans. */
  lemma BalanceUpdatedValid(e: Env, currentTime: int, h: Id, change: int)
    requires Valid(e)
    ensures BalanceUpdated(e, currentTime, h, change).0.Ok? <==> h in e.balance
    ensures Valid(BalanceUpdated(e, currentTime, h, change).1)
  {
    var out := BalanceUpdated(e, currentTime, h, change);
    if out.0.Ok? && out.0.value > 0 {
      WithSelfBalanceValid(e, h, currentTime, out.0.value);
    }
  }

  lemma BalanceUpdatedTouches(e: Env, currentTime: int, h: Id, change: int, hs: set<Id>)
    requires h in hs
    ensures TouchesOnly(e, BalanceUpdated(e, currentTime, h, change).1, hs)
  {
    var out := BalanceUpdated(e, currentTime, h, change);
    if out.0.Ok? && out.0.value > 0 {
      WithSelfBalanceTouches(e, h, currentTime, out.0.value, hs);
    }
  }

  // ---------------------------------------------------------------------------------
  // Hub

  /** register_human: seed the human's own balance and supply with
      mul_fixed(init, EXA) -- init * 10^18 / 2^64, truncated -- but record the first
      mint's issuance as init * EXA. An existing id is overwritten. */
  function Registered(e: Env, createdAt: int, humanId: Id, invitedBy: Option<Id>, initNativeBalance: int): (e': Env)
    ensures humanId in e'.supply && humanId in e'.mints && humanId in e'.traits
    ensures HasSelfBalance(e'.balance, humanId) && e'.balance[humanId].Keys == {humanId}
    ensures SelfBalance(e'.balance, humanId) == MulFixed(initNativeBalance, EXA)
    ensures e'.supply[humanId] == map[createdAt := MulFixed(initNativeBalance, EXA)]
    ensures e'.mints[humanId] == map[createdAt := MintEntry(DaySinceDay0(createdAt), initNativeBalance * EXA)]
    ensures e'.traits[humanId] == Traits(invitedBy, createdAt)
    ensures e'.populationSize == e.populationSize + 1 && e'.trusts == e.trusts
    ensures forall x :: x in e.balance && x != humanId ==> x in e'.balance && e'.balance[x] == e.balance[x]
  {
    var initialBalance := map[humanId := map[createdAt := MulFixed(initNativeBalance, EXA)]];
    var initialSupply := map[createdAt := MulFixed(initNativeBalance, EXA)];
    var mints := map[createdAt := MintEntry(DaySinceDay0(createdAt), initNativeBalance * EXA)];
    assert Latest(initialBalance[humanId]) == MulFixed(initNativeBalance, EXA) by {
      assert initialBalance[humanId].Keys == {createdAt};
    }
    HumanAdded(e, humanId, Traits(invitedBy, createdAt), initialBalance, initialSupply, mints)
  }

  /** Registration keeps the environment valid. */
  lemma RegisteredValid(e: Env, createdAt: int, humanId: Id, invitedBy: Option<Id>, initNativeBalance: int)
    requires Valid(e)
    ensures Valid(Registered(e, createdAt, humanId, invitedBy, initNativeBalance))
  {
    var initialBalance := map[humanId := map[createdAt := MulFixed(initNativeBalance, EXA)]];
    var initialSupply := map[createdAt := MulFixed(initNativeBalance, EXA)];
    var mints := map[createdAt := MintEntry(DaySinceDay0(createdAt), initNativeBalance * EXA)];
    assert createdAt in initialBalance[humanId] && createdAt in initialSupply && createdAt in mints;
    HumanAddedValid(e, humanId, Traits(invitedBy, createdAt), initialBalance, initialSupply, mints);
  }

  /** establish_trusts: a trust line of mul_fixed(value, EXA), first write wins. */
  function TrustEstablished(e: Env, currentTime: int, truster: Id, trustee: Id, value: int, duration: int): (e': Env)
    ensures truster in e'.trusts && trustee in e'.trusts[truster]
    ensures !(truster in e.trusts && trustee in e.trusts[truster]) ==>
      e'.trusts[truster][trustee] == Trust(currentTime, MulFixed(value, EXA), duration)
    ensures e'.(trusts := e.trusts) == e
  {
    var trustData := Trust(currentTime, MulFixed(value, EXA), duration);
    TrustAdded(e, truster, trustee, trustData)
  }

  /** Adding a trust line keeps the environment valid. */
  lemma TrustEstablishedValid(e: Env, currentTime: int, truster: Id, trustee: Id, value: int, duration: int)
    requires Valid(e)
    ensures Valid(TrustEstablished(e, currentTime, truster, trustee, value, duration))
  {
    var e' := TrustEstablished(e, currentTime, truster, trustee, value, duration);
    assert e' == e.(trusts := e'.trusts);
    WithTrustsValid(e, e'.trusts);
  }

  /** invite_human: charge the inviter mul_fixed(10, EXA) through update_balance; if the
      result is negative raise (nothing was written, since only positive results are),
      otherwise register the newcomer and add the trust line inviter -> newcomer. */
  function Invited(e: Env, currentTime: int, newHumanId: Id, invitedBy: Id, initNativeBalance: int): (out: (Result<()>, Env))
  {
    var (newHostBalance, e1) := BalanceUpdated(e, currentTime, invitedBy, -MulFixed(INVITATION_COST, EXA));
    if newHostBalance.Err? then (Err(newHostBalance.error), e1)
    else if newHostBalance.value >= 0 then
      var e2 := Registered(e1, currentTime, newHumanId, Some(invitedBy), initNativeBalance);
      (Ok(()), TrustEstablished(e2, currentTime, invitedBy, newHumanId, DEFAULT_TRUST_VALUE, DEFAULT_TRUST_DURATION))
    else (Err(InsufficientForInvitation), e1)
  }

  /** Hub.update_supply, corrected: when the day of `currentTime` is later than the day
      of the issuer's last supply entry, write the supply discounted by the days passed;
      otherwise return the last supply and write nothing. */
  function SupplyUpdated(c: Curves, e: Env, h: Id, currentTime: int): (out: (Result<int>, Env))
    ensures h in e.supply && e.supply[h].Keys != {} ==> out.0.Ok?
    ensures out.0.Err? ==> out.1 == e
    ensures out.0.Ok? ==> (
      && h in e.supply && e.supply[h].Keys != {}
      && var lastSupplyTime := MaxOf(e.supply[h].Keys);
         var daysPassed := DaySinceDay0(currentTime) - DaySinceDay0(lastSupplyTime);
         if daysPassed > 0 then
           && out.0.value == DiscountedBalance(c, e.supply[h][lastSupplyTime], daysPassed)
           && out.1 == WithSupply(e, h, currentTime, out.0.value)
           && Latest(out.1.supply[h]) == out.0.value
         else out == (Ok(e.supply[h][lastSupplyTime]), e))
  {
    if h !in e.supply then (Err(MissingKey), e)
    else if e.supply[h].Keys == {} then (Err(EmptyMax), e)
    else
      var lastSupplyTime := MaxOf(e.supply[h].Keys);
      var lastSupply := e.supply[h][lastSupplyTime];
      var daysPassed := DaySinceDay0(currentTime) - DaySinceDay0(lastSupplyTime);
      if daysPassed > 0 then
        var newSupply := DiscountedBalance(c, lastSupply, daysPassed);
        assert currentTime > lastSupplyTime by {
          if currentTime <= lastSupplyTime { DaySinceDay0Monotone(currentTime, lastSupplyTime); }
        }
        LatestAfterWrite(e.supply[h], currentTime, newSupply);
        (Ok(newSupply), WithSupply(e, h, currentTime, newSupply))
      else (Ok(lastSupply), e)
  }

  /** Refreshing a supply keeps the environment valid. */
  lemma SupplyUpdatedValid(c: Curves, e: Env, h: Id, currentTime: int)
    requires Valid(e)
    ensures Valid(SupplyUpdated(c, e, h, currentTime).1)
  {
    var out := SupplyUpdated(c, e, h, currentTime);
    if out.1 != e {
      WithSupplyValid(e, h, currentTime, out.0.value);
    }
  }

  lemma SupplyUpdatedTouches(c: Curves, e: Env, h: Id, currentTime: int, hs: set<Id>)
    requires h in hs
    ensures TouchesOnly(e, SupplyUpdated(c, e, h, currentTime).1, hs)
  {
    var out := SupplyUpdated(c, e, h, currentTime);
    if out.1 != e {
      WithSupplyTouches(e, h, currentTime, out.0.value, hs);
    }
  }

  /** Hub.update_supply as written: it calls self.circles.calculate_discounted_balance,
      a method the Circles class does not have, so whenever a day has passed it raises
      AttributeError (before writing anything). */
  function SupplyUpdatedAsWritten(e: Env, h: Id, currentTime: int): (out: (Result<int>, Env))
    ensures out.1 == e
    ensures h in e.supply && e.supply[h].Keys != {} ==>
      (out.0 == Err(MissingAttribute) <==> DaySinceDay0(currentTime) > DaySinceDay0(MaxOf(e.supply[h].Keys)))
  {
    if h !in e.supply then (Err(MissingKey), e)
    else if e.supply[h].Keys == {} then (Err(EmptyMax), e)
    else
      var lastSupplyTime := MaxOf(e.supply[h].Keys);
      var lastSupply := e.supply[h][lastSupplyTime];
      var daysPassed := DaySinceDay0(currentTime) - DaySinceDay0(lastSupplyTime);
      if daysPassed > 0 then (Err(MissingAttribute), e)
      else (Ok(lastSupply), e)
  }

  /** A human registered at hour 0 whose supply is refreshed at hour 24: as written the
      refresh raises; corrected it writes the one-day discounted supply. */
  lemma {:induction false} SupplyRefreshAfterOneDay(c: Curves)
    ensures var e := Registered(EMPTY, 0, 1, None, DEFAULT_NATIVE_BALANCE);
      && SupplyUpdatedAsWritten(e, 1, 24).0 == Err(MissingAttribute)
      && SupplyUpdated(c, e, 1, 24).0 == Ok(DiscountedBalance(c, MulFixed(DEFAULT_NATIVE_BALANCE, EXA), 1))
      && 24 in SupplyUpdated(c, e, 1, 24).1.supply[1]
  {
    var e := Registered(EMPTY, 0, 1, None, DEFAULT_NATIVE_BALANCE);
    assert e.supply[1].Keys == {0};
    assert MaxOf(e.supply[1].Keys) == 0;
    assert DaySinceDay0(24) == 1 && DaySinceDay0(0) == 0;
  }

  /** Hub.mint: compute the issuance from the human's mint times; zero means no claim
      and no write. Otherwise record it (see IssuanceRecorded). */
  function Minted(c: Curves, e: Env, h: Id, currentTime: int): (out: (Result<Option<int>>, Env))
  {
    if h !in e.mints then (Err(MissingKey), e)
    else if h !in e.supply then (Err(MissingKey), e)
    else match CalculateIssuance(c, e.mints[h].Keys, currentTime)
      case Err(err) => (Err(err), e)
      case Ok(iss) =>
        if iss.amount == 0 then (Ok(None), e)
        else if e.supply[h].Keys == {} then (Err(EmptyMax), e)
        else IssuanceRecorded(c, e, h, currentTime, iss.amount)
  }

  /** The writes of Hub.mint for a non-zero issuance: discount-and-add the supply
      (passing the supply's latest timestamp as its "last updated day"), record the
      mint and the new supply at `currentTime`, then credit the issuance through
      update_balance. */
  function IssuanceRecorded(c: Curves, e: Env, h: Id, currentTime: int, issuance: int): (out: (Result<Option<int>>, Env))
    requires h in e.mints && h in e.supply && e.supply[h].Keys != {}
  {
    var currentDay := DaySinceDay0(currentTime);
    var lastUpdatedDay := MaxOf(e.supply[h].Keys);
    var totalSupply := e.supply[h][lastUpdatedDay];
    var (newLastUpdatedDay, newTotalSupply) := MintAndUpdateTotalSupply(c, totalSupply, issuance, currentDay, lastUpdatedDay);
    var e1 := WithSupply(WithMint(e, h, currentTime, MintEntry(newLastUpdatedDay, issuance)), h, currentTime, newTotalSupply);
    var (credited, e2) := BalanceUpdated(e1, currentTime, h, issuance);
    if credited.Err? then (Err(credited.error), e2)
    else (Ok(Some(issuance)), e2)
  }

  /** Hub.burn: raise if the current balance is below `amount`; otherwise debit it
      through update_balance and store the latest supply minus `amount`, without
      discounting the supply first. */
  function Burned(e: Env, h: Id, amount: int, currentTime: int): (out: (Result<(int, int)>, Env))
  {
    if !(h in e.balance && h in e.balance[h]) then (Err(MissingKey), e)
    else if e.balance[h][h].Keys == {} then (Err(EmptyMax), e)
    else if SelfBalance(e.balance, h) < amount then (Err(InsufficientForBurn), e)
    else
      var (newBalance, e1) := BalanceUpdated(e, currentTime, h, -amount);
      if h !in e1.supply then (Err(MissingKey), e1)
      else if e1.supply[h].Keys == {} then (Err(EmptyMax), e1)
      else
        var newSupply := Latest(e1.supply[h]) - amount;
        (Ok((newBalance.value, newSupply)), WithSupply(e1, h, currentTime, newSupply))
  }

  /** A trust line from `truster` to `trustee`. */
  predicate TrustLine(e: Env, truster: Id, trustee: Id)
  {
    truster in e.trusts && trustee in e.trusts[truster]
  }

  /** The checks of Hub.transfer, in order; the first that fails is the error. */
  function TransferCheck(e: Env, senderId: Id, receiverId: Id, amount: int, currentTime: int): Option<Error>
  {
    if senderId == receiverId then Some(SameSenderReceiver)
    else if !(senderId in e.balance && senderId in e.balance[senderId]) then Some(MissingKey)
    else if e.balance[senderId][senderId].Keys == {} then Some(EmptyMax)
    else if SelfBalance(e.balance, senderId) < amount then Some(InsufficientForTransfer)
    else if !TrustLine(e, receiverId, senderId) then Some(NoTrust)
    else if e.trusts[receiverId][senderId].amount < amount then Some(ExceedsTrust)
    else if currentTime > e.trusts[receiverId][senderId].createdAt + e.trusts[receiverId][senderId].duration then Some(TrustExpired)
    else None
  }

  /** Hub.transfer: the checks, each raising before any write -- same sender and
      receiver; the sender's balance below `amount`; no trust line from the receiver to
      the sender; a line below `amount`; an expired line. Then the writes. */
  function Transferred(c: Curves, e: Env, senderId: Id, receiverId: Id, amount: int, currentTime: int): (out: (Result<(int, int)>, Env))
  {
    match TransferCheck(e, senderId, receiverId, amount, currentTime)
    case Some(err) => (Err(err), e)
    case None => TransferApplied(c, e, senderId, receiverId, amount, currentTime)
  }

  /** The writes of Hub.transfer once every check passed: move the amount between
      the two own-currency balances, then refresh both supplies. */
  function TransferApplied(c: Curves, e: Env, senderId: Id, receiverId: Id, amount: int, currentTime: int): (out: (Result<(int, int)>, Env))
  {
    var (moved, e2) := BalancesMoved(e, senderId, receiverId, amount, currentTime);
    if moved.Err? then (Err(moved.error), e2)
    else
      var (refreshed, e4) := SuppliesRefreshed(c, e2, senderId, receiverId, currentTime);
      if refreshed.Err? then (Err(refreshed.error), e4)
      else (Ok(moved.value), e4)
  }

  /** Debit the sender's own balance, then credit the receiver's (which raises, after
      the debit, for a receiver that was never registered). */
  function BalancesMoved(e: Env, senderId: Id, receiverId: Id, amount: int, currentTime: int): (out: (Result<(int, int)>, Env))
  {
    var (newSenderBalance, e1) := BalanceUpdated(e, currentTime, senderId, -amount);
    if newSenderBalance.Err? then (Err(newSenderBalance.error), e1)
    else
      var (newReceiverBalance, e2) := BalanceUpdated(e1, currentTime, receiverId, amount);
      if newReceiverBalance.Err? then (Err(newReceiverBalance.error), e2)
      else (Ok((newSenderBalance.value, newReceiverBalance.value)), e2)
  }

  /** update_supply for the sender, then for the receiver. */
  function SuppliesRefreshed(c: Curves, e: Env, senderId: Id, receiverId: Id, currentTime: int): (out: (Result<()>, Env))
  {
    var (senderSupply, e1) := SupplyUpdated(c, e, senderId, currentTime);
    if senderSupply.Err? then (Err(senderSupply.error), e1)
    else
      var (receiverSupply, e2) := SupplyUpdated(c, e1, receiverId, currentTime);
      if receiverSupply.Err? then (Err(receiverSupply.error), e2)
      else (Ok(()), e2)
  }

  // ---------------------------------------------------------------------------------
  // Properties of the Hub operations

  /** The whole-token constants after mul_fixed(_, EXA): a registration seeds 2, an
      invitation costs 0 and a default trust line allows 5. */
  lemma ScaledDefaults()
    ensures MulFixed(DEFAULT_NATIVE_BALANCE, EXA) == 2
    ensures MulFixed(INVITATION_COST, EXA) == 0
    ensures MulFixed(DEFAULT_TRUST_VALUE, EXA) == 5
  {
  }

  /** The state invite_human leaves behind: the newcomer registered and trusted when the
      charge succeeded without going negative, and otherwise whatever the charge left. */
  lemma InvitedState(e: Env, currentTime: int, newHumanId: Id, invitedBy: Id, initNativeBalance: int)
    ensures var (rb, e1) := BalanceUpdated(e, currentTime, invitedBy, -MulFixed(INVITATION_COST, EXA));
      Invited(e, currentTime, newHumanId, invitedBy, initNativeBalance).1 ==
        if rb.Ok? && rb.value >= 0 then
          TrustEstablished(Registered(e1, currentTime, newHumanId, Some(invitedBy), initNativeBalance),
            currentTime, invitedBy, newHumanId, DEFAULT_TRUST_VALUE, DEFAULT_TRUST_DURATION)
        else e1
  {
  }

  lemma InvitedValid(e: Env, currentTime: int, newHumanId: Id, invitedBy: Id, initNativeBalance: int)
    requires Valid(e)
    ensures Valid(Invited(e, currentTime, newHumanId, invitedBy, initNativeBalance).1)
  {
    var cost := MulFixed(INVITATION_COST, EXA);
    var (rb, e1) := BalanceUpdated(e, currentTime, invitedBy, -cost);
    InvitedState(e, currentTime, newHumanId, invitedBy, initNativeBalance);
    BalanceUpdatedValid(e, currentTime, invitedBy, -cost);
    if rb.Ok? && rb.value >= 0 {
      var e2 := Registered(e1, currentTime, newHumanId, Some(invitedBy), initNativeBalance);
      RegisteredValid(e1, currentTime, newHumanId, Some(invitedBy), initNativeBalance);
      TrustEstablishedValid(e2, currentTime, invitedBy, newHumanId, DEFAULT_TRUST_VALUE, DEFAULT_TRUST_DURATION);
    }
  }

  /** invite_human on a valid environment: it fails only for an unknown inviter or a
      negative result, and then writes nothing; on success the newcomer holds its own
      currency and the inviter's trust line to the newcomer exists. */
  lemma InvitedOutcome(e: Env, currentTime: int, newHumanId: Id, invitedBy: Id, initNativeBalance: int)
    requires Valid(e)
    ensures var out := Invited(e, currentTime, newHumanId, invitedBy, initNativeBalance);
      && (out.0.Err? ==> out.1 == e)
      && (out.0 == Err(UnknownHuman) <==> invitedBy !in e.balance)
      && (out.0 == Err(InsufficientForInvitation) <==>
            invitedBy in e.balance && SelfBalance(e.balance, invitedBy) < MulFixed(INVITATION_COST, EXA))
      && (out.0.Ok? ==> (
            && HasSelfBalance(out.1.balance, newHumanId)
            && SelfBalance(out.1.balance, newHumanId) == MulFixed(initNativeBalance, EXA)
            && TrustLine(out.1, invitedBy, newHumanId)))
  {
    BalanceUpdatedValid(e, currentTime, invitedBy, -MulFixed(INVITATION_COST, EXA));
  }

  lemma IssuanceRecordedValid(c: Curves, e: Env, h: Id, currentTime: int, issuance: int)
    requires Valid(e) && h in e.mints
    ensures Valid(IssuanceRecorded(c, e, h, currentTime, issuance).1)
  {
    var lastUpdatedDay := MaxOf(e.supply[h].Keys);
    var update := MintAndUpdateTotalSupply(c, e.supply[h][lastUpdatedDay], issuance, DaySinceDay0(currentTime), lastUpdatedDay);
    var e0 := WithMint(e, h, currentTime, MintEntry(update.0, issuance));
    WithMintValid(e, h, currentTime, MintEntry(update.0, issuance));
    var e1 := WithSupply(e0, h, currentTime, update.1);
    WithSupplyValid(e0, h, currentTime, update.1);
    BalanceUpdatedValid(e1, currentTime, h, issuance);
  }

  lemma MintedValid(c: Curves, e: Env, h: Id, currentTime: int)
    requires Valid(e)
    ensures Valid(Minted(c, e, h, currentTime).1)
  {
    if h in e.mints && CalculateIssuance(c, e.mints[h].Keys, currentTime).Ok? {
      IssuanceRecordedValid(c, e, h, currentTime, CalculateIssuance(c, e.mints[h].Keys, currentTime).value.amount);
    }
  }

  /** The writes of a claimed issuance on a valid environment: the mint and the
      ceiling-checked supply land at `currentTime`, the human's own balance is credited
      when the sum is positive, and nothing else changes. */
  lemma IssuanceRecordedOutcome(c: Curves, e: Env, h: Id, currentTime: int, issuance: int)
    requires Valid(e) && h in e.mints
    ensures var out := IssuanceRecorded(c, e, h, currentTime, issuance);
      var s := e.supply[h];
      var update := MintAndUpdateTotalSupply(c, Latest(s), issuance, DaySinceDay0(currentTime), MaxOf(s.Keys));
      && out.0 == Ok(Some(issuance))
      && out.1.mints == e.mints[h := e.mints[h][currentTime := MintEntry(update.0, issuance)]]
      && out.1.supply == e.supply[h := s[currentTime := update.1]]
      && out.1.balance == (if SelfBalance(e.balance, h) + issuance > 0
                           then WithSelfBalance(e, h, currentTime, SelfBalance(e.balance, h) + issuance).balance
                           else e.balance)
      && out.1.trusts == e.trusts && out.1.traits == e.traits && out.1.populationSize == e.populationSize
  {
    var s := e.supply[h];
    var update := MintAndUpdateTotalSupply(c, Latest(s), issuance, DaySinceDay0(currentTime), MaxOf(s.Keys));
    var e0 := WithMint(e, h, currentTime, MintEntry(update.0, issuance));
    var e1 := WithSupply(e0, h, currentTime, update.1);
    assert e1.balance == e.balance;
  }

  /** Hub.mint on a valid environment. Nothing changes unless an issuance is claimed,
      and a claimed issuance is positive and is what calculate_issuance computed. */
  lemma MintedOutcome(c: Curves, e: Env, h: Id, currentTime: int)
    requires Valid(e)
    ensures var out := Minted(c, e, h, currentTime);
      && (out.0.Err? || out.0 == Ok(None) ==> out.1 == e)
      && (out.0 == Err(MissingKey) <==> h !in e.mints)
      && (h in e.mints ==> (
            var iss := CalculateIssuance(c, e.mints[h].Keys, currentTime);
            && (out.0 == Ok(None) <==> iss.Ok? && iss.value.amount == 0)
            && (out.0.Err? <==> iss.Err?)
            && (out.0.Ok? && out.0.value.Some? ==>
                  iss.Ok? && out.0.value.value == iss.value.amount > 0 &&
                  out == IssuanceRecorded(c, e, h, currentTime, iss.value.amount))))
  {
    if h in e.mints && CalculateIssuance(c, e.mints[h].Keys, currentTime).Ok? {
      var i := CalculateIssuance(c, e.mints[h].Keys, currentTime).value.amount;
      if i != 0 {
        IssuanceRecordedOutcome(c, e, h, currentTime, i);
      }
    }
  }

  /** Minting twice at the same time claims nothing the second time. */
  lemma {:induction false} MintTwiceSameTime(c: Curves, e: Env, h: Id, currentTime: int)
    requires Valid(e) && h in e.mints
    requires forall t :: t in e.mints[h] ==> t <= currentTime
    ensures var first := Minted(c, e, h, currentTime);
      first.0.Ok? ==> Minted(c, first.1, h, currentTime) == (Ok(None), first.1)
  {
    var first := Minted(c, e, h, currentTime);
    MintedOutcome(c, e, h, currentTime);
    if first.0.Ok? && first.0.value.Some? {
      IssuanceRecordedOutcome(c, e, h, currentTime, first.0.value.value);
      var m := first.1.mints[h].Keys;
      assert currentTime in m;
      assert forall t :: t in m ==> t <= currentTime;
      assert MaxOf(m) == currentTime by {
        var x := MaxOf(m);
        assert x <= currentTime && currentTime <= x;
      }
      IssuanceZeroWithoutElapsedTime(c, m, currentTime);
    }
  }

  lemma BurnedValid(e: Env, h: Id, amount: int, currentTime: int)
    requires Valid(e)
    ensures Valid(Burned(e, h, amount, currentTime).1)
  {
    var out := Burned(e, h, amount, currentTime);
    var (rb, e1) := BalanceUpdated(e, currentTime, h, -amount);
    BalanceUpdatedValid(e, currentTime, h, -amount);
    if out.0.Ok? {
      WithSupplyValid(e1, h, currentTime, Latest(e1.supply[h]) - amount);
    }
  }

  /** Hub.burn on a valid environment: it fails exactly for an unknown human or a
      balance below `amount`, and then writes nothing; on success it returns the
      debited balance and the latest supply minus `amount`, which it stores
      undiscounted at `currentTime`. */
  lemma BurnedOutcome(e: Env, h: Id, amount: int, currentTime: int)
    requires Valid(e)
    ensures var out := Burned(e, h, amount, currentTime);
      && (out.0.Err? ==> out.1 == e)
      && (out.0.Err? <==> h !in e.balance || SelfBalance(e.balance, h) < amount)
      && (out.0 == Err(InsufficientForBurn) <==> h in e.balance && SelfBalance(e.balance, h) < amount)
      && (out.0.Ok? ==> (
            && out.0.value == (SelfBalance(e.balance, h) - amount, Latest(e.supply[h]) - amount)
            && out.1.supply == e.supply[h := e.supply[h][currentTime := Latest(e.supply[h]) - amount]]
            && out.1.balance == BalanceUpdated(e, currentTime, h, -amount).1.balance))
  {
  }

  /** Burning a human's whole balance leaves that balance in place: update_balance
      does not store the resulting zero. The supply still drops by `amount`. */
  lemma BurnWholeBalanceKeepsBalance(e: Env, h: Id, currentTime: int)
    requires Valid(e) && h in e.balance
    ensures var out := Burned(e, h, SelfBalance(e.balance, h), currentTime);
      && out.0.Ok?
      && out.1.balance == e.balance
      && (currentTime >= MaxOf(e.supply[h].Keys) ==>
            Latest(out.1.supply[h]) == Latest(e.supply[h]) - SelfBalance(e.balance, h))
  {
    var amount := SelfBalance(e.balance, h);
    BurnedOutcome(e, h, amount, currentTime);
    if currentTime >= MaxOf(e.supply[h].Keys) {
      LatestAfterWrite(e.supply[h], currentTime, Latest(e.supply[h]) - amount);
    }
  }

  /** Hub.transfer rejects, in this order and before any write: the same sender and
      receiver, a sender balance below `amount`, a missing trust line from the receiver
      to the sender, a line below `amount`, an expired line. */
  lemma TransferRejections(c: Curves, e: Env, senderId: Id, receiverId: Id, amount: int, currentTime: int)
    ensures var out := Transferred(c, e, senderId, receiverId, amount, currentTime);
      && (senderId == receiverId ==> out == (Err(SameSenderReceiver), e))
      && (senderId != receiverId && HasSelfBalance(e.balance, senderId) ==> (
            && (SelfBalance(e.balance, senderId) < amount ==> out == (Err(InsufficientForTransfer), e))
            && (SelfBalance(e.balance, senderId) >= amount && !TrustLine(e, receiverId, senderId) ==> out == (Err(NoTrust), e))
            && (SelfBalance(e.balance, senderId) >= amount && TrustLine(e, receiverId, senderId) ==> (
                  var line := e.trusts[receiverId][senderId];
                  && (line.amount < amount ==> out == (Err(ExceedsTrust), e))
                  && (line.amount >= amount && currentTime > line.createdAt + line.duration ==> out == (Err(TrustExpired), e))))))
  {
  }

  /** A write to one human's own series leaves every other human's holdings alone. */
  lemma WithSelfBalanceOthers(e: Env, h: Id, t: int, v: int, x: Id)
    requires h in e.balance && h in e.balance[h] && x != h
    ensures var e' := WithSelfBalance(e, h, t, v);
      (x in e'.balance <==> x in e.balance) && (x in e.balance ==> e'.balance[x] == e.balance[x])
  {
  }

  /** Moving the amount on a valid environment after the checks passed: it fails only
      for an unregistered receiver, returns the two new balances and keeps validity. */
  lemma BalancesMovedOutcome(e: Env, senderId: Id, receiverId: Id, amount: int, currentTime: int)
    requires Valid(e) && senderId in e.balance && senderId != receiverId
    ensures var out := BalancesMoved(e, senderId, receiverId, amount, currentTime);
      && (out.0.Ok? <==> receiverId in e.balance)
      && (out.0.Ok? ==> out.0.value == (SelfBalance(e.balance, senderId) - amount, SelfBalance(e.balance, receiverId) + amount))
      && Valid(out.1)
  {
    var (rs, e1) := BalanceUpdated(e, currentTime, senderId, -amount);
    BalanceUpdatedValid(e, currentTime, senderId, -amount);
    if rs.value > 0 {
      WithSelfBalanceOthers(e, senderId, currentTime, rs.value, receiverId);
    }
    BalanceUpdatedValid(e1, currentTime, receiverId, amount);
  }

  /** Refreshing the supplies of two registered humans succeeds and keeps validity. */
  lemma SuppliesRefreshedOutcome(c: Curves, e: Env, senderId: Id, receiverId: Id, currentTime: int)
    requires Valid(e) && senderId in e.balance && receiverId in e.balance
    ensures SuppliesRefreshed(c, e, senderId, receiverId, currentTime).0.Ok?
    ensures Valid(SuppliesRefreshed(c, e, senderId, receiverId, currentTime).1)
  {
    assert Known(e, senderId);
    var e1 := SupplyUpdated(c, e, senderId, currentTime).1;
    SupplyUpdatedValid(c, e, senderId, currentTime);
    assert Known(e1, receiverId);
    SupplyUpdatedValid(c, e1, receiverId, currentTime);
  }

  /** Hub.transfer on a valid environment succeeds exactly when every check passes and
      the receiver is registered; it then returns the sender's balance minus `amount`
      and the receiver's plus `amount`. */
  lemma TransferSucceeds(c: Curves, e: Env, senderId: Id, receiverId: Id, amount: int, currentTime: int)
    requires Valid(e)
    ensures var out := Transferred(c, e, senderId, receiverId, amount, currentTime);
      && (out.0.Ok? <==> TransferCheck(e, senderId, receiverId, amount, currentTime).None? && receiverId in e.balance)
      && (out.0.Ok? ==> out.0.value == (SelfBalance(e.balance, senderId) - amount, SelfBalance(e.balance, receiverId) + amount))
  {
    if TransferCheck(e, senderId, receiverId, amount, currentTime).None? {
      var e2 := BalancesMoved(e, senderId, receiverId, amount, currentTime).1;
      BalancesMovedOutcome(e, senderId, receiverId, amount, currentTime);
      if receiverId in e.balance {
        SuppliesRefreshedOutcome(c, e2, senderId, receiverId, currentTime);
      }
    }
  }

  lemma TransferValid(c: Curves, e: Env, senderId: Id, receiverId: Id, amount: int, currentTime: int)
    requires Valid(e)
    ensures Valid(Transferred(c, e, senderId, receiverId, amount, currentTime).1)
  {
    if TransferCheck(e, senderId, receiverId, amount, currentTime).None? {
      var e2 := BalancesMoved(e, senderId, receiverId, amount, currentTime).1;
      BalancesMovedOutcome(e, senderId, receiverId, amount, currentTime);
      if receiverId in e.balance {
        SuppliesRefreshedOutcome(c, e2, senderId, receiverId, currentTime);
      }
    }
  }

  lemma BalancesMovedTouches(e: Env, senderId: Id, receiverId: Id, amount: int, currentTime: int, hs: set<Id>)
    requires senderId in hs && receiverId in hs
    ensures TouchesOnly(e, BalancesMoved(e, senderId, receiverId, amount, currentTime).1, hs)
  {
    var e1 := BalanceUpdated(e, currentTime, senderId, -amount).1;
    BalanceUpdatedTouches(e, currentTime, senderId, -amount, hs);
    BalanceUpdatedTouches(e1, currentTime, receiverId, amount, hs);
    TouchesOnlyTrans(e, e1, BalanceUpdated(e1, currentTime, receiverId, amount).1, hs);
  }

  lemma SuppliesRefreshedTouches(c: Curves, e: Env, senderId: Id, receiverId: Id, currentTime: int, hs: set<Id>)
    requires senderId in hs && receiverId in hs
    ensures TouchesOnly(e, SuppliesRefreshed(c, e, senderId, receiverId, currentTime).1, hs)
    ensures SuppliesRefreshed(c, e, senderId, receiverId, currentTime).1.balance == e.balance
  {
    var e1 := SupplyUpdated(c, e, senderId, currentTime).1;
    SupplyUpdatedTouches(c, e, senderId, currentTime, hs);
    SupplyUpdatedTouches(c, e1, receiverId, currentTime, hs);
    TouchesOnlyTrans(e, e1, SupplyUpdated(c, e1, receiverId, currentTime).1, hs);
  }

  /** Hub.transfer touches only the sender's and receiver's own-currency series and
      supplies; trust lines, mints, traits and every other holding stay as they were. */
  lemma TransferFrame(c: Curves, e: Env, senderId: Id, receiverId: Id, amount: int, currentTime: int)
    ensures TouchesOnly(e, Transferred(c, e, senderId, receiverId, amount, currentTime).1, {senderId, receiverId})
  {
    var hs := {senderId, receiverId};
    if TransferCheck(e, senderId, receiverId, amount, currentTime).None? {
      var e2 := BalancesMoved(e, senderId, receiverId, amount, currentTime).1;
      BalancesMovedTouches(e, senderId, receiverId, amount, currentTime, hs);
      SuppliesRefreshedTouches(c, e2, senderId, receiverId, currentTime, hs);
      TouchesOnlyTrans(e, e2, SuppliesRefreshed(c, e2, senderId, receiverId, currentTime).1, hs);
    }
  }

  /** After a successful transfer the sender and the receiver are distinct, the
      sender's own series and the receiver's holdings are present. */
  lemma TransferredKeys(c: Curves, e: Env, senderId: Id, receiverId: Id, amount: int, currentTime: int)
    ensures var out := Transferred(c, e, senderId, receiverId, amount, currentTime);
      out.0.Ok? ==> (
        && senderId != receiverId
        && senderId in out.1.balance && senderId in out.1.balance[senderId]
        && receiverId in out.1.balance)
  {
    var out := Transferred(c, e, senderId, receiverId, amount, currentTime);
    TransferFrame(c, e, senderId, receiverId, amount, currentTime);
    if out.0.Ok? {
      var e1 := BalanceUpdated(e, currentTime, senderId, -amount).1;
      BalanceUpdatedTouches(e, currentTime, senderId, -amount, {senderId});
      assert BalanceUpdated(e1, currentTime, receiverId, amount).0.Ok?;
    }
  }

  /** Moving the amount at a time no earlier than both balances' latest entries makes
      the debited and the credited sums current -- unless a sum is zero or less, which
      is not stored, so that balance stays. */
  lemma BalancesMovedLatest(e: Env, senderId: Id, receiverId: Id, amount: int, currentTime: int)
    requires Valid(e) && senderId in e.balance && receiverId in e.balance && senderId != receiverId
    requires currentTime >= MaxOf(e.balance[senderId][senderId].Keys)
    requires currentTime >= MaxOf(e.balance[receiverId][receiverId].Keys)
    ensures var e' := BalancesMoved(e, senderId, receiverId, amount, currentTime).1;
      var debited := SelfBalance(e.balance, senderId) - amount;
      var credited := SelfBalance(e.balance, receiverId) + amount;
      && HasSelfBalance(e'.balance, senderId) && HasSelfBalance(e'.balance, receiverId)
      && SelfBalance(e'.balance, senderId) == (if debited > 0 then debited else SelfBalance(e.balance, senderId))
      && SelfBalance(e'.balance, receiverId) == (if credited > 0 then credited else SelfBalance(e.balance, receiverId))
  {
    var (rs, e1) := BalanceUpdated(e, currentTime, senderId, -amount);
    BalanceUpdatedValid(e, currentTime, senderId, -amount);
    if rs.value > 0 {
      WithSelfBalanceOthers(e, senderId, currentTime, rs.value, receiverId);
      LatestAfterWrite(e.balance[senderId][senderId], currentTime, rs.value);
    }
    var (rr, e2) := BalanceUpdated(e1, currentTime, receiverId, amount);
    if rr.value > 0 {
      WithSelfBalanceOthers(e1, receiverId, currentTime, rr.value, senderId);
      LatestAfterWrite(e1.balance[receiverId][receiverId], currentTime, rr.value);
    }
  }

  /** For a successful transfer at a time no earlier than both balances' latest
      entries, the sender's current balance drops by `amount` and the receiver's rises
      by it -- except that a result of zero or less is not stored, so that balance
      stays. */
  lemma TransferMovesAmount(c: Curves, e: Env, senderId: Id, receiverId: Id, amount: int, currentTime: int)
    requires Valid(e)
    requires Transferred(c, e, senderId, receiverId, amount, currentTime).0.Ok?
    requires currentTime >= MaxOf(e.balance[senderId][senderId].Keys)
    requires receiverId in e.balance && currentTime >= MaxOf(e.balance[receiverId][receiverId].Keys)
    ensures var e' := Transferred(c, e, senderId, receiverId, amount, currentTime).1;
      var debited := SelfBalance(e.balance, senderId) - amount;
      var credited := SelfBalance(e.balance, receiverId) + amount;
      && HasSelfBalance(e'.balance, senderId) && HasSelfBalance(e'.balance, receiverId)
      && SelfBalance(e'.balance, senderId) == (if debited > 0 then debited else SelfBalance(e.balance, senderId))
      && SelfBalance(e'.balance, receiverId) == (if credited > 0 then credited else SelfBalance(e.balance, receiverId))
  {
    TransferSucceeds(c, e, senderId, receiverId, amount, currentTime);
    var e2 := BalancesMoved(e, senderId, receiverId, amount, currentTime).1;
    BalancesMovedLatest(e, senderId, receiverId, amount, currentTime);
    SuppliesRefreshedKeepsBalance(c, e2, senderId, receiverId, currentTime);
    TransferredState(c, e, senderId, receiverId, amount, currentTime);
  }

  /** A successful transfer ends in the state of its two steps: the balances moved, then
      the supplies refreshed. */
  lemma TransferredState(c: Curves, e: Env, senderId: Id, receiverId: Id, amount: int, currentTime: int)
    requires Transferred(c, e, senderId, receiverId, amount, currentTime).0.Ok?
    ensures Transferred(c, e, senderId, receiverId, amount, currentTime).1 ==
      SuppliesRefreshed(c, BalancesMoved(e, senderId, receiverId, amount, currentTime).1, senderId, receiverId, currentTime).1
  {
    assert TransferCheck(e, senderId, receiverId, amount, currentTime).None?;
    assert Transferred(c, e, senderId, receiverId, amount, currentTime) == TransferApplied(c, e, senderId, receiverId, amount, currentTime);
  }

  /** Refreshing supplies leaves every balance alone. */
  lemma SuppliesRefreshedKeepsBalance(c: Curves, e: Env, senderId: Id, receiverId: Id, currentTime: int)
    ensures SuppliesRefreshed(c, e, senderId, receiverId, currentTime).1.balance == e.balance
  {
    var e1 := SupplyUpdated(c, e, senderId, currentTime).1;
    assert e1.balance == e.balance;
  }

  // ---------------------------------------------------------------------------------
  // Hub.transfer as written, with update_supply as written

  /** The issuer's latest supply entry is from a day before the day of `currentTime`:
      the case in which update_supply as written raises AttributeError. */
  predicate SupplyStale(e: Env, h: Id, currentTime: int)
  {
    h in e.supply && e.supply[h].Keys != {} && DaySinceDay0(currentTime) > DaySinceDay0(MaxOf(e.supply[h].Keys))
  }

  /** Hub.transfer as written: the same checks and balance moves, then update_supply as
      written for the sender and for the receiver. No supply is ever written, so
      whatever happens after the checks, the state is the one the balance moves left. */
  function TransferredAsWritten(e: Env, senderId: Id, receiverId: Id, amount: int, currentTime: int): (out: (Result<(int, int)>, Env))
    ensures TransferCheck(e, senderId, receiverId, amount, currentTime).Some? ==> out.1 == e
    ensures TransferCheck(e, senderId, receiverId, amount, currentTime).None? ==>
      out.1 == BalancesMoved(e, senderId, receiverId, amount, currentTime).1
  {
    match TransferCheck(e, senderId, receiverId, amount, currentTime)
    case Some(err) => (Err(err), e)
    case None =>
      var (moved, e2) := BalancesMoved(e, senderId, receiverId, amount, currentTime);
      if moved.Err? then (Err(moved.error), e2)
      else
        var senderSupply := SupplyUpdatedAsWritten(e2, senderId, currentTime).0;
        if senderSupply.Err? then (Err(senderSupply.error), e2)
        else
          var receiverSupply := SupplyUpdatedAsWritten(e2, receiverId, currentTime).0;
          if receiverSupply.Err? then (Err(receiverSupply.error), e2)
          else (Ok(moved.value), e2)
  }

  /** Moving balances writes no supply. */
  lemma BalancesMovedKeepsSupply(e: Env, senderId: Id, receiverId: Id, amount: int, currentTime: int)
    ensures BalancesMoved(e, senderId, receiverId, amount, currentTime).1.supply == e.supply
  {
    var e1 := BalanceUpdated(e, currentTime, senderId, -amount).1;
    assert e1.supply == e.supply;
  }

  /** A successful balance move leaves the sender's own series and the receiver's
      entry in place. */
  lemma BalancesMovedKeys(e: Env, senderId: Id, receiverId: Id, amount: int, currentTime: int)
    requires senderId != receiverId && senderId in e.balance && senderId in e.balance[senderId]
    ensures var out := BalancesMoved(e, senderId, receiverId, amount, currentTime);
      out.0.Ok? ==> senderId in out.1.balance && senderId in out.1.balance[senderId] && receiverId in out.1.balance
  {
    var e1 := BalanceUpdated(e, currentTime, senderId, -amount).1;
    assert senderId in e1.balance && senderId in e1.balance[senderId];
  }

  /** Apart from the AttributeError, update_supply as written and corrected agree. */
  lemma SupplyUpdatedAsWrittenAgrees(c: Curves, e: Env, h: Id, currentTime: int)
    ensures SupplyUpdatedAsWritten(e, h, currentTime).0 != Err(MissingAttribute) ==>
      SupplyUpdated(c, e, h, currentTime) == SupplyUpdatedAsWritten(e, h, currentTime)
  {
  }

  /** Apart from the AttributeError, Hub.transfer as written and corrected agree: same
      result, same state. */
  lemma TransferredAsWrittenAgrees(c: Curves, e: Env, senderId: Id, receiverId: Id, amount: int, currentTime: int)
    ensures TransferredAsWritten(e, senderId, receiverId, amount, currentTime).0 != Err(MissingAttribute) ==>
      TransferredAsWritten(e, senderId, receiverId, amount, currentTime) == Transferred(c, e, senderId, receiverId, amount, currentTime)
  {
    if TransferCheck(e, senderId, receiverId, amount, currentTime).None? {
      assert Transferred(c, e, senderId, receiverId, amount, currentTime) == TransferApplied(c, e, senderId, receiverId, amount, currentTime);
      var (moved, e2) := BalancesMoved(e, senderId, receiverId, amount, currentTime);
      if moved.Ok? {
        SupplyUpdatedAsWrittenAgrees(c, e2, senderId, currentTime);
        SupplyUpdatedAsWrittenAgrees(c, e2, receiverId, currentTime);
      }
    }
  }

  /** On a valid environment, once every check passes and the receiver is registered,
      Hub.transfer as written has moved both balances whatever it returns, and it
      raises AttributeError exactly when the sender's or the receiver's supply was last
      written on an earlier day. */
  lemma TransferAsWrittenRaisesAfterMove(e: Env, senderId: Id, receiverId: Id, amount: int, currentTime: int)
    requires Valid(e) && TransferCheck(e, senderId, receiverId, amount, currentTime).None? && receiverId in e.balance
    ensures var out := TransferredAsWritten(e, senderId, receiverId, amount, currentTime);
      && BalancesMoved(e, senderId, receiverId, amount, currentTime).0.Ok?
      && out.1 == BalancesMoved(e, senderId, receiverId, amount, currentTime).1
      && (out.0 == Err(MissingAttribute) <==> SupplyStale(e, senderId, currentTime) || SupplyStale(e, receiverId, currentTime))
  {
    BalancesMovedOutcome(e, senderId, receiverId, amount, currentTime);
    BalancesMovedKeepsSupply(e, senderId, receiverId, amount, currentTime);
    assert Known(e, senderId) && Known(e, receiverId);
  }

  // ---------------------------------------------------------------------------------
  // The classes: fields updated in place, each method proved to end in the state the
  // corresponding function above describes.

  class HumanEnvironment {
    var populationSize: int
    var traits: map<Id, Traits>
    var balance: Balances
    var supply: map<Id, Series>
    var trusts: map<Id, map<Id, Trust>>
    var mints: map<Id, map<int, MintEntry>>

    /** The dictionaries as a value. */
    function State(): Env
      reads this
    {
      Env(populationSize, traits, balance, supply, trusts, mints)
    }

    constructor()
      ensures State() == EMPTY
    {
      populationSize := 0;
      traits := map[];
      balance := map[];
      supply := map[];
      trusts := map[];
      mints := map[];
    }

    method AddHuman(humanId: Id, humanTraits: Traits, humanBalance: map<Id, Series>, humanSupply: Series, humanMints: map<int, MintEntry>)
      modifies this
      ensures State() == HumanAdded(old(State()), humanId, humanTraits, humanBalance, humanSupply, humanMints)
    {
      traits := traits[humanId := humanTraits];
      balance := balance[humanId := humanBalance];
      supply := supply[humanId := humanSupply];
      mints := mints[humanId := humanMints];
      populationSize := populationSize + 1;
    }

    method AddTrust(humanId: Id, trustingOnHumanId: Id, trustData: Trust)
      modifies this
      ensures State() == TrustAdded(old(State()), humanId, trustingOnHumanId, trustData)
    {
      if humanId !in trusts {
        trusts := trusts[humanId := map[]];
      }
      if trustingOnHumanId in trusts[humanId] {
        return;
      }
      trusts := trusts[humanId := trusts[humanId][trustingOnHumanId := trustData]];
    }

    method UpdateBalance(currentTime: int, humanId: Id, change: int) returns (r: Result<int>)
      modifies this
      ensures (r, State()) == BalanceUpdated(old(State()), currentTime, humanId, change)
    {
      if humanId !in balance {
        return Err(UnknownHuman);
      }
      if humanId !in balance[humanId] {
        return Err(MissingKey);
      }
      if balance[humanId][humanId].Keys == {} {
        return Err(EmptyMax);
      }
      var mostRecentDate := MaxOf(balance[humanId][humanId].Keys);
      var mostRecentBalance := balance[humanId][humanId][mostRecentDate];
      var newBalance := mostRecentBalance + change;
      if newBalance > 0 {
        balance := balance[humanId := balance[humanId][humanId := balance[humanId][humanId][currentTime := newBalance]]];
      }
      return Ok(newBalance);
    }
  }

  class Hub {
    const avatars: HumanEnvironment
    const curves: Curves

    constructor(environment: HumanEnvironment, curves: Curves)
      ensures avatars == environment && this.curves == curves
    {
      avatars := environment;
      this.curves := curves;
    }

    method RegisterHuman(createdAt: int, humanId: Id, invitedBy: Option<Id>, initNativeBalance: int)
      modifies avatars
      ensures avatars.State() == Registered(old(avatars.State()), createdAt, humanId, invitedBy, initNativeBalance)
    {
      var traits := Traits(invitedBy, createdAt);
      var initialBalance := map[humanId := map[createdAt := MulFixed(initNativeBalance, EXA)]];
      var initialSupply := map[createdAt := MulFixed(initNativeBalance, EXA)];
      var mints := map[createdAt := MintEntry(DaySinceDay0(createdAt), initNativeBalance * EXA)];
      avatars.AddHuman(humanId, traits, initialBalance, initialSupply, mints);
    }

    method EstablishTrusts(currentTime: int, humanId: Id, trustingOnHumanId: Id, value: int, trustDuration: int)
      modifies avatars
      ensures avatars.State() == TrustEstablished(old(avatars.State()), currentTime, humanId, trustingOnHumanId, value, trustDuration)
    {
      var trustData := Trust(currentTime, MulFixed(value, EXA), trustDuration);
      avatars.AddTrust(humanId, trustingOnHumanId, trustData);
    }

    method InviteHuman(currentTime: int, newHumanId: Id, invitedBy: Id, initNativeBalance: int) returns (r: Result<()>)
      modifies avatars
      ensures (r, avatars.State()) == Invited(old(avatars.State()), currentTime, newHumanId, invitedBy, initNativeBalance)
    {
      var newHostBalance := avatars.UpdateBalance(currentTime, invitedBy, -MulFixed(INVITATION_COST, EXA));
      if newHostBalance.Err? {
        return Err(newHostBalance.error);
      }
      if newHostBalance.value >= 0 {
        RegisterHuman(currentTime, newHumanId, Some(invitedBy), initNativeBalance);
        EstablishTrusts(currentTime, invitedBy, newHumanId, DEFAULT_TRUST_VALUE, DEFAULT_TRUST_DURATION);
        return Ok(());
      } else {
        return Err(InsufficientForInvitation);
      }
    }

    method Mint(humanId: Id, currentTime: int) returns (r: Result<Option<int>>)
      modifies avatars
      ensures (r, avatars.State()) == Minted(curves, old(avatars.State()), humanId, currentTime)
    {
      if humanId !in avatars.mints {
        return Err(MissingKey);
      }
      var mintTimes := avatars.mints[humanId].Keys;
      if humanId !in avatars.supply {
        return Err(MissingKey);
      }
      var supply := avatars.supply[humanId];
      var calculated := CalculateIssuance(curves, mintTimes, currentTime);
      if calculated.Err? {
        return Err(calculated.error);
      }
      var issuance := calculated.value.amount;
      if issuance == 0 {
        return Ok(None);
      }
      var currentDay := DaySinceDay0(currentTime);
      if supply.Keys == {} {
        return Err(EmptyMax);
      }
      var lastUpdatedDay := MaxOf(supply.Keys);
      var totalSupply := supply[lastUpdatedDay];
      var (newLastUpdatedDay, newTotalSupply) := MintAndUpdateTotalSupply(curves, totalSupply, issuance, currentDay, lastUpdatedDay);
      avatars.mints := avatars.mints[humanId := avatars.mints[humanId][currentTime := MintEntry(newLastUpdatedDay, issuance)]];
      avatars.supply := avatars.supply[humanId := avatars.supply[humanId][currentTime := newTotalSupply]];
      var credited := avatars.UpdateBalance(currentTime, humanId, issuance);
      if credited.Err? {
        return Err(credited.error);
      }
      return Ok(Some(issuance));
    }

    method Burn(humanId: Id, amount: int, currentTime: int) returns (r: Result<(int, int)>)
      modifies avatars
      ensures (r, avatars.State()) == Burned(old(avatars.State()), humanId, amount, currentTime)
    {
      if !(humanId in avatars.balance && humanId in avatars.balance[humanId]) {
        return Err(MissingKey);
      }
      if avatars.balance[humanId][humanId].Keys == {} {
        return Err(EmptyMax);
      }
      var currentBalance := avatars.balance[humanId][humanId][MaxOf(avatars.balance[humanId][humanId].Keys)];
      if currentBalance < amount {
        return Err(InsufficientForBurn);
      }
      var newBalance := avatars.UpdateBalance(currentTime, humanId, -amount);
      if humanId !in avatars.supply {
        return Err(MissingKey);
      }
      if avatars.supply[humanId].Keys == {} {
        return Err(EmptyMax);
      }
      var lastSupplyTime := MaxOf(avatars.supply[humanId].Keys);
      var currentSupply := avatars.supply[humanId][lastSupplyTime];
      var newSupply := currentSupply - amount;
      avatars.supply := avatars.supply[humanId := avatars.supply[humanId][currentTime := newSupply]];
      return Ok((newBalance.value, newSupply));
    }

    method Transfer(senderId: Id, receiverId: Id, amount: int, currentTime: int) returns (r: Result<(int, int)>)
      modifies avatars
      ensures (r, avatars.State()) == Transferred(curves, old(avatars.State()), senderId, receiverId, amount, currentTime)
    {
      if senderId == receiverId {
        return Err(SameSenderReceiver);
      }
      if !(senderId in avatars.balance && senderId in avatars.balance[senderId]) {
        return Err(MissingKey);
      }
      if avatars.balance[senderId][senderId].Keys == {} {
        return Err(EmptyMax);
      }
      var senderBalance := avatars.balance[senderId][senderId][MaxOf(avatars.balance[senderId][senderId].Keys)];
      if senderBalance < amount {
        return Err(InsufficientForTransfer);
      }
      if receiverId !in avatars.trusts || senderId !in avatars.trusts[receiverId] {
        return Err(NoTrust);
      }
      var trustData := avatars.trusts[receiverId][senderId];
      if trustData.amount < amount {
        return Err(ExceedsTrust);
      }
      if currentTime > trustData.createdAt + trustData.duration {
        return Err(TrustExpired);
      }
      var newSenderBalance := avatars.UpdateBalance(currentTime, senderId, -amount);
      assert newSenderBalance.Ok?;  // the sender's own series was found above
      var newReceiverBalance := avatars.UpdateBalance(currentTime, receiverId, amount);
      if newReceiverBalance.Err? {
        return Err(newReceiverBalance.error);
      }
      var senderSupply := UpdateSupply(senderId, currentTime);
      if senderSupply.Err? {
        return Err(senderSupply.error);
      }
      var receiverSupply := UpdateSupply(receiverId, currentTime);
      if receiverSupply.Err? {
        return Err(receiverSupply.error);
      }
      return Ok((newSenderBalance.value, newReceiverBalance.value));
    }

    method UpdateSupply(humanId: Id, currentTime: int) returns (r: Result<int>)
      modifies avatars
      ensures (r, avatars.State()) == SupplyUpdated(curves, old(avatars.State()), humanId, currentTime)
    {
      if humanId !in avatars.supply {
        return Err(MissingKey);
      }
      if avatars.supply[humanId].Keys == {} {
        return Err(EmptyMax);
      }
      var lastSupplyTime := MaxOf(avatars.supply[humanId].Keys);
      var lastSupply := avatars.supply[humanId][lastSupplyTime];
      var daysPassed := DaySinceDay0(currentTime) - DaySinceDay0(lastSupplyTime);
      if daysPassed > 0 {
        var newSupply := DiscountedBalance(curves, lastSupply, daysPassed);
        avatars.supply := avatars.supply[humanId := avatars.supply[humanId][currentTime := newSupply]];
        return Ok(newSupply);
      }
      return Ok(lastSupply);
    }
  }
}
