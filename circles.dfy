/** Issuance (circlesUBI/circles.py): how much a human may mint for the hours since the
    last mint, capped at two weeks, and how the issuer's total supply absorbs it. */
module Circles {
  import opened Types
  import opened TimeSeries
  import opened FixedPoint
  import opened Demurrage

  /** Fourteen days of hours. */
  const MAX_CLAIM_DURATION: int := 14 * 24
  const DAYS: int := 24
  const HOURS: int := 1

  /** The claim window: where it starts, the days of its two ends, and the hours of the
      start day already gone (`complete`) and of the current day still to come
      (`incomplete`). */
  datatype Window = Window(start: int, dA: int, dB: int, complete: int, incomplete: int)

  function Max(a: int, b: int): int { if a >= b then a else b }

  /** The window for a claim at `currentTime` after a last mint at `lastMint`. It covers
      the whole days from the start day to the current day, minus the hours before the
      start and the hours after now. */
  function ClaimWindow(lastMint: int, currentTime: int): (w: Window)
    ensures w.start == Max(currentTime - MAX_CLAIM_DURATION, lastMint)
    ensures w.dA == DaySinceDay0(w.start) && w.dB == DaySinceDay0(currentTime)
    ensures 0 <= w.complete < DAYS && 1 <= w.incomplete <= DAYS
    ensures w.start - w.complete == DAYS * w.dA
    ensures currentTime + w.incomplete == DAYS * (w.dB + 1)
    ensures (currentTime + w.incomplete) - (w.start - w.complete) == DAYS * (w.dB - w.dA + 1)
    ensures w.start <= currentTime ==> w.dB - w.dA >= 0
  {
    var start := Max(currentTime - MAX_CLAIM_DURATION, lastMint);
    var dA := DaySinceDay0(start);
    var dB := DaySinceDay0(currentTime);
    Window(start, dA, dB, (start - dA * DAYS) / HOURS, ((dB + 1) * DAYS - currentTime) / HOURS)
  }

  /** What calculate_issuance returns: the issuance and the claimable period. */
  datatype Issuance = Issuance(amount: int, periodStart: int, periodEnd: int)

  /** The fixed-point hours the formula counts twice: R(n) * complete + incomplete. */
  function Overcount(c: Curves, w: Window): (r: Result<int>)
    ensures r.Ok? <==> MIN_64x64 <= R(c, w.dB - w.dA) * w.complete + FromInt(w.incomplete) <= MAX_64x64
    ensures r.Ok? ==> r.value == R(c, w.dB - w.dA) * w.complete + FromInt(w.incomplete)
    ensures r.Err? ==> r.error == Overflow
  {
    MulFixedFromInt(w.complete, R(c, w.dB - w.dA));
    AddFixed(MulFixed(R(c, w.dB - w.dA), FromInt(w.complete)), FromInt(w.incomplete))
  }

  /** calculate_issuance. Raises ValueError on an empty mint history, OverflowError when
      the fixed-point add or sub leaves the 128-bit range, and NameError whenever the
      issuance is negative (the diagnostic print names an undefined `T`), so a
      returned issuance is never negative. The reported period is exactly the window. */
  function CalculateIssuance(c: Curves, mintTimes: set<int>, currentTime: int): (r: Result<Issuance>)
    ensures r == Err(EmptyMax) <==> mintTimes == {}
    ensures r.Ok? ==> (
      && mintTimes != {}
      && var w := ClaimWindow(MaxOf(mintTimes), currentTime);
         var n := w.dB - w.dA;
         && r.value.periodStart == w.start
         && r.value.periodEnd == currentTime
         && r.value.amount >= 0
         && r.value.amount == MulFixed(T(c, n) - (R(c, n) * w.complete + FromInt(w.incomplete)), EXA))
    ensures r.Err? ==> r.error in {EmptyMax, Overflow, UndefinedName}
    ensures r == Err(UndefinedName) ==> (
      && mintTimes != {}
      && var w := ClaimWindow(MaxOf(mintTimes), currentTime);
         var n := w.dB - w.dA;
         MulFixed(T(c, n) - (R(c, n) * w.complete + FromInt(w.incomplete)), EXA) < 0)
  {
    if mintTimes == {} then Err(EmptyMax)
    else
      var lastMintTime := MaxOf(mintTimes);
      var w := ClaimWindow(lastMintTime, currentTime);
      var n := w.dB - w.dA;
      var completeHours := FromInt(w.complete);
      var incompleteHours := FromInt(w.incomplete);
      match Overcount(c, w)
      case Err(e) => Err(e)
      case Ok(overcount) =>
        match SubFixed(T(c, n), overcount)
        case Err(e) => Err(e)
        case Ok(diff) =>
          var issuance := MulFixed(diff, EXA);
          MulFixedFromInt(w.complete, HOURS);
          MulFixedFromInt(w.incomplete, HOURS);
          var claimablePeriodStart := w.dA * DAYS + MulFixed(completeHours, HOURS);
          var claimablePeriodEnd := w.dB * DAYS + DAYS - MulFixed(incompleteHours, HOURS);
          if issuance < 0 then Err(UndefinedName)
          else Ok(Issuance(issuance, claimablePeriodStart, claimablePeriodEnd))
  }

  /** When there is a last mint, `calculate_issuance` fails with an overflow exactly when
      the overcount or the difference `T(n) - overcount` leaves the signed 64.64 range;
      otherwise it succeeds exactly when the scaled issuance is not negative, and the
      negative case is the `NameError` of its diagnostic branch. */
  lemma CalculateIssuanceOutcome(c: Curves, mintTimes: set<int>, currentTime: int)
    requires mintTimes != {}
    ensures var r := CalculateIssuance(c, mintTimes, currentTime);
      var w := ClaimWindow(MaxOf(mintTimes), currentTime);
      var n := w.dB - w.dA;
      var overcount := R(c, n) * w.complete + FromInt(w.incomplete);
      var inRange := MIN_64x64 <= overcount <= MAX_64x64 && MIN_64x64 <= T(c, n) - overcount <= MAX_64x64;
      && (r == Err(Overflow) <==> !inRange)
      && (inRange ==> (r.Ok? <==> MulFixed(T(c, n) - overcount, EXA) >= 0))
      && (inRange && r.Err? ==> r.error == UndefinedName)
  {
    var w := ClaimWindow(MaxOf(mintTimes), currentTime);
    var oc := Overcount(c, w);
    if oc.Ok? {
      var d := SubFixed(T(c, w.dB - w.dA), oc.value);
    }
  }

  /** Claiming again in the same hour as the last mint yields nothing: the window is
      empty, R(0) counts the start day's elapsed hours once, and T(0) is the 24 hours
      of that day. */
  lemma {:induction false} IssuanceZeroWithoutElapsedTime(c: Curves, mintTimes: set<int>, currentTime: int)
    requires mintTimes != {} && MaxOf(mintTimes) == currentTime
    ensures CalculateIssuance(c, mintTimes, currentTime) == Ok(Issuance(0, currentTime, currentTime))
  {
    var w := ClaimWindow(currentTime, currentTime);
    assert w.start == currentTime && w.dA == w.dB;
    assert w.complete + w.incomplete == 24;
    MulFixedFromInt(w.complete, ONE);
    assert Overcount(c, w) == Ok(FromInt(24));
    MulFixedZero(EXA);
    assert MulFixed(0, EXA) == 0;
  }

  /** mint_and_update_total_supply: the supply, discounted from `lastUpdatedDay` to
      `currentDay`, plus the issuance, stamped with `currentDay` -- unless that total
      would pass MAX_VALUE, in which case the issuance is forfeited and the old pair is
      returned unchanged. */
  function MintAndUpdateTotalSupply(c: Curves, balance: int, issuance: int, currentDay: int, lastUpdatedDay: int): (r: (int, int))
    ensures var total := DiscountedBalance(c, balance, currentDay - lastUpdatedDay) + issuance;
      && (total <= MAX_VALUE ==> r == (currentDay, total))
      && (total > MAX_VALUE ==> r == (lastUpdatedDay, balance))
    ensures r.1 <= MAX_VALUE || r == (lastUpdatedDay, balance)
    ensures currentDay == lastUpdatedDay && balance + issuance <= MAX_VALUE ==> r == (currentDay, balance + issuance)
  {
    var dayDiff := currentDay - lastUpdatedDay;
    var newTotalSupply := DiscountedBalance(c, balance, dayDiff) + issuance;
    if newTotalSupply <= MAX_VALUE then (currentDay, newTotalSupply) else (lastUpdatedDay, balance)
  }

  /** claim_issuance: no claim (None) when the issuance is zero; otherwise the new
      (day, supply) pair and the issuance. The supply's latest timestamp is passed as
      its "last updated day". */
  function ClaimIssuance(c: Curves, mintTimes: set<int>, supply: map<int, int>, currentTime: int): (r: Result<Option<(int, int, int)>>)
    ensures CalculateIssuance(c, mintTimes, currentTime).Err? ==> r == Err(CalculateIssuance(c, mintTimes, currentTime).error)
    ensures r == Ok(None) <==> CalculateIssuance(c, mintTimes, currentTime).Ok? && CalculateIssuance(c, mintTimes, currentTime).value.amount == 0
    ensures CalculateIssuance(c, mintTimes, currentTime).Ok? && CalculateIssuance(c, mintTimes, currentTime).value.amount != 0 ==>
      && (r.Ok? <==> supply.Keys != {})
      && (r.Ok? ==> r.value.Some?)
      && (r.Err? ==> r.error == EmptyMax)
    ensures r.Ok? && r.value.Some? ==>
      && supply.Keys != {}
      && r.value.value.2 > 0
      && r.value.value.2 == CalculateIssuance(c, mintTimes, currentTime).value.amount
      && (r.value.value.0, r.value.value.1) == MintAndUpdateTotalSupply(c, supply[MaxOf(supply.Keys)], r.value.value.2, currentTime / DAYS, MaxOf(supply.Keys))
  {
    match CalculateIssuance(c, mintTimes, currentTime)
    case Err(e) => Err(e)
    case Ok(iss) =>
      if iss.amount == 0 then Ok(None)
      else if supply.Keys == {} then Err(EmptyMax)
      else
        var currentDay := currentTime / DAYS;
        var lastUpdatedDay := MaxOf(supply.Keys);
        var totalSupply := supply[lastUpdatedDay];
        var (newLastUpdatedDay, newTotalSupply) := MintAndUpdateTotalSupply(c, totalSupply, iss.amount, currentDay, lastUpdatedDay);
        Ok(Some((newLastUpdatedDay, newTotalSupply, iss.amount)))
  }
}
