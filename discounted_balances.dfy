/** Per-circle discounted balances (circlesUBI/discounted_balances.py). Each
    (circle, account) pair has a record {balance, last_updated_day}; the Python store is
    a nested defaultdict, so an untouched pair reads as balance 0 on day 0, and even a
    read inserts that default record. */
module DiscountedBalances {
  import opened Types
  import opened FixedPoint
  import opened Demurrage

  datatype BalanceRecord = BalanceRecord(balance: int, lastUpdatedDay: int)

  /** The record a defaultdict creates on first access. */
  const DEFAULT: BalanceRecord := BalanceRecord(0, 0)

  /** The nested store after a defaultdict access to [circle][account]. */
  function Touch(store: map<Id, map<Id, BalanceRecord>>, circle: Id, account: Id): (s: map<Id, map<Id, BalanceRecord>>)
    ensures circle in s && account in s[circle]
    ensures s[circle][account] == (if circle in store && account in store[circle] then store[circle][account] else DEFAULT)
    ensures forall c, a :: c in store && a in store[c] ==> c in s && a in s[c] && s[c][a] == store[c][a]
    ensures forall c, a :: c in s && a in s[c] ==> (c in store && a in store[c]) || (c == circle && a == account)
  {
    var inner := if circle in store then store[circle] else map[];
    if account in inner then store else store[circle := inner[account := DEFAULT]]
  }

  /** The balance of a record on a later day, and what demurrage took from it. Raises
      for a day before the record's last update. On the day of the update nothing is
      taken. */
  function BalanceOnDay(c: Curves, rec: BalanceRecord, day: int): (r: Result<(int, int)>)
    ensures r.Err? <==> day < rec.lastUpdatedDay
    ensures r.Err? ==> r.error == DayBeforeLastUpdate
    ensures r.Ok? ==> r.value.0 == DiscountedBalance(c, rec.balance, day - rec.lastUpdatedDay)
    ensures r.Ok? ==> r.value.0 + r.value.1 == rec.balance
    ensures day == rec.lastUpdatedDay ==> r == Ok((rec.balance, 0))
  {
    if day < rec.lastUpdatedDay then Err(DayBeforeLastUpdate)
    else
      var dayDifference := day - rec.lastUpdatedDay;
      var balanceOnDay := DiscountedBalance(c, rec.balance, dayDifference);
      var discountCost := rec.balance - balanceOnDay;
      Ok((balanceOnDay, discountCost))
  }

  /** The record after discounting it to `day` and adding `value`. Raises, before any
      write, for a day before the last update or a result above MAX_VALUE. On the day
      of the last update the value is added exactly. */
  function DiscountAndAdd(c: Curves, rec: BalanceRecord, value: int, day: int): (r: Result<BalanceRecord>)
    ensures day < rec.lastUpdatedDay ==> r == Err(DayBeforeLastUpdate)
    ensures day >= rec.lastUpdatedDay ==>
      var updated := DiscountedBalance(c, rec.balance, day - rec.lastUpdatedDay) + value;
      r == if updated > MAX_VALUE then Err(AboveMaxValue) else Ok(BalanceRecord(updated, day))
    ensures r.Ok? ==> r.value.balance <= MAX_VALUE && r.value.lastUpdatedDay == day
    ensures day == rec.lastUpdatedDay && rec.balance + value <= MAX_VALUE ==> r == Ok(BalanceRecord(rec.balance + value, day))
  {
    if day < rec.lastUpdatedDay then Err(DayBeforeLastUpdate)
    else
      var dayDifference := day - rec.lastUpdatedDay;
      var discountedBalanceOnDay := DiscountedBalance(c, rec.balance, dayDifference);
      var updatedBalance := discountedBalanceOnDay + value;
      if updatedBalance > MAX_VALUE then Err(AboveMaxValue)
      else Ok(BalanceRecord(updatedBalance, day))
  }

  /** The DiscountedBalanceManager object. */
  class DiscountedBalanceManager {
    const curves: Curves
    /** circle -> account -> record */
    var discountedBalances: map<Id, map<Id, BalanceRecord>>
    /** circle -> supply record */
    var discountedTotalSupplies: map<Id, BalanceRecord>
    var inflationDayZero: int

    /** The record of a pair as the defaultdict would show it. */
    function Get(circle: Id, account: Id): (rec: BalanceRecord)
      reads this
      ensures !(circle in discountedBalances && account in discountedBalances[circle]) ==> rec == DEFAULT
    {
      if circle in discountedBalances && account in discountedBalances[circle]
      then discountedBalances[circle][account] else DEFAULT
    }

    function SupplyRecord(circle: Id): BalanceRecord
      reads this
    {
      if circle in discountedTotalSupplies then discountedTotalSupplies[circle] else DEFAULT
    }

    /** No method ever writes a supply record: every one is the default. */
    ghost predicate Valid()
      reads this
    {
      forall circle :: circle in discountedTotalSupplies ==> discountedTotalSupplies[circle] == DEFAULT
    }

    constructor (c: Curves)
      ensures Valid()
      ensures curves == c && discountedBalances == map[] && discountedTotalSupplies == map[] && inflationDayZero == 0
    {
      curves := c;
      discountedBalances := map[];
      discountedTotalSupplies := map[];
      inflationDayZero := 0;
    }

    /** set_inflation_day_zero records the timestamp; no computation reads it. */
    method SetInflationDayZero(timestamp: int)
      modifies this`inflationDayZero
      ensures inflationDayZero == timestamp
    {
      inflationDayZero := timestamp;
    }

    /** balance_of_on_day. */
    method BalanceOfOnDay(account: Id, circle: Id, day: int) returns (r: Result<(int, int)>)
      modifies this`discountedBalances
      ensures discountedBalances == Touch(old(discountedBalances), circle, account)
      ensures r == BalanceOnDay(curves, old(Get(circle, account)), day)
    {
      discountedBalances := Touch(discountedBalances, circle, account);
      var discountedBalance := discountedBalances[circle][account];
      if day < discountedBalance.lastUpdatedDay {
        return Err(DayBeforeLastUpdate);
      }
      var dayDifference := day - discountedBalance.lastUpdatedDay;
      var balanceOnDay := DiscountedBalance(curves, discountedBalance.balance, dayDifference);
      var discountCost := discountedBalance.balance - balanceOnDay;
      r := Ok((balanceOnDay, discountCost));
    }

    /** total_supply: the circle's supply record discounted to the day of `time`. Since
        no supply record is ever written, this is always zero. */
    method TotalSupply(time: int, circle: Id) returns (r: int)
      requires Valid()
      modifies this`discountedTotalSupplies
      ensures Valid()
      ensures discountedTotalSupplies == old(discountedTotalSupplies)[circle := old(SupplyRecord(circle))]
      ensures r == DiscountedBalance(curves, old(SupplyRecord(circle)).balance, DaySinceDay0(time) - old(SupplyRecord(circle)).lastUpdatedDay)
      ensures r == 0
    {
      if circle !in discountedTotalSupplies {
        discountedTotalSupplies := discountedTotalSupplies[circle := DEFAULT];
      }
      var totalSupplyBalance := discountedTotalSupplies[circle];
      var today := DaySinceDay0(time);
      DiscountedZero(curves, today - totalSupplyBalance.lastUpdatedDay);
      r := DiscountedBalance(curves, totalSupplyBalance.balance, today - totalSupplyBalance.lastUpdatedDay);
    }

    /** inflationary_balance_of: the pair's balance grown back by beta^last_updated_day. */
    method InflationaryBalanceOf(account: Id, circle: Id) returns (r: int)
      modifies this`discountedBalances
      ensures discountedBalances == Touch(old(discountedBalances), circle, account)
      ensures r == InflationaryBalance(curves, old(Get(circle, account)).balance, old(Get(circle, account)).lastUpdatedDay)
    {
      discountedBalances := Touch(discountedBalances, circle, account);
      var discountedBalance := discountedBalances[circle][account];
      r := InflationaryBalance(curves, discountedBalance.balance, discountedBalance.lastUpdatedDay);
    }

    /** update_balance: overwrite a pair's record. Raises, writing nothing, above
        MAX_VALUE; the day is not checked against the last update. */
    method UpdateBalance(account: Id, circle: Id, balance: int, day: int) returns (r: Result<()>)
      modifies this`discountedBalances
      ensures r.Err? <==> balance > MAX_VALUE
      ensures r.Err? ==> r.error == AboveMaxValue && discountedBalances == old(discountedBalances)
      ensures r.Ok? ==> discountedBalances == Touch(old(discountedBalances), circle, account)[circle := Touch(old(discountedBalances), circle, account)[circle][account := BalanceRecord(balance, day)]]
      ensures r.Ok? ==> Get(circle, account) == BalanceRecord(balance, day)
      ensures r.Ok? ==> forall c, a :: (c, a) != (circle, account) ==> Get(c, a) == old(Get(c, a))
    {
      if balance > MAX_VALUE {
        return Err(AboveMaxValue);
      }
      discountedBalances := Touch(discountedBalances, circle, account);
      discountedBalances := discountedBalances[circle := discountedBalances[circle][account := BalanceRecord(balance, day)]];
      r := Ok(());
    }

    /** discount_and_add_to_balance: discount the pair to `day`, add `value`, store. The
        read that starts it inserts the default record even when it then raises. */
    method DiscountAndAddToBalance(account: Id, circle: Id, value: int, day: int) returns (r: Result<()>)
      modifies this`discountedBalances
      ensures var res := DiscountAndAdd(curves, old(Get(circle, account)), value, day);
        && (res.Err? ==> r == Err(res.error) && discountedBalances == Touch(old(discountedBalances), circle, account))
        && (res.Ok? ==> r == Ok(()) && Get(circle, account) == res.value)
      ensures r.Ok? ==> forall c, a :: (c, a) != (circle, account) ==> Get(c, a) == old(Get(c, a))
    {
      discountedBalances := Touch(discountedBalances, circle, account);
      var discountedBalance := discountedBalances[circle][account];
      if day < discountedBalance.lastUpdatedDay {
        return Err(DayBeforeLastUpdate);
      }
      var dayDifference := day - discountedBalance.lastUpdatedDay;
      var discountedBalanceOnDay := DiscountedBalance(curves, discountedBalance.balance, dayDifference);
      var updatedBalance := discountedBalanceOnDay + value;
      if updatedBalance > MAX_VALUE {
        return Err(AboveMaxValue);
      }
      discountedBalances := discountedBalances[circle := discountedBalances[circle][account := BalanceRecord(updatedBalance, day)]];
      r := Ok(());
    }
  }
}
