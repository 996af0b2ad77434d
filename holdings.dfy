/** The two read-only lookups the agent layer makes into the environment
    (ABM_simulation/agents.py): a holder's current amount of some currency, and the
    amount of a trust line. Both read a missing entry as 0 rather than raising. */
module Holdings {
  import opened Types
  import opened TimeSeries
  import opened FixedPoint
  import Hub

  /** The series of `currency` that `holder` keeps, if there is one with an entry. */
  predicate Holds(b: Hub.Balances, holder: Id, currency: Id)
  {
    holder in b && currency in b[holder] && b[holder][currency].Keys != {}
  }

  /** get_currency_balance: the entry at the largest timestamp of the holder's series of
      that currency, or 0 when the holder, the currency or every entry is missing. */
  function CurrencyBalance(b: Hub.Balances, holder: Id, currency: Id): (v: int)
    ensures Holds(b, holder, currency) ==>
      exists t :: t in b[holder][currency] && v == b[holder][currency][t] &&
        forall u :: u in b[holder][currency] ==> u <= t
    ensures !Holds(b, holder, currency) ==> v == 0
  {
    if Holds(b, holder, currency) then Latest(b[holder][currency]) else 0
  }

  /** get_trust_amount: the amount of the line truster -> trustee, or 0 without one. */
  function TrustAmount(trusts: map<Id, map<Id, Hub.Trust>>, truster: Id, trustee: Id): (a: int)
    ensures truster in trusts && trustee in trusts[truster] ==> a == trusts[truster][trustee].amount
    ensures !(truster in trusts && trustee in trusts[truster]) ==> a == 0
  {
    if truster in trusts && trustee in trusts[truster] then trusts[truster][trustee].amount else 0
  }

  /** A holder's own currency read through the agent layer is the Hub's self-balance,
      and an unregistered holder reads as 0 where the Hub would raise. */
  lemma OwnCurrencyIsSelfBalance(b: Hub.Balances, h: Id)
    ensures Hub.HasSelfBalance(b, h) ==> CurrencyBalance(b, h, h) == Hub.SelfBalance(b, h)
    ensures !Hub.HasSelfBalance(b, h) ==> CurrencyBalance(b, h, h) == 0
  {
  }

  /** A trust line the Hub establishes with the default value reads back as
      mul_fixed(100, EXA) = 5, unless a line was already there (first write wins). */
  lemma {:induction false} EstablishedTrustAmount(e: Hub.Env, currentTime: int, truster: Id, trustee: Id, duration: int)
    ensures var e' := Hub.TrustEstablished(e, currentTime, truster, trustee, Hub.DEFAULT_TRUST_VALUE, duration);
      && (Hub.TrustLine(e, truster, trustee) ==> TrustAmount(e'.trusts, truster, trustee) == TrustAmount(e.trusts, truster, trustee))
      && (!Hub.TrustLine(e, truster, trustee) ==> TrustAmount(e'.trusts, truster, trustee) == 5)
  {
    Hub.ScaledDefaults();
  }
}
