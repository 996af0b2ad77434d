# circlesUBI ledger core in Dafny

This project models the ledger and routing core of the circlesUBI simulation. The
simulation studies a universal basic income: every human mints a personal token each
hour, and the tokens decay daily through demurrage. Humans trust each other's tokens up
to a limit, and a payment travels as a chain of hops along trust lines.

The model covers these parts:

- **Fixed point** (`FixedPoint`). 64.64 values are integers scaled by 2^64. The module
  has the truncating `mul_fixed` and the overflow-checked add and sub. Fixed-point
  values are unbounded `int`s. `pow_fixed` returns a Decimal fraction, so its result is
  a `real`, and `mul_fixed` has a second form for such a fractional factor.
- **Demurrage** (`Demurrage`):
  - day bucketing, where a day is 24 hourly timestamps;
  - the discount and inflation factors;
  - the issuance curves T and R.
- **Issuance** (`Circles`):
  - the claim window, capped at 14 days;
  - the issuance formula;
  - the supply-ceiling rule of a mint.
- **Discounted balances** (`DiscountedBalances`). The `DiscountedBalanceManager`
  class keeps per-(circle, account) records. Every read inserts a default record, as
  Python's defaultdict does.
- **The human environment and the Hub** (`Hub`):
  - balances, supplies and mint histories are series keyed by timestamp, and the
    current value is the one at the largest key;
  - trust lines, where the first write wins;
  - the operations register, invite, trust, mint, burn, transfer and update_supply,
    each with its checks in source order.

  Each operation is first a function from the environment before to a result and the
  environment after. The `HumanEnvironment` and `Hub` classes update their fields step
  by step, and each method is proved to end in exactly that function's state.
- **Holdings and path selection** (`Holdings`, `PathFinder`):
  - the agent's read-only lookups;
  - the bottleneck of a path;
  - the choice of the optimal path among candidate paths.

  The candidate paths are an input. A predicate states what the graph library's
  enumeration returns.
- **The hub agent** (`Agents`):
  - the id counter and the mint counters;
  - the multi-hop transfer loop, including its own second debit of the sender;
  - the transaction log and the totals read from it.

Python exceptions become the `Err` side of a `Result`. Each constructor of
`Types.Error` stands for one exception the code raises.

Some behaviours of the code are easy to miss, and the model keeps each of them:

- Registering an existing id overwrites it and counts the human again.
- A registration seeds `mul_fixed(50, EXA) = 2`, not `50 * EXA`.
- An invitation costs `mul_fixed(10, EXA) = 0`.
- A default trust line allows `mul_fixed(100, EXA) = 5`.
- `update_balance` stores only strictly positive results.
- The agent's transfer debits the sender a second time after `Hub.transfer`.
- The agent walks a path from the receiver's end, so each hop pays from the node nearer
  the receiver to the node nearer the sender. Each hop is bounded by the trust line
  opposite to the graph edge the path followed, so only mutual trust carries value.

## Model

| member | source | states |
|---|---|---|
| FixedPoint.FromIntInRange | circlesUBI/utils/math.py:6-7 | from_int(x) lies within [MIN_64x64, MAX_64x64] iff x is a signed 64-bit integer, -2^63 <= x <= 2^63 - 1 |
| FixedPoint.ToDecimalFromInt | circlesUBI/utils/math.py:11-17 | int128_to_decimal(from_int(x)) == x for every integer x |
| FixedPoint.TruncateScale | circlesUBI/utils/math.py:29-31 | int() of p / 2^64 truncates toward zero: q is floor(p/2^64) for p >= 0 and ceil(p/2^64) for p < 0 |
| FixedPoint.MulFixed | circlesUBI/utils/math.py:27-31 | mul_fixed(x, y) is x*y / 2^64 truncated toward zero, bounded on both sides by multiples of 2^64 |
| FixedPoint.TruncateScaleExact | circlesUBI/utils/math.py:29-31 | an exact multiple k * 2^64 truncates to k |
| FixedPoint.MulFixedFromInt | circlesUBI/utils/math.py:27-31 | mul_fixed(from_int(a), b) == a*b in either argument order |
| FixedPoint.MulFixedOne | circlesUBI/utils/math.py:27-31 | the fixed-point one, 2^64, is neutral for mul_fixed |
| FixedPoint.MulFixedZero | circlesUBI/utils/math.py:27-31 | mul_fixed(x, 0) == 0 |
| FixedPoint.TruncateReal | circlesUBI/utils/math.py:31 | int() of a Decimal truncates toward zero: the result is within 1 of the value, on the side of zero |
| FixedPoint.MulFixedDecimal | circlesUBI/utils/math.py:27-31 | mul_fixed of a fractional factor x: x*y/2^64 truncated toward zero, the form pow_fixed's fractional result goes through |
| FixedPoint.MulFixedDecimalOfInt | circlesUBI/utils/math.py:27-31 | on an integer factor the fractional form equals the integer mul_fixed |
| FixedPoint.MulFixedDecimalZero | circlesUBI/utils/math.py:27-31 | a zero balance times any fractional factor is 0 |
| FixedPoint.AddFixed | circlesUBI/utils/math.py:33-38 | succeeds iff x+y lies in [MIN_64x64, MAX_64x64], and then returns exactly x+y; otherwise OverflowError |
| FixedPoint.SubFixed | circlesUBI/utils/math.py:40-45 | succeeds iff x-y lies in range, and then returns exactly x-y; otherwise OverflowError |
| FixedPoint.PowFixed | circlesUBI/utils/math.py:19-25 | any non-zero base to the power 0 is exactly the fixed-point one |
| Demurrage.DaySinceDay0 | circlesUBI/demurrage.py:23-25 | the day d of a time t satisfies 24*d <= t < 24*(d+1), which is floor division by 24 |
| Demurrage.DaySinceDay0Monotone | circlesUBI/demurrage.py:23-25 | later times never fall in earlier days |
| Demurrage.DaySinceDay0Unique | circlesUBI/demurrage.py:23-25 | the day is the only one whose 24-hour window holds the time |
| Demurrage.DemurrageFactor | circlesUBI/demurrage.py:31-32 | gamma^0 is exactly one |
| Demurrage.DiscountedBalance | circlesUBI/demurrage.py:38-42 | a zero-day discount returns the balance itself, and the shortcut agrees with mul_fixed(gamma^d, b) for every d, with gamma^d the fractional Decimal power |
| Demurrage.DiscountedZero | circlesUBI/demurrage.py:38-42 | a zero balance stays zero after any number of days |
| Demurrage.ConvertInflationaryToDemurrageValue | circlesUBI/demurrage.py:27-29 | computes the same value as calculate_discounted_balance |
| Demurrage.InflationaryBalance | circlesUBI/demurrage.py:34-36 | on day zero the inflationary balance is the balance itself |
| Demurrage.T | circlesUBI/demurrage.py:44-50 | T(0) is 24 whole units |
| Demurrage.R | circlesUBI/demurrage.py:52-55 | R(0) is one whole unit |
| Circles.ClaimWindow | circlesUBI/circles.py:25-34 | start = max(now - 336, last mint); the complete hours are in [0,24) and the incomplete hours in [1,24]; the window spans whole days from dA to dB; dB - dA >= 0 when start <= now |
| Circles.Overcount | circlesUBI/circles.py:36 | succeeds iff R(n) * complete_hours + from_int(incomplete_hours) lies in [MIN_64x64, MAX_64x64], and then is exactly that sum; otherwise OverflowError |
| Circles.CalculateIssuance | circlesUBI/circles.py:23-50 | ValueError exactly for no mint times. A returned issuance is mul_fixed(T(n) - overcount, EXA), never negative, over the period [start_mint, now]. A negative issuance raises NameError, and the only other error is OverflowError |
| Circles.CalculateIssuanceOutcome | circlesUBI/circles.py:23-50 | with a last mint: OverflowError iff the overcount or T(n) - overcount leaves [MIN_64x64, MAX_64x64]; within range, success iff mul_fixed(T(n) - overcount, EXA) >= 0, and NameError otherwise |
| Circles.IssuanceZeroWithoutElapsedTime | circlesUBI/circles.py:33-37 | claiming at the time of the last mint issues 0 over the empty period [now, now] |
| Circles.MintAndUpdateTotalSupply | circlesUBI/circles.py:52-60 | returns (current_day, discounted + issuance) when that is at most MAX_VALUE, and otherwise the old (day, supply) unchanged; on the same day it adds the issuance exactly |
| Circles.ClaimIssuance | circlesUBI/circles.py:62-72 | errors propagate; None iff the issuance is 0; a non-zero issuance succeeds iff the supply has an entry, and raises ValueError from max() otherwise; a success is the positive issuance with the ceiling-checked supply update from the latest supply entry |
| DiscountedBalances.Touch | circlesUBI/discounted_balances.py:6-7 | a defaultdict access creates only the accessed record, as (0, 0), and keeps every other record |
| DiscountedBalances.BalanceOnDay | circlesUBI/discounted_balances.py:14-23 | raises iff day < last_updated_day; otherwise the discounted balance and the discount cost sum to the stored balance; on the same day the result is (balance, 0) |
| DiscountedBalances.DiscountAndAdd | circlesUBI/discounted_balances.py:47-65 | raises for an earlier day or for a result above MAX_VALUE; otherwise the record (discounted + value, day); on the same day it adds the value exactly |
| DiscountedBalances.DiscountedBalanceManager.Get | circlesUBI/discounted_balances.py:6-7 | an untouched pair reads as balance 0 on day 0 |
| DiscountedBalances.DiscountedBalanceManager.constructor | circlesUBI/discounted_balances.py:5-9 | both stores are empty and day zero is 0 |
| DiscountedBalances.DiscountedBalanceManager.SetInflationDayZero | circlesUBI/discounted_balances.py:11-12 | stores the timestamp and nothing else |
| DiscountedBalances.DiscountedBalanceManager.BalanceOfOnDay | circlesUBI/discounted_balances.py:14-23 | returns BalanceOnDay of the pair's record, and its only write is the default record the read inserts |
| DiscountedBalances.DiscountedBalanceManager.TotalSupply | circlesUBI/discounted_balances.py:25-31 | the supply record discounted to the day of `time`; no supply is ever written, so the result is always 0 |
| DiscountedBalances.DiscountedBalanceManager.InflationaryBalanceOf | circlesUBI/discounted_balances.py:33-38 | calculate_inflationary_balance of the pair's balance and last-updated day |
| DiscountedBalances.DiscountedBalanceManager.UpdateBalance | circlesUBI/discounted_balances.py:40-45 | raises iff balance > MAX_VALUE and then writes nothing; otherwise sets exactly that pair's record, and every other pair reads as before |
| DiscountedBalances.DiscountedBalanceManager.DiscountAndAddToBalance | circlesUBI/discounted_balances.py:47-65 | ends as DiscountAndAdd says; on an error only the default record is inserted; every other pair reads as before |
| TimeSeries.MaxOf | circlesUBI/hub.py:41 | max() of a non-empty set of timestamps is a member and bounds every member |
| TimeSeries.Latest | circlesUBI/hub.py:41-42 | the current value is the one at the largest timestamp |
| TimeSeries.LatestAfterWrite | circlesUBI/hub.py:44-46 | a write at a time no earlier than every key becomes current; a write at an earlier time leaves the current value alone |
| Hub.EmptyValid | circlesUBI/hub.py:12-21 | a fresh environment satisfies the invariant that every human with a balance entry is fully registered |
| Hub.HumanAdded | circlesUBI/hub.py:23-28 | add_human overwrites all four entries of the id, counts one more human even for an existing id, and leaves trust lines alone |
| Hub.HumanAddedValid | circlesUBI/hub.py:23-28 | adding a human with non-empty series keeps the environment invariant |
| Hub.TrustAdded | circlesUBI/hub.py:30-35 | first write wins: an existing line is never overwritten; otherwise exactly one line is added and nothing else changes |
| Hub.BalanceUpdated | circlesUBI/hub.py:38-49 | ValueError iff the id is unknown; returns latest + change; writes at current_time only a result > 0 |
| Hub.BalanceUpdatedValid | circlesUBI/hub.py:38-49 | on a valid environment it succeeds iff the id is known, and it keeps the invariant |
| Hub.BalanceUpdatedTouches | circlesUBI/hub.py:38-49 | touches only that human's own-currency series |
| Hub.Registered | circlesUBI/hub.py:76-90 | seeds balance and supply with mul_fixed(init, EXA) but records the mint as init * EXA; overwrites an existing id; other humans' holdings stay |
| Hub.RegisteredValid | circlesUBI/hub.py:76-90 | registration keeps the invariant |
| Hub.TrustEstablished | circlesUBI/hub.py:92-102 | adds the line (current_time, mul_fixed(value, EXA), duration) unless one exists, and changes nothing else |
| Hub.TrustEstablishedValid | circlesUBI/hub.py:92-102 | establish_trusts keeps the invariant |
| Hub.ScaledDefaults | circlesUBI/hub.py:79-106 | mul_fixed(n, EXA) makes the seed 2, the invitation cost 0 and the default trust 5 |
| Hub.InvitedValid | circlesUBI/hub.py:104-116 | invite_human keeps the invariant |
| Hub.InvitedOutcome | circlesUBI/hub.py:104-116 | fails iff the inviter is unknown or its charged balance would be negative, and then writes nothing; on success the newcomer holds mul_fixed(init, EXA) and the line inviter -> newcomer exists |
| Hub.SupplyUpdated | circlesUBI/hub.py:217-226 | corrected update_supply: when the day advanced, it writes and returns the supply discounted by the days passed, which becomes current; otherwise it returns the last supply and writes nothing |
| Hub.SupplyUpdatedValid | circlesUBI/hub.py:217-226 | keeps the invariant |
| Hub.SupplyUpdatedTouches | circlesUBI/hub.py:217-226 | touches only that human's supply |
| Hub.SupplyUpdatedAsWritten | circlesUBI/hub.py:217-226 | as written: raises AttributeError iff a day has passed, and never writes |
| Hub.SupplyRefreshAfterOneDay | circlesUBI/hub.py:217-226 | a human registered at hour 0 and refreshed at hour 24 makes the code as written raise, while the corrected version writes the one-day discounted supply |
| Hub.IssuanceRecordedValid | circlesUBI/hub.py:128-141 | the writes of a claimed mint keep the invariant |
| Hub.IssuanceRecordedOutcome | circlesUBI/hub.py:128-144 | a claimed mint records the mint and the ceiling-checked supply at current_time (passing a timestamp as the last-updated day), credits a positive balance, and changes nothing else |
| Hub.MintedValid | circlesUBI/hub.py:118-147 | mint keeps the invariant |
| Hub.MintedOutcome | circlesUBI/hub.py:118-147 | KeyError iff the human has no mint history; None with no write iff the issuance is 0; errors write nothing; a claim is the positive calculate_issuance amount |
| Hub.MintTwiceSameTime | circlesUBI/hub.py:118-147 | a second mint at the same time claims nothing and writes nothing |
| Hub.BurnedValid | circlesUBI/hub.py:149-168 | burn keeps the invariant |
| Hub.BurnedOutcome | circlesUBI/hub.py:149-168 | fails iff the human is unknown or its balance is below the amount, and then writes nothing; otherwise returns (balance - amount, latest supply - amount) and stores that supply undiscounted at current_time |
| Hub.BurnWholeBalanceKeepsBalance | circlesUBI/hub.py:149-168 | burning the whole balance leaves the balance series unchanged, because update_balance does not store 0, while the supply still drops |
| Hub.TransferRejections | circlesUBI/hub.py:170-197 | the checks in order, each raising before any write: same sender and receiver, insufficient balance, no trust line, line below the amount, expired line |
| Hub.BalancesMovedOutcome | circlesUBI/hub.py:199-203 | moving the amount fails iff the receiver is unknown; it returns both new balances and keeps the invariant |
| Hub.SuppliesRefreshedOutcome | circlesUBI/hub.py:205-209 | refreshing two registered humans' supplies succeeds and keeps the invariant |
| Hub.TransferSucceeds | circlesUBI/hub.py:170-212 | succeeds iff every check passes and the receiver is registered, and then returns (sender - amount, receiver + amount) |
| Hub.TransferValid | circlesUBI/hub.py:170-215 | transfer keeps the invariant |
| Hub.TransferFrame | circlesUBI/hub.py:170-212 | only the sender's and the receiver's own series and supplies change |
| Hub.TransferredKeys | circlesUBI/hub.py:170-212 | after a success the two ids are distinct and the sender's own series and the receiver's holdings exist |
| Hub.BalancesMovedLatest | circlesUBI/hub.py:199-203 | the debit and the credit become current, except a result <= 0, which is not stored |
| Hub.BalancesMovedKeepsSupply | circlesUBI/hub.py:199-203 | moving the balances writes no supply |
| Hub.BalancesMovedKeys | circlesUBI/hub.py:199-203 | a successful move keeps the sender's own series and the receiver's entry |
| Hub.SupplyUpdatedAsWrittenAgrees | circlesUBI/hub.py:217-226 | apart from the AttributeError, update_supply as written returns and leaves what the corrected one does |
| Hub.TransferredAsWritten | circlesUBI/hub.py:170-215 | transfer as written: after the checks its state is always the one the balance moves left, since it writes no supply |
| Hub.TransferredAsWrittenAgrees | circlesUBI/hub.py:170-226 | apart from the AttributeError, transfer as written and corrected agree in result and state |
| Hub.TransferAsWrittenRaisesAfterMove | circlesUBI/hub.py:199-226 | once the checks pass for a registered receiver, transfer as written has moved both balances, and raises AttributeError iff the sender's or the receiver's latest supply entry is from an earlier day |
| Hub.TransferMovesAmount | circlesUBI/hub.py:199-212 | after a successful transfer the sender's current balance is amount lower and the receiver's amount higher, except a result <= 0, which keeps the old value |
| Hub.HumanEnvironment.constructor | circlesUBI/hub.py:12-21 | all dictionaries are empty and the population is 0 |
| Hub.HumanEnvironment.AddHuman | circlesUBI/hub.py:23-28 | ends in the state HumanAdded describes |
| Hub.HumanEnvironment.AddTrust | circlesUBI/hub.py:30-35 | ends in the state TrustAdded describes |
| Hub.HumanEnvironment.UpdateBalance | circlesUBI/hub.py:38-49 | returns and ends as BalanceUpdated describes |
| Hub.Hub.constructor | circlesUBI/hub.py:62-66 | the hub works on the given environment |
| Hub.Hub.RegisterHuman | circlesUBI/hub.py:76-90 | ends in the state Registered describes |
| Hub.Hub.EstablishTrusts | circlesUBI/hub.py:92-102 | ends in the state TrustEstablished describes |
| Hub.Hub.InviteHuman | circlesUBI/hub.py:104-116 | returns and ends as the invite_human function describes, whose outcome InvitedOutcome states |
| Hub.Hub.Mint | circlesUBI/hub.py:118-147 | returns and ends as the mint function describes, whose outcome MintedOutcome states |
| Hub.Hub.Burn | circlesUBI/hub.py:149-168 | returns and ends as the burn function describes, whose outcome BurnedOutcome states |
| Hub.Hub.Transfer | circlesUBI/hub.py:170-215 | returns and ends as the transfer function describes, whose checks and effects TransferRejections, TransferSucceeds and TransferMovesAmount state |
| Hub.Hub.UpdateSupply | circlesUBI/hub.py:217-226 | returns and ends as the corrected SupplyUpdated describes |
| Holdings.CurrencyBalance | ABM_simulation/agents.py:86-94 | the entry at the largest timestamp of (holder, currency), or 0 when it is missing or empty |
| Holdings.TrustAmount | ABM_simulation/agents.py:96-105 | the amount of the line truster -> trustee, or 0 without one |
| Holdings.OwnCurrencyIsSelfBalance | ABM_simulation/agents.py:86-94 | a human's own currency reads as the Hub's self-balance, and as 0 where the Hub would raise |
| Holdings.EstablishedTrustAmount | ABM_simulation/agents.py:96-105 | a default trust line reads back as 5, unless a line already existed |
| PathFinder.HopCapacity | ABM_simulation/pathfinder.py:24-27 | a hop carries the minimum of the trust path[i+1] -> path[i] and path[i]'s own balance |
| PathFinder.HopCapacities | ABM_simulation/pathfinder.py:23-27 | one capacity per hop, in path order |
| PathFinder.Bottleneck | ABM_simulation/pathfinder.py:22-31 | the running minimum never exceeds the amount |
| PathFinder.BottleneckCharacterized | ABM_simulation/pathfinder.py:22-31 | the result equals the amount iff every hop carries it, and otherwise it is the capacity of the first hop that does not |
| PathFinder.MaxTransferAmountBounds | ABM_simulation/pathfinder.py:18-31 | at most the amount; exactly the amount for a path of at most one node, and exactly when every hop can carry it |
| PathFinder.MaxTransferAmountStopsAtShortHop | ABM_simulation/pathfinder.py:23-31 | a smaller result is the capacity of the hop where the loop stopped, and at most the trust and the balance of every hop visited |
| PathFinder.OneWayHopCannotCarry | ABM_simulation/pathfinder.py:10-31 | a hop without the reverse trust line path[i+1] -> path[i] carries nothing, so its path never carries a positive amount in full |
| PathFinder.GetMaxTransferAmount | ABM_simulation/pathfinder.py:18-31 | the loop that breaks early returns the bottleneck of the path |
| PathFinder.PathCapacities | ABM_simulation/pathfinder.py:41-42 | the max transfer amount of every candidate |
| PathFinder.SelectionCharacterized | ABM_simulation/pathfinder.py:41-48 | the choice is the earliest shortest sufficient candidate; failing one, the first with the largest positive capacity; failing that, (None, 0) |
| PathFinder.OptimalTransferPathCharacterized | ABM_simulation/pathfinder.py:33-50 | find_optimal_transfer_path chooses by that rule, and the reported capacity is get_max_transfer_amount of the chosen path |
| PathFinder.ChosenPathRunsFromTarget | ABM_simulation/pathfinder.py:10-16 | a path chosen from the enumerated candidates is a simple trust path of at most 5 edges from the receiver to the sender |
| PathFinder.ChoosePath | ABM_simulation/pathfinder.py:43-48 | one iteration of the loop ends in the choice Step describes: a sufficient path replaces no choice or a longer one, and otherwise a strictly larger capacity replaces the current one |
| PathFinder.FindOptimalTransferPath | ABM_simulation/pathfinder.py:33-50 | the loop over the candidates returns the choice characterized above |
| Agents.Recorded | ABM_simulation/agents.py:139-149 | appends exactly one entry (to, amount, time) under the sender, creating the list, and leaves the other lists alone |
| Agents.TotalTransactions | ABM_simulation/agents.py:157-161 | the number of entries is never negative |
| Agents.RecordedCount | ABM_simulation/agents.py:139-161 | recording one transaction raises the total count by one |
| Agents.RecordedVolume | ABM_simulation/agents.py:139-171 | recording one transaction raises the total volume by its amount |
| Agents.TotalSupply | ABM_simulation/agents.py:180-182 | raises iff some issuer's supply series is empty; otherwise the sum of the issuers' latest supplies |
| Agents.BurnLowersTotalSupply | ABM_simulation/agents.py:180-182 | a burn no earlier than the issuer's latest supply entry lowers the total supply by exactly the amount burnt |
| Agents.HopWrites | ABM_simulation/agents.py:118-127 | the agent's own writes change only balances |
| Agents.HopWritesDebit | ABM_simulation/agents.py:118-120 | the sender's own balance becomes latest - amount |
| Agents.HopWritesCredit | ABM_simulation/agents.py:122-127 | the receiver's holding of the sender's token rises by amount, or is created as amount |
| Agents.HopWritesFrame | ABM_simulation/agents.py:118-127 | every other series is left alone |
| Agents.HopDebitsSenderTwice | ABM_simulation/agents.py:116-120 | after Hub.transfer and the agent's own write, a sender whose balance stays positive is 2 * amount lower |
| Agents.AgentHop | ABM_simulation/agents.py:113-127 | a hop succeeds iff Hub.transfer does; on failure the state is what Hub.transfer left |
| Agents.AgentHopAsWritten | ABM_simulation/agents.py:113-136 | over transfer as written, a hop succeeds iff Hub.transfer does, and on failure the state is what it left |
| Agents.StaleSupplyHopLogsNothing | ABM_simulation/agents.py:113-136 | as written, a first hop whose sender's or receiver's supply is from an earlier day ends the walk with both balances moved, no agent writes and nothing logged; corrected, the same hop is logged |
| Agents.HopsStep | ABM_simulation/agents.py:113-130 | an error in hop i ends the walk, keeping earlier hops and swallowing the error; a success applies the writes, logs the hop and goes on |
| Agents.AgentTransferNeedsSufficientPath | ABM_simulation/agents.py:107-110 | nothing changes unless some candidate can carry the amount |
| Agents.HopsCount | ABM_simulation/agents.py:113-130 | the walk logs exactly one transaction per completed hop |
| Agents.HopsVolume | ABM_simulation/agents.py:113-130 | every logged transaction is of the amount |
| Agents.HopsRecordAmount | ABM_simulation/agents.py:113-130 | at most one entry per hop of the path is logged, and the volume grows by the amount times the entry count |
| Agents.HopsKeepTrusts | ABM_simulation/agents.py:113-130 | the walk changes only balances and supplies; trust lines, mints, traits and the population stay |
| Agents.HubAgent.constructor | ABM_simulation/agents.py:11-20 | a fresh environment, a hub on it, and zeroed counters and log |
| Agents.HubAgent.GetNextHumanId | ABM_simulation/agents.py:41-43 | returns the previous id + 1, so ids strictly increase from 1 |
| Agents.HubAgent.Mint | ABM_simulation/agents.py:64-74 | performs Hub.mint and swallows its error; the counters rise by one and by the issuance iff the issuance is truthy |
| Agents.HubAgent.RecordTransaction | ABM_simulation/agents.py:139-149 | ends in the log Recorded describes; the counters stay |
| Agents.HubAgent.WriteHop | ABM_simulation/agents.py:118-127 | ends in the state HopWrites describes |
| Agents.HubAgent.Transfer | ABM_simulation/agents.py:107-136 | picks the optimal path among find_transfer_paths' candidates and walks it only when it can carry the amount; the walked path is a simple trust path from the receiver to the sender; ends in the state and log of the hop walk, whose properties the lemmas above state |

## Findings

| source | as written | input that shows it | evidently intended | confidence | as-written member | corrected member |
|---|---|---|---|---|---|---|
| circlesUBI/hub.py:223 | `update_supply` calls `calculate_discounted_balance` on the Circles object, which has no such method, so it raises AttributeError whenever a day has passed since the last supply entry. `transfer` calls it after the balances moved, so such a transfer raises with its debit and credit already written | register human 1 at hour 0, then refresh its supply at hour 24 (for instance through a transfer) | call the Demurrage object's `calculate_discounted_balance` and store the discounted supply | not executed | Hub.SupplyRefreshAfterOneDay | Hub.SupplyUpdated |
| circlesUBI/hub.py:205-209 | `transfer` moves both balances before it calls `update_supply`, so the AttributeError leaves a half-done transfer. `HubAgent.transfer` swallows it, so that hop gets none of the agent's writes and no log entry, and the walk ends | register humans 1 and 2 at hour 0 with mutual trust lines, then have the agent transfer 1 unit between them at hour 24 | both supplies refreshed and the hop completed and logged | not executed | Agents.StaleSupplyHopLogsNothing | Hub.TransferSucceeds |

`Hub.SupplyUpdatedAsWritten`, `Hub.TransferredAsWritten` and `Agents.AgentHopAsWritten`
model the code as written. The rest of the model (`Hub.Transferred`, `Hub.Hub.Transfer`,
`Hub.Hub.UpdateSupply` and the agent's transfer) uses the corrected `Hub.SupplyUpdated`.

## Left out

- The three random traits (`random.uniform`) are left out. `Traits` keeps only the inviter and the creation time.
- Logging and the diagnostic print are left out. The print matters only because it names an undefined `T`, and that is modelled as the `UndefinedName` error.
- FixedPoint.PowFixed, Demurrage.T and Demurrage.R state only the exponent-0 values. The Decimal power behind them at non-zero exponents is a parameter of the model (`Demurrage.Curves`). pow_fixed's result is a fraction; the parameter `pow` gives it as a `real`, and the discount and inflation factors multiply a balance through `FixedPoint.MulFixedDecimal`, which truncates the exact product as int() does.
- FixedPoint.PowFixed does not model the InvalidOperation that Decimal raises for 0 to the power 0; the supplied power gives that case a value. The code only passes the non-zero gamma and beta as bases.
- Decimal arithmetic is taken as exact. Python rounds every Decimal result to 76 significant digits (circlesUBI/utils/math.py:4); the model does not, so a pow_fixed result or a product longer than 76 digits is the exact value here. Fixed-point values are unbounded integers, and int() truncation toward zero is written out.
- `nx.all_simple_paths` is a library call. The candidate paths are an input, and `PathFinder.TransferPaths` specifies them.
- ABM_simulation/model.py, run.py, visualizer.py, playground.py and circlesUBI/chain.py are not part of this model. They are the scheduler, I/O, UI and a framework hook.
- `HumanAgent`, `HubAgent.calculate_gini` and `HubAgent.get_avg_balance` are left out because they use floating point and randomness.
- The agent wrappers `register_new_human`, `invite_human` and `establish_trusts` are left out. Apart from the Hub calls modelled above, they only mirror the change into the networkx graph and the mesa scheduler.
- `get_transactions`, `get_total_mints`, `get_total_mint_volume`, `get_trusts` and `get_mints` are plain field reads. They appear as the fields and maps themselves.
- Nested Python dictionaries are modelled as values, so the aliasing between a dictionary the Hub writes and one another holder kept is not captured. No modelled code keeps such a second reference.
- The current time comes from `model.current_time`. It is a parameter of every operation.
- Agents.TotalTransactions, Agents.TotalTransactionVolume and Agents.TotalSupply are ghost functions over the log and the supplies. The sums over a dictionary's values are not executable loops here.
- Agents.HubAgent.WriteHop computes the new balances on a local copy of the balance map and assigns it once. The source writes the nested dictionaries in place.
- Agents.HopsRecordAmount states the count of logged hops as an upper bound plus exact totals. It does not say which hops succeeded, because that depends on each Hub.transfer along the way, which Agents.HopsStep states hop by hop.
- Hub.Hub.Transfer uses the corrected update_supply, so it does not reproduce the AttributeError of the source (see Findings). Hub.TransferredAsWritten models that behaviour as a function.
- Agents.HubAgent.Transfer walks the corrected Hub.transfer. As written (circlesUBI/hub.py:206-209, 223 and ABM_simulation/agents.py:116, 135-136), a hop whose sender's or receiver's latest supply entry is from an earlier day raises AttributeError after both balances moved. That hop then gets no agent writes and no log entry, and the walk ends. Agents.StaleSupplyHopLogsNothing states this for the as-written hop.
- DiscountedBalances.DiscountedBalanceManager.SetInflationDayZero stores the timestamp, but the source reads it nowhere (day zero is the constant 0 in `day_since_day0`), and the model does the same.
