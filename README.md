# Inventory optimisation server: verified model of its two computations

The server exposes two tools. `optimize_safety_stock` fetches an item's
demand history and returns a safety-stock figure: 1.96 times the
population standard deviation of the recorded demands. `simulate_lead_time`
runs a 30-day inventory simulation. Stock starts at 100. Each day that
day's demand is taken out. When the stock falls below 20, 100 units are
added the same day. This project models both computations in Dafny and
proves what they promise.

Files, one module each:

- `results.dfy` (`Results`): `Option` and `Result`. A `Failure` stands for an exception the tool raises.
- `records.dfy` (`Records`): JSON records as `map<string, Value>`, the kinds of failure, and `Field`, which pulls one numeric field out of every record. A missing key is Python's `KeyError`. A text value is a value numpy cannot average.
- `statistics.dfy` (`Statistics`): population mean and variance over `seq<real>`, as numpy's `mean` and `std` compute them (dividing by n), and their properties.
- `safety_stock.dfy` (`SafetyStock`): `Optimize`, the computation of `optimize_safety_stock` once the history has been fetched.
- `simulation.dfy` (`Simulation`): the functional specification (`Step`, `InventoryAfter`, `Schedule`, `Outcome`) and `SimulateLeadTime`, the loop proved against it.

How the model represents things:

- **Standard deviations.** Dafny's reals have no square root. A standard deviation is kept exactly, as `Root = Sqrt(square)`: the non-negative root of `square`. `std(d)` is `Sqrt(Variance(d))`. `1.96 * std(d)` is `Scale(1.96, Sqrt(Variance(d)))`, which is `Sqrt(1.96 * 1.96 * Variance(d))`. Non-negativity holds by construction, because `square` has type `NonNegReal`.
- **NaN.** numpy returns NaN for the mean or deviation of an empty list. It does not raise. That NaN is `None` in `Statistics.Estimate` and in the lead-time fields of `Simulation.Report`.
- **Randomness and dates.** The random daily demands (`np.random.normal`) are an input, `draws`, with one value per day. Dates are day indices 0 to 29, counted from the start of the simulation.

Two behaviours of server.py that the model keeps as written:

- **Empty simulation inputs.** server.py checks neither `lead_times` nor `demand_data` for emptiness (lines 114-121). An empty `lead_times` gives NaN statistics, which the model reports as `None`.
- **The "no demand data" error.** The check at server.py:59-62 can never fire. Line 48 rejects an empty history, and the extraction at line 57 yields one entry per record. `SafetyStock.NoDemandDataUnreachable` proves this.

## Model

| member | source | states |
|---|---|---|
| `Statistics.Scale` | server.py:68-69 | `c * sqrt(a)` as `sqrt(c*c*a)`: it is zero exactly when `c` or `a` is zero; it is at least the root when `c >= 1` and at most the root when `c <= 1` |
| `Statistics.Variance` | server.py:65 | the population variance (mean squared deviation from the mean, divided by n) is never negative |
| `Statistics.Estimate` | server.py:64-65 | `np.mean`/`np.std` together: undefined (NaN) exactly on an empty list; otherwise the count is the list length, and the deviation is zero exactly when every value is equal |
| `Statistics.MeanWithin` | server.py:64 | the mean lies between any lower and upper bound of the values |
| `Statistics.VarianceZeroIff` | server.py:65 | the variance is zero if and only if all values are equal |
| `Statistics.TotalPermutation` | server.py:64-65 | a sum over the values does not depend on their order (same multiset, same sum) |
| `Statistics.EstimateOrderInsensitive` | server.py:64-65 | reordering the values changes neither mean nor standard deviation |
| `Records.Lookup` | server.py:57 | the list comprehension `[record[key] ...]` succeeds if and only if every record has the key, and then yields each record's value, in order |
| `Records.Numbers` | server.py:64 | numpy's conversion succeeds if and only if every value is a number, and then yields those numbers, in order |
| `Records.Field` | server.py:57-65 | the field is extracted if and only if every record has a numeric value for it; a missing key is reported as `MissingField` (KeyError) if and only if some record lacks the key, and otherwise the failure is `NotNumeric` |
| `SafetyStock.Optimize` | server.py:48-78 | succeeds if and only if the history is non-empty and every record has a numeric `demand`; an empty history fails with `NoHistoricalData`; on success it echoes `item_id` and the service level, gives `data_points` = number of records, and safety stock = 1.96 × standard deviation |
| `SafetyStock.ReportsDemandStatistics` | server.py:64-69 | the reported average is the population mean of the demands; the reported deviation squares to their population variance; the safety stock squares to 1.96² × that variance |
| `SafetyStock.SafetyStockZeroIffFlat` | server.py:65-69 | the safety stock is zero if and only if every recorded demand is equal |
| `SafetyStock.SafetyStockAboveDeviation` | server.py:68-69 | the safety stock is never below the standard deviation |
| `SafetyStock.ServiceLevelIgnored` | server.py:67-76 | two calls that differ only in `desired_service_level` both succeed or both fail, and their reports differ only in the echoed service level |
| `SafetyStock.HistoryOrderIrrelevant` | server.py:57-78 | two successful histories whose demands are the same multiset give the same report |
| `SafetyStock.MissingDemandFails` | server.py:82-85 | a record without `demand` makes the call fail (KeyError), with no report |
| `SafetyStock.NoDemandDataUnreachable` | server.py:59-62 | the "no demand data" failure is never raised |
| `SafetyStock.FlatHistoryExample` | server.py:64-78 | demands 10, 10, 10 give mean 10, deviation 0 and safety stock 0 |
| `SafetyStock.SpreadHistoryExample` | server.py:64-78 | demands 8, 12, 10, 10 give mean 10 and deviation √2, and the safety stock 1.96·√2 rounds to 2.77 |
| `Simulation.Step` | server.py:129-134 | one day: the new level is `old − demand` when that is at least 20; otherwise 100 is added and the level is below 120 |
| `Simulation.SimulateLeadTime` | server.py:114-146 | the 30-iteration loop returns exactly the functional outcome: a failure when a demand record lacks a numeric `quantity`, and otherwise the lead-time statistics and the day-by-day schedule |
| `Simulation.ScheduleFollowsStep` | server.py:125-139 | day `i`'s recorded level is one `Step` from day `i−1`'s (from 100 on day 0) with that day's demand |
| `Simulation.SimulationFailsOnlyOnBadRecords` | server.py:120-121 | the simulation fails if and only if some demand record lacks a numeric `quantity` |
| `Simulation.ThirtyDaysInOrder` | server.py:119-139 | a successful run reports exactly 30 entries; entry `i` is day `i`; day 0 starts from 100 |
| `Simulation.LeadTimesDoNotSteer` | server.py:114-145 | the lead times do not affect success or the inventory trajectory |
| `Simulation.LeadTimeStatistics` | server.py:114-115 | the reported lead-time average and deviation are the population statistics of the lead times; they are undefined (NaN) exactly when there are none |
| `Simulation.InventoryInBand` | server.py:125-134 | if every daily demand is between 0 and 100, the stock stays in [20, 120) |
| `Simulation.ScheduleInBand` | server.py:124-139 | under the same condition, every recorded level lies in [20, 120) |
| `Simulation.LeadTimeExample` | server.py:114-115 | lead times 5, 7, 6 give an average of 6 and a variance of 2/3 (deviation ≈ 0.82), with 30 entries |

## Left out

- The HTTPS fetch is not modelled (server.py:31-51, 91-98): the SSL context, the `aiohttp` session and the HTTP status check. The fetched history is an input sequence. The model starts at the emptiness check on line 48.
- FastMCP tool registration, `mcp.run()` and all logging are not modelled. They are framing and a side channel.
- `np.random.normal` is not modelled. The daily demands are the input `draws`. The model does not relate them to the mean and deviation of `demand_data`. It keeps only the extraction of `quantity` (server.py:120), because that extraction can fail.
- `datetime.now()`, `timedelta` and `isoformat()` are not modelled. Days are indices 0 to 29.
- `round(…, 2)` and IEEE-754 behaviour are not modelled. Statistics are exact reals, and deviations are exact roots. `SpreadHistoryExample` shows where one value rounds.
- NaN from an empty `demand_data` in the simulation is not modelled. The model's levels come from `draws`, so they never become NaN.
- JSON values other than numbers and text (booleans, null, nested objects) are not modelled.
- The wording of error messages and the re-wrapping of exceptions (server.py:82-98) are not modelled. Failures are distinguished only by kind.
