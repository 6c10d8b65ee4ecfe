/**
 * The `simulate_lead_time` tool: a 30-day reorder-point simulation. Each
 * day's demand is taken from `draws` (the values `np.random.normal` would
 * return) and each date is the day's index from the start.
 */
module Simulation {
  import opened Results
  import opened Statistics
  import opened Records

  const StartingInventory: real := 100.0
  const Horizon: nat := 30
  const ReorderThreshold: real := 20.0
  const ReplenishmentQuantity: real := 100.0

  const QuantityKey: string := "quantity"

  /** One entry of `simulation_results`: the day's index and the stock at its end. */
  datatype DayLevel = DayLevel(day: nat, level: real)

  /** The dictionary the tool returns; a lead-time statistic is `None` where numpy gives NaN. */
  datatype Report = Report(
    itemId: string,
    averageLeadTime: Option<real>,
    stdLeadTime: Option<Root>,
    levels: seq<DayLevel>)

  /**
   * One day: the demand is taken out, and 100 units arrive the same day
   * exactly when the stock has fallen below 20.
   */
  function Step(inventory: real, demand: real): (next: real)
    ensures inventory - demand >= ReorderThreshold ==> next == inventory - demand >= ReorderThreshold
    ensures inventory - demand < ReorderThreshold ==>
      next == inventory - demand + ReplenishmentQuantity < ReorderThreshold + ReplenishmentQuantity
  {
    var after := inventory - demand;
    if after < ReorderThreshold then after + ReplenishmentQuantity else after
  }

  /** The stock at the end of the days whose demands are `draws`, starting from 100. */
  function InventoryAfter(draws: seq<real>): (level: real)
  {
    if draws == [] then StartingInventory
    else Step(InventoryAfter(draws[..|draws| - 1]), draws[|draws| - 1])
  }

  /** The recorded trajectory: on day `i`, the stock after the first `i + 1` demands. */
  function Schedule(draws: seq<real>): (days: seq<DayLevel>)
    ensures |days| == |draws|
  {
    seq(|draws|, i requires 0 <= i < |draws| => DayLevel(i, InventoryAfter(draws[..i + 1])))
  }

  /** What the tool returns for these inputs, or the exception it raises. */
  function Outcome(itemId: string, leadTimes: seq<int>, demandData: seq<Record>, draws: seq<real>): (r: Result<Report, Error>)
  {
    match Field(demandData, QuantityKey)
    case Failure(e) => Failure(e)
    case Success(_) =>
      var stats := Estimate(AsReals(leadTimes));
      Success(Report(
        itemId,
        if stats.Some? then Some(stats.value.mean) else None,
        if stats.Some? then Some(stats.value.std) else None,
        Schedule(draws)))
  }

  /**
   * `simulate_lead_time`: the loop keeps the stock in `current` and appends
   * one entry per day to `levels`.
   */
  method SimulateLeadTime(itemId: string, leadTimes: seq<int>, demandData: seq<Record>, draws: seq<real>)
    returns (r: Result<Report, Error>)
    requires |draws| == Horizon
    ensures r == Outcome(itemId, leadTimes, demandData, draws)
  {
    var leadTimeStats := Estimate(AsReals(leadTimes));
    var quantities := Field(demandData, QuantityKey);
    if quantities.Failure? {
      return Failure(quantities.error);
    }
    var levels: seq<DayLevel> := [];
    var current := StartingInventory;
    for day := 0 to Horizon
      invariant |levels| == day
      invariant current == InventoryAfter(draws[..day])
      invariant forall k :: 0 <= k < day ==> levels[k] == DayLevel(k, InventoryAfter(draws[..k + 1]))
    {
      current := current - draws[day];
      if current < ReorderThreshold {
        current := current + ReplenishmentQuantity;
      }
      ghost var prefix := draws[..day + 1];
      assert prefix[..day] == draws[..day] && prefix[day] == draws[day];
      assert current == InventoryAfter(prefix);
      levels := levels + [DayLevel(day, current)];
    }
    assert draws[..Horizon] == draws;
    assert levels == Schedule(draws);
    r := Success(Report(
      itemId,
      if leadTimeStats.Some? then Some(leadTimeStats.value.mean) else None,
      if leadTimeStats.Some? then Some(leadTimeStats.value.std) else None,
      levels));
  }

  // ---------------------------------------------------------------------
  // Lemmas

  /** Day `i` is reached from day `i - 1` (or from 100 on day 0) by one `Step`. */
  lemma ScheduleFollowsStep(draws: seq<real>, i: nat)
    requires i < |draws|
    ensures Schedule(draws)[i].level
      == Step(if i == 0 then StartingInventory else Schedule(draws)[i - 1].level, draws[i])
  {
    var prefix := draws[..i + 1];
    assert prefix[..i] == draws[..i] && prefix[i] == draws[i];
    assert Schedule(draws)[i].level == InventoryAfter(prefix) == Step(InventoryAfter(draws[..i]), draws[i]);
    if i == 0 {
      assert draws[..i] == [];
    } else {
      assert Schedule(draws)[i - 1].level == InventoryAfter(draws[..i]);
    }
  }

  /** The simulation fails exactly when a demand record lacks a numeric `quantity`. */
  lemma SimulationFailsOnlyOnBadRecords(itemId: string, leadTimes: seq<int>, demandData: seq<Record>, draws: seq<real>)
    ensures Outcome(itemId, leadTimes, demandData, draws).Success? <==> HasNumber(demandData, QuantityKey)
  {
  }

  /**
   * A successful simulation reports 30 days, numbered 0 to 29 in order,
   * starting from a stock of 100.
   */
  lemma ThirtyDaysInOrder(itemId: string, leadTimes: seq<int>, demandData: seq<Record>, draws: seq<real>)
    requires |draws| == Horizon
    requires Outcome(itemId, leadTimes, demandData, draws).Success?
    ensures var days := Outcome(itemId, leadTimes, demandData, draws).value.levels;
      && |days| == 30
      && (forall i :: 0 <= i < |days| ==> days[i].day == i)
      && days[0].level == Step(100.0, draws[0])
  {
    ScheduleFollowsStep(draws, 0);
  }

  /** The lead times reach only the reported statistics, never the stock levels. */
  lemma LeadTimesDoNotSteer(itemId: string, lt1: seq<int>, lt2: seq<int>, demandData: seq<Record>, draws: seq<real>)
    ensures Outcome(itemId, lt1, demandData, draws).Success? == Outcome(itemId, lt2, demandData, draws).Success?
    ensures Outcome(itemId, lt1, demandData, draws).Success? ==>
      Outcome(itemId, lt1, demandData, draws).value.levels == Outcome(itemId, lt2, demandData, draws).value.levels
  {
  }

  /** The lead-time statistics are those of the samples, and undefined only when there are none. */
  lemma LeadTimeStatistics(itemId: string, leadTimes: seq<int>, demandData: seq<Record>, draws: seq<real>)
    requires Outcome(itemId, leadTimes, demandData, draws).Success?
    ensures var r := Outcome(itemId, leadTimes, demandData, draws).value;
      && (r.averageLeadTime.None? <==> leadTimes == [])
      && (r.stdLeadTime.None? <==> leadTimes == [])
      && (leadTimes != [] ==> r.averageLeadTime == Some(Mean(AsReals(leadTimes))))
      && (leadTimes != [] ==> r.stdLeadTime == Some(Sqrt(Variance(AsReals(leadTimes)))))
  {
  }

  /** Every stock level lies in [20, 120) when every daily demand is between 0 and 100. */
  lemma {:induction false} InventoryInBand(draws: seq<real>)
    requires forall i :: 0 <= i < |draws| ==> 0.0 <= draws[i] <= ReplenishmentQuantity
    ensures ReorderThreshold <= InventoryAfter(draws) < ReorderThreshold + ReplenishmentQuantity
    decreases |draws|
  {
    if draws != [] {
      InventoryInBand(draws[..|draws| - 1]);
    }
  }

  /** With demands between 0 and 100, no recorded level ever leaves [20, 120). */
  lemma ScheduleInBand(draws: seq<real>)
    requires forall i :: 0 <= i < |draws| ==> 0.0 <= draws[i] <= ReplenishmentQuantity
    ensures forall i :: 0 <= i < |draws| ==>
      ReorderThreshold <= Schedule(draws)[i].level < ReorderThreshold + ReplenishmentQuantity
  {
    forall i | 0 <= i < |draws|
      ensures ReorderThreshold <= Schedule(draws)[i].level < ReorderThreshold + ReplenishmentQuantity
    {
      InventoryInBand(draws[..i + 1]);
    }
  }

  /** Lead times 5, 7, 6: average 6 and variance 2/3 (a deviation of about 0.82). */
  lemma LeadTimeExample(draws: seq<real>)
    requires |draws| == Horizon
    ensures var r := Outcome("A1", [5, 7, 6], [map[QuantityKey := Number(4.0)]], draws);
      && r.Success?
      && r.value.averageLeadTime == Some(6.0)
      && r.value.stdLeadTime == Some(Sqrt(2.0 / 3.0))
      && |r.value.levels| == 30
  {
    var s := AsReals([5, 7, 6]);
    assert s == [5.0, 7.0, 6.0];
    assert Total(s, Identity) == 18.0;
    assert Total(s, SquaredDeviationFrom(6.0)) == 2.0;
  }
}
