/**
 * The computation inside the `optimize_safety_stock` tool: from the
 * historical records the upstream API returned, the safety stock
 * `1.96 * std(demands)` and the report the tool returns.
 */
module SafetyStock {
  import opened Results
  import opened Statistics
  import opened Records

  /** The z-score for a 95% one-tailed service level; the requested level plays no part. */
  const ZScore: NonNegReal := 1.96

  const DemandKey: string := "demand"

  /** The dictionary the tool returns (numbers before rounding to two decimals). */
  datatype Report = Report(
    itemId: string,
    safetyStock: Root,
    averageDemand: real,
    stdDemand: Root,
    serviceLevel: real,
    dataPoints: nat)

  /**
   * `optimize_safety_stock` once `historical_data` has been fetched:
   * fails on an empty history, on a record without a numeric `demand`,
   * and otherwise reports the population statistics of the demands.
   */
  function Optimize(itemId: string, desiredServiceLevel: real, history: seq<Record>): (r: Result<Report, Error>)
    ensures r.Success? <==> history != [] && HasNumber(history, DemandKey)
    ensures history == [] ==> r == Failure(NoHistoricalData)
    ensures r.Success? ==> r.value.itemId == itemId
    ensures r.Success? ==> r.value.serviceLevel == desiredServiceLevel
    ensures r.Success? ==> r.value.dataPoints == |history|
    ensures r.Success? ==> r.value.safetyStock == Scale(ZScore, r.value.stdDemand)
  {
    if history == [] then Failure(NoHistoricalData)
    else
      match Field(history, DemandKey)
      case Failure(e) => Failure(e)
      case Success(demands) =>
        if demands == [] then Failure(NoDemandData)
        else
          var std := Sqrt(Variance(demands));
          Success(Report(itemId, Scale(ZScore, std), Mean(demands), std, desiredServiceLevel, |history|))
  }

  /** The demand values of a history whose every record has a numeric `demand`. */
  function Demands(history: seq<Record>): (d: seq<real>)
    requires HasNumber(history, DemandKey)
    ensures |d| == |history|
  {
    Field(history, DemandKey).value
  }

  // ---------------------------------------------------------------------
  // Lemmas

  /** The reported statistics are the population mean and deviation of the demands. */
  lemma ReportsDemandStatistics(itemId: string, level: real, history: seq<Record>)
    requires Optimize(itemId, level, history).Success?
    ensures var r := Optimize(itemId, level, history).value;
      && r.averageDemand == Mean(Demands(history))
      && r.stdDemand.square == Variance(Demands(history))
      && r.safetyStock.square == ZScore * ZScore * Variance(Demands(history))
  {
  }

  /** The safety stock is zero exactly when every recorded demand is the same. */
  lemma SafetyStockZeroIffFlat(itemId: string, level: real, history: seq<Record>)
    requires Optimize(itemId, level, history).Success?
    ensures Optimize(itemId, level, history).value.safetyStock == Sqrt(0.0) <==> AllEqual(Demands(history))
  {
    VarianceZeroIff(Demands(history));
  }

  /** The safety stock is never below the standard deviation, since 1.96 is above 1. */
  lemma SafetyStockAboveDeviation(itemId: string, level: real, history: seq<Record>)
    requires Optimize(itemId, level, history).Success?
    ensures var r := Optimize(itemId, level, history).value;
      r.stdDemand.square <= r.safetyStock.square
  {
  }

  /** The requested service level is echoed and changes nothing else. */
  lemma ServiceLevelIgnored(itemId: string, level1: real, level2: real, history: seq<Record>)
    ensures Optimize(itemId, level1, history).Success? == Optimize(itemId, level2, history).Success?
    ensures Optimize(itemId, level1, history).Success? ==>
      Optimize(itemId, level2, history).value == Optimize(itemId, level1, history).value.(serviceLevel := level2)
  {
  }

  /** Neither the order of the history nor anything else about it but its demands matters. */
  lemma HistoryOrderIrrelevant(itemId: string, level: real, h1: seq<Record>, h2: seq<Record>)
    requires Optimize(itemId, level, h1).Success? && Optimize(itemId, level, h2).Success?
    requires multiset(Demands(h1)) == multiset(Demands(h2))
    ensures Optimize(itemId, level, h1) == Optimize(itemId, level, h2)
  {
    var d1, d2 := Demands(h1), Demands(h2);
    EstimateOrderInsensitive(d1, d2);
    assert |d1| == |multiset(d1)| == |multiset(d2)| == |d2|;
  }

  /** A record without a `demand` field makes the call fail with no report. */
  lemma MissingDemandFails(itemId: string, level: real, history: seq<Record>, i: nat)
    requires i < |history| && DemandKey !in history[i]
    ensures Optimize(itemId, level, history) == Failure(MissingField(DemandKey))
  {
  }

  /** Demands 10, 10, 10: mean 10, deviation 0, safety stock 0. */
  lemma FlatHistoryExample()
    ensures var h := [Day("2024-01-01", 10.0), Day("2024-01-02", 10.0), Day("2024-01-02", 10.0)];
      Optimize("A1", 0.95, h) == Success(Report("A1", Sqrt(0.0), 10.0, Sqrt(0.0), 0.95, 3))
  {
    var h := [Day("2024-01-01", 10.0), Day("2024-01-02", 10.0), Day("2024-01-02", 10.0)];
    assert Demands(h) == [10.0, 10.0, 10.0];
    SafetyStockZeroIffFlat("A1", 0.95, h);
    MeanWithin(Demands(h), 10.0, 10.0);
  }

  /**
   * Demands 8, 12, 10, 10: mean 10, variance 2, so the safety stock is
   * `1.96 * sqrt(2)`, whose square lies between 2.765^2 and 2.775^2: it
   * rounds to 2.77.
   */
  lemma SpreadHistoryExample()
    ensures var h := [Day("d1", 8.0), Day("d2", 12.0), Day("d3", 10.0), Day("d4", 10.0)];
      var r := Optimize("A1", 0.9, h);
      && r.Success?
      && r.value.averageDemand == 10.0
      && r.value.stdDemand == Sqrt(2.0)
      && 2.765 * 2.765 <= r.value.safetyStock.square < 2.775 * 2.775
  {
    var h := [Day("d1", 8.0), Day("d2", 12.0), Day("d3", 10.0), Day("d4", 10.0)];
    var d := Demands(h);
    assert d == [8.0, 12.0, 10.0, 10.0];
    assert Total(d, Identity) == 40.0;
    assert Mean(d) == 10.0;
    var f := SquaredDeviationFrom(10.0);
    assert Total(d, f) == 8.0;
  }

  /** A historical record `{"date": date, "demand": demand}`. */
  function Day(date: string, demand: real): Record
  {
    map["date" := Text(date), DemandKey := Number(demand)]
  }

  /** The "no demand data" check after extraction can never fire. */
  lemma NoDemandDataUnreachable(itemId: string, level: real, history: seq<Record>)
    ensures Optimize(itemId, level, history) != Failure(NoDemandData)
  {
  }
}
