/** The saved-scan list: rebuilding a report from a stored scan, with the
    food-type histogram behind its chart, and removing a deleted scan from
    the list. */
module ScanHistory {
  import opened Wrappers
  import opened JsObject

  /** An `itemized_analysis` entry, as far as the chart reads it. */
  datatype ItemizedEntry = ItemizedEntry(name: string, foodType: Option<string>)

  /** `ingredient.food_type || 'Other'`: an absent or empty food type is
      counted as `Other`. */
  function FoodTypeKey(e: ItemizedEntry): (key: string)
    ensures key != ""
    ensures e.foodType.Some? && e.foodType.value != "" ==> key == e.foodType.value
    ensures e.foodType.None? || e.foodType.value == "" ==> key == "Other"
  {
    if e.foodType.Some? && e.foodType.value != "" then e.foodType.value else "Other"
  }

  /** How many entries are counted under `key`. */
  function Occurrences(entries: seq<ItemizedEntry>, key: string): (n: nat)
    ensures n <= |entries|
  {
    if entries == [] then 0
    else Occurrences(entries[..|entries| - 1], key) + (if FoodTypeKey(entries[|entries| - 1]) == key then 1 else 0)
  }

  /** `chartData[foodType] = (chartData[foodType] || 0) + 1`: the count
      under `key` goes up by one, starting from 0 when the key is new. */
  function Bump(chart: seq<Entry<nat>>, key: string): seq<Entry<nat>> {
    Set(chart, key, Get(chart, key).GetOr(0) + 1)
  }

  /** The chart data after the entries are counted in order: at most one
      property per entry. */
  function Histogram(entries: seq<ItemizedEntry>): (chart: seq<Entry<nat>>)
    ensures |chart| <= |entries|
  {
    if entries == [] then []
    else Bump(Histogram(entries[..|entries| - 1]), FoodTypeKey(entries[|entries| - 1]))
  }

  /** The `forEach` that regenerates `ingredient_profile_data`. */
  method RegenerateChart(itemized: seq<ItemizedEntry>) returns (chart: seq<Entry<nat>>)
    ensures chart == Histogram(itemized)
  {
    chart := [];
    for i := 0 to |itemized|
      invariant chart == Histogram(itemized[..i])
    {
      assert itemized[..i + 1][..i] == itemized[..i];
      var foodType := FoodTypeKey(itemized[i]);
      var count := Get(chart, foodType).GetOr(0);
      chart := Set(chart, foodType, count + 1);
    }
    assert itemized[..|itemized|] == itemized;
  }

  /** What the chart should read at `key` after `entries`: the number of
      entries of that food type, or nothing when there are none. */
  function Expected(entries: seq<ItemizedEntry>, key: string): Option<nat> {
    if Occurrences(entries, key) == 0 then None else Some(Occurrences(entries, key))
  }

  /** Counting one more entry, one key at a time. */
  lemma HistogramSnoc(init: seq<ItemizedEntry>, last: ItemizedEntry)
    ensures Histogram(init + [last]) == Bump(Histogram(init), FoodTypeKey(last))
  {
    assert (init + [last])[..|init|] == init;
  }

  lemma ExpectedSnoc(init: seq<ItemizedEntry>, last: ItemizedEntry, key: string)
    ensures Expected(init + [last], key) ==
              if FoodTypeKey(last) == key then Some(Expected(init, key).GetOr(0) + 1) else Expected(init, key)
  {
    assert (init + [last])[..|init|] == init;
  }

  /** What a key reads after one bump: its own key goes up by one, */
  lemma BumpGetSame(chart: seq<Entry<nat>>, key: string)
    requires DistinctKeys(chart)
    ensures DistinctKeys(Bump(chart, key))
    ensures Get(Bump(chart, key), key) == Some(Get(chart, key).GetOr(0) + 1)
  {
    SetGet(chart, key, Get(chart, key).GetOr(0) + 1);
  }

  /** and every other key reads as before. */
  lemma BumpGetOther(chart: seq<Entry<nat>>, target: string, key: string)
    requires DistinctKeys(chart) && key != target
    ensures Get(Bump(chart, target), key) == Get(chart, key)
  {
    SetGet(chart, target, Get(chart, target).GetOr(0) + 1);
  }

  lemma {:induction false} HistogramDistinct(entries: seq<ItemizedEntry>)
    ensures DistinctKeys(Histogram(entries))
  {
    if entries != [] {
      var init, last := entries[..|entries| - 1], entries[|entries| - 1];
      assert entries == init + [last];
      HistogramDistinct(init);
      HistogramSnoc(init, last);
      BumpGetSame(Histogram(init), FoodTypeKey(last));
    }
  }

  /** Counting one more entry keeps every key at its expected count. */
  lemma HistogramStepAt(init: seq<ItemizedEntry>, last: ItemizedEntry, key: string)
    requires DistinctKeys(Histogram(init))
    requires Get(Histogram(init), key) == Expected(init, key)
    ensures Get(Histogram(init + [last]), key) == Expected(init + [last], key)
  {
    HistogramSnoc(init, last);
    ExpectedSnoc(init, last, key);
    var chart, counted := Histogram(init), FoodTypeKey(last);
    if key == counted {
      BumpGetSame(chart, key);
    } else {
      BumpGetOther(chart, counted, key);
    }
  }

  lemma {:induction false} HistogramCountAt(entries: seq<ItemizedEntry>, key: string)
    ensures Get(Histogram(entries), key) == Expected(entries, key)
  {
    if entries != [] {
      var init, last := entries[..|entries| - 1], entries[|entries| - 1];
      assert entries == init + [last];
      HistogramCountAt(init, key);
      HistogramDistinct(init);
      HistogramStepAt(init, last, key);
    }
  }

  /** The chart has one property per food type that occurs, holding the
      number of entries of that type, and no other property. */
  lemma HistogramCounts(entries: seq<ItemizedEntry>)
    ensures DistinctKeys(Histogram(entries))
    ensures forall key :: Get(Histogram(entries), key) == Expected(entries, key)
  {
    HistogramDistinct(entries);
    forall key ensures Get(Histogram(entries), key) == Expected(entries, key) {
      HistogramCountAt(entries, key);
    }
  }

  /** Every property of the chart counts at least one entry. */
  lemma HistogramPositive(entries: seq<ItemizedEntry>)
    ensures forall i :: 0 <= i < |Histogram(entries)| ==> Histogram(entries)[i].value >= 1
  {
    var chart := Histogram(entries);
    HistogramCounts(entries);
    forall i | 0 <= i < |chart| ensures chart[i].value >= 1 {
      IndexOfUnique(chart, chart[i].key, i);
      assert Get(chart, chart[i].key) == Some(chart[i].value);
    }
  }

  /** The counts of a chart, added up. */
  function Total(chart: seq<Entry<nat>>): nat {
    if chart == [] then 0 else Total(chart[..|chart| - 1]) + chart[|chart| - 1].value
  }

  lemma {:induction false} TotalUpdate(chart: seq<Entry<nat>>, i: nat, e: Entry<nat>)
    requires i < |chart|
    ensures Total(chart[i := e]) + chart[i].value == Total(chart) + e.value
  {
    var n := |chart| - 1;
    if i < n {
      assert chart[i := e][..n] == chart[..n][i := e];
      TotalUpdate(chart[..n], i, e);
    } else {
      assert chart[i := e][..n] == chart[..n];
    }
  }

  /** Assigning `key` replaces its old count, read as 0 when absent. */
  lemma TotalSet(chart: seq<Entry<nat>>, key: string, v: nat)
    ensures Total(Set(chart, key, v)) + Get(chart, key).GetOr(0) == Total(chart) + v
  {
    var i := IndexOf(chart, key);
    if i < |chart| {
      TotalUpdate(chart, i, Entry(key, v));
    } else {
      assert (chart + [Entry(key, v)])[..|chart|] == chart;
    }
  }

  /** One bump adds one to the total. */
  lemma BumpTotal(chart: seq<Entry<nat>>, key: string)
    ensures Total(Bump(chart, key)) == Total(chart) + 1
  {
    TotalSet(chart, key, Get(chart, key).GetOr(0) + 1);
  }

  /** The chart counts add up to the number of entries. */
  lemma {:induction false} HistogramTotal(entries: seq<ItemizedEntry>)
    ensures Total(Histogram(entries)) == |entries|
  {
    if entries != [] {
      var init, last := entries[..|entries| - 1], entries[|entries| - 1];
      assert entries == init + [last];
      HistogramTotal(init);
      HistogramSnoc(init, last);
      BumpTotal(Histogram(init), FoodTypeKey(last));
    }
  }

  // ---------------------------------------------------------------------
  // Viewing a saved scan

  /** The stored `analysis_result`: the overall profile passed through as
      it is, and the itemized entries, which may be absent. */
  datatype AnalysisResult<P> = AnalysisResult(overallProfile: P, itemized: Option<seq<ItemizedEntry>>)

  datatype SavedScan<P> = SavedScan(
    id: string,
    productName: string,
    analysisResult: AnalysisResult<P>,
    nutritionTable: Option<seq<Entry<string>>>,
    scanDate: string)

  /** The report rebuilt from a saved scan for the results view. */
  datatype ScanReport<P> = ScanReport(
    productName: string,
    overallProfile: P,
    itemized: Option<seq<ItemizedEntry>>,
    chart: seq<Entry<nat>>,
    nutritionTable: seq<Entry<string>>,
    analysisResult: AnalysisResult<P>,
    timestamp: string,
    totalIngredients: nat)

  /** `itemized_analysis?.length || 0`. */
  function TotalIngredients(itemized: Option<seq<ItemizedEntry>>): (n: nat)
    ensures itemized.None? ==> n == 0
    ensures itemized.Some? ==> n == |itemized.value|
  {
    if itemized.Some? then |itemized.value| else 0
  }

  /** `handleViewScan` once the scan is fetched: the report copies the
      stored fields, an absent nutrition table reads as empty, and the chart
      is regenerated from the itemized entries; its counts add up to
      `total_ingredients`. */
  method ViewScan<P>(scan: SavedScan<P>) returns (report: ScanReport<P>)
    ensures report.productName == scan.productName && report.timestamp == scan.scanDate
    ensures report.overallProfile == scan.analysisResult.overallProfile
    ensures report.itemized == scan.analysisResult.itemized && report.analysisResult == scan.analysisResult
    ensures report.nutritionTable == scan.nutritionTable.GetOr([])
    ensures report.totalIngredients == TotalIngredients(scan.analysisResult.itemized)
    ensures report.chart == if scan.analysisResult.itemized.None? then [] else Histogram(scan.analysisResult.itemized.value)
    ensures Total(report.chart) == report.totalIngredients
  {
    var chart: seq<Entry<nat>> := [];
    var itemized := scan.analysisResult.itemized;
    if itemized.Some? {
      chart := RegenerateChart(itemized.value);
      HistogramTotal(itemized.value);
    }
    report := ScanReport(scan.productName, scan.analysisResult.overallProfile, itemized, chart,
                         scan.nutritionTable.GetOr([]), scan.analysisResult, scan.scanDate,
                         TotalIngredients(itemized));
  }

  // ---------------------------------------------------------------------
  // Deleting a scan

  /** `scans.filter(scan => scan._id !== scanId)`. */
  function RemoveScan<P>(scans: seq<SavedScan<P>>, scanId: string): (r: seq<SavedScan<P>>)
    ensures forall s :: s in r ==> s in scans && s.id != scanId
  {
    if scans == [] then []
    else
      assert scans == [scans[0]] + scans[1..];
      (if scans[0].id != scanId then [scans[0]] else []) + RemoveScan(scans[1..], scanId)
  }

  /** The filter keeps the relative order: it works piece by piece. */
  lemma {:induction false} RemoveScanConcat<P>(a: seq<SavedScan<P>>, b: seq<SavedScan<P>>, scanId: string)
    ensures RemoveScan(a + b, scanId) == RemoveScan(a, scanId) + RemoveScan(b, scanId)
    decreases |a|
  {
    if a == [] {
      assert a + b == b;
    } else {
      assert (a + b)[0] == a[0] && (a + b)[1..] == a[1..] + b;
      RemoveScanConcat(a[1..], b, scanId);
    }
  }

  /** Every scan without that id keeps its number of copies. */
  lemma {:induction false} RemoveScanCounts<P>(scans: seq<SavedScan<P>>, scanId: string)
    ensures forall s :: s in scans && s.id != scanId ==> multiset(RemoveScan(scans, scanId))[s] == multiset(scans)[s]
  {
    if scans != [] {
      RemoveScanCounts(scans[1..], scanId);
      assert scans == [scans[0]] + scans[1..];
    }
  }

  /** How many scans carry `scanId`. */
  function WithId<P>(scans: seq<SavedScan<P>>, scanId: string): nat {
    if scans == [] then 0 else (if scans[0].id == scanId then 1 else 0) + WithId(scans[1..], scanId)
  }

  /** Exactly the scans with that id are removed. */
  lemma {:induction false} RemoveScanLength<P>(scans: seq<SavedScan<P>>, scanId: string)
    ensures |RemoveScan(scans, scanId)| == |scans| - WithId(scans, scanId)
  {
    if scans != [] {
      RemoveScanLength(scans[1..], scanId);
    }
  }

  datatype DeleteOutcome<P> = DeleteOutcome(scans: seq<SavedScan<P>>, alert: Option<string>)

  const DeleteFailedMessage := "Failed to delete scan"

  /** `handleDelete(scanId)`, given the user's answer to the confirmation
      and whether the delete request succeeded: declining changes nothing;
      a successful delete removes the scan; a failed one keeps the list and
      raises the alert. */
  function HandleDelete<P>(scans: seq<SavedScan<P>>, scanId: string, confirmed: bool, deleted: bool): (r: DeleteOutcome<P>)
    ensures !confirmed ==> r == DeleteOutcome(scans, None)
    ensures confirmed && deleted ==> r.alert.None? && forall s :: s in r.scans ==> s.id != scanId
    ensures confirmed && deleted ==> forall s :: s in scans && s.id != scanId ==> multiset(r.scans)[s] == multiset(scans)[s]
    ensures confirmed && !deleted ==> r == DeleteOutcome(scans, Some(DeleteFailedMessage))
  {
    if !confirmed then DeleteOutcome(scans, None)
    else if deleted then
      RemoveScanCounts(scans, scanId);
      DeleteOutcome(RemoveScan(scans, scanId), None)
    else DeleteOutcome(scans, Some(DeleteFailedMessage))
  }
}
