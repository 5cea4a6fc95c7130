/**
 * `DashboardSummaryView.get`: the access check on `farm_id`, the query sets it aggregates, and
 * the three loops that group the week's daily records by lot, fold them into weight gains, and
 * fold the month's financial entries into a farm margin and per-lot margins. Amounts are exact
 * reals; the final `round(...)` and `float(...)` conversions are not modelled.
 */
module Dashboard {
  import opened Wrappers
  import opened Seqs
  import opened Sorting
  import opened SoftDelete
  import opened Tenancy
  import opened Permissions

  // ----- access -----

  /**
   * The `has_access` query: an alive farm with key `f` whose enterprise the user owns (a join,
   * which ignores the enterprise's own flag) or holds an alive membership in.
   */
  predicate HasAccess(s: Store, u: UserId, f: Id) {
    exists i | 0 <= i < |s.farms| ::
      s.farms[i].id == f && !s.farms[i].isDeleted && HasStanding(s, u, s.farms[i].data.enterprise)
  }

  /** Authentication first (`IsAuthenticated`), then 400 without `farm_id`, then 403 without access. */
  function Access(s: Store, c: Caller, farmParam: Option<Id>): Result<Id, ApiError> {
    if c.Anonymous? then Err(NotAuthenticated)
    else if farmParam.None? then Err(BadRequest)
    else if !HasAccess(s, c.user, farmParam.value) then Err(PermissionDenied)
    else Ok(farmParam.value)
  }

  /**
   * The dashboard answers exactly when the caller is authenticated, names a farm, and that farm
   * is alive and passes the object permission of the API; a missing `farm_id` is the only 400.
   */
  lemma AccessIff(s: Store, c: Caller, farmParam: Option<Id>)
    requires DistinctIds(s.farms)
    ensures Access(s, c, farmParam).Ok? <==>
      c.Authenticated? && farmParam.Some? && AliveKey(s.farms, farmParam.value) &&
      HasObjectPermission(s, c, FarmObj(farmParam.value))
    ensures Access(s, c, farmParam) == Err(BadRequest) <==> c.Authenticated? && farmParam.None?
    ensures Access(s, c, farmParam).Ok? ==> Access(s, c, farmParam).value == farmParam.value
  {
    if c.Authenticated? && farmParam.Some? {
      var f := farmParam.value;
      ObjectPermissionIff(s, c, FarmObj(f));
      if f in Ids(s.farms) {
        var k := IndexOf(s.farms, f);
        FindAt(s.farms, k);
        if HasAccess(s, c.user, f) {
          var i :| 0 <= i < |s.farms| && s.farms[i].id == f && !s.farms[i].isDeleted &&
                   HasStanding(s, c.user, s.farms[i].data.enterprise);
          FindAt(s.farms, i);
        }
      }
    }
  }

  // ----- the query sets -----

  function UnitFarm(s: Store, unit: Id): Option<Id> {
    match Find(s.units, unit)
    case None => None
    case Some(u) => Some(u.data.farm)
  }

  /** `Lot.objects.filter(unit__farm_id=f)`. */
  function LotOfFarm(s: Store, f: Id): Row<Lot> -> bool {
    (l: Row<Lot>) => !l.isDeleted && UnitFarm(s, l.data.unit) == Some(f)
  }

  /** `LotDailyRecord.objects.filter(lot__unit__farm_id=f, date__gte=since)`: no upper bound on the date. */
  function RecordInWindow(s: Store, f: Id, since: Date): Row<DailyRecord> -> bool {
    (r: Row<DailyRecord>) => !r.isDeleted && LotFarm(s, r.data.lot) == Some(f) && r.data.date >= since
  }

  /** `StockItem.objects.filter(farm_id=f)`. */
  function ItemOfFarm(f: Id): Row<StockItem> -> bool {
    (it: Row<StockItem>) => !it.isDeleted && it.data.farm == f
  }

  /** `FinancialEntry.objects.filter(farm_id=f, date__gte=since)`: the entry's own farm, not its lot's. */
  function EntryInWindow(f: Id, since: Date): Row<FinancialEntry> -> bool {
    (e: Row<FinancialEntry>) => !e.isDeleted && e.data.farm == f && e.data.date >= since
  }

  function FarmLots(s: Store, f: Id): seq<Row<Lot>> { Filter(s.lots, LotOfFarm(s, f)) }
  function WeekRecords(s: Store, f: Id, today: Date): seq<Row<DailyRecord>> { Filter(s.records, RecordInWindow(s, f, today - 7)) }
  function FarmItems(s: Store, f: Id): seq<Row<StockItem>> { Filter(s.stockItems, ItemOfFarm(f)) }
  function MonthEntries(s: Store, f: Id, today: Date): seq<Row<FinancialEntry>> { Filter(s.entries, EntryInWindow(f, today - 30)) }

  predicate IsActive(l: Row<Lot>) { l.data.status == Active }
  function InitialCount(l: Row<Lot>): int { l.data.initialCount }
  function RecordMortality(r: Row<DailyRecord>): int { r.data.mortality }
  function RecordEggs(r: Row<DailyRecord>): int { r.data.eggsCount }
  function RecordFeed(r: Row<DailyRecord>): real { r.data.feedIntakeKg }
  function RecordMilk(r: Row<DailyRecord>): real { r.data.milkProductionL }

  /** `quantity__lt=F('alert_threshold')`. */
  predicate IsLow(it: Row<StockItem>) { it.data.quantity < it.data.alertThreshold }

  // ----- rates -----

  /** `mortality / start_population * 100`, or 0 without a start population. */
  function MortalityRate(mortality: int, start: int): real {
    if start != 0 then mortality as real / start as real * 100.0 else 0.0
  }

  /** `eggs / (start_population * 7)`, or 0 without hen-days. */
  function EggsPerHenDay(eggs: int, start: int): real {
    var henDays := start * 7;
    if henDays != 0 then eggs as real / henDays as real else 0.0
  }

  /**
   * The rates fall back to 0 exactly when their denominator is 0; otherwise they scale the
   * week's totals by the start population.
   */
  lemma RatesGuarded(mortality: int, eggs: int, start: int)
    ensures start == 0 ==> MortalityRate(mortality, start) == 0.0 && EggsPerHenDay(eggs, start) == 0.0
    ensures start != 0 ==> MortalityRate(mortality, start) * start as real == 100.0 * mortality as real
    ensures start != 0 ==> EggsPerHenDay(eggs, start) * (7 * start) as real == eggs as real
  {
    if start != 0 {
      var m := mortality as real;
      var p := start as real;
      calc {
        MortalityRate(mortality, start) * p;
        (m / p * 100.0) * p;
        { assert (m / p) * p == m; }
        100.0 * m;
      }
    }
  }

  // ----- grouping the week's records by lot -----

  function RecordDate(r: Row<DailyRecord>): int { r.data.date }
  function RecordLot(r: Row<DailyRecord>): int { r.data.lot }
  function RecordLotKey(r: Row<DailyRecord>): Option<Id> { Some(r.data.lot) }

  /** `records_qs.order_by('lot_id', 'date')`. */
  function OrderedRecords(recs: seq<Row<DailyRecord>>): seq<Row<DailyRecord>> {
    SortBy(SortBy(recs, RecordDate), RecordLot)
  }

  /** One lot's records, in the order of `recs`. */
  function GroupOf(recs: seq<Row<DailyRecord>>, l: Id): seq<Row<DailyRecord>> {
    Filter(recs, KeyIs(RecordLot, l))
  }

  /** The distinct keys of `xs`, in order of first appearance: the key order of a dict filled from `xs`. */
  function FirstSeen<T>(xs: seq<T>, key: T -> Option<Id>): seq<Id>
    decreases |xs|
  {
    if xs == [] then []
    else
      var p := FirstSeen(xs[..|xs| - 1], key);
      var k := key(xs[|xs| - 1]);
      if k.None? || k.value in p then p else p + [k.value]
  }

  /** Each key appears once, and exactly the keys some element has appear. */
  lemma {:induction false} FirstSeenKeys<T>(xs: seq<T>, key: T -> Option<Id>)
    ensures forall i, j :: 0 <= i < j < |FirstSeen(xs, key)| ==> FirstSeen(xs, key)[i] != FirstSeen(xs, key)[j]
    ensures forall x :: x in FirstSeen(xs, key) <==> exists i :: 0 <= i < |xs| && key(xs[i]) == Some(x)
    decreases |xs|
  {
    if xs != [] {
      var init := xs[..|xs| - 1];
      FirstSeenKeys(init, key);
      forall x | x in FirstSeen(xs, key) ensures exists i :: 0 <= i < |xs| && key(xs[i]) == Some(x) {
        if x in FirstSeen(init, key) {
          var i :| 0 <= i < |init| && key(init[i]) == Some(x);
          assert xs[i] == init[i];
        } else {
          assert key(xs[|xs| - 1]) == Some(x);
        }
      }
      forall x | exists i :: 0 <= i < |xs| && key(xs[i]) == Some(x) ensures x in FirstSeen(xs, key) {
        var i :| 0 <= i < |xs| && key(xs[i]) == Some(x);
        if i < |init| { assert init[i] == xs[i]; }
      }
    }
  }

  /** A group that has not started yet is empty. */
  lemma UnseenGroupEmpty(recs: seq<Row<DailyRecord>>, l: Id)
    requires l !in FirstSeen(recs, RecordLotKey)
    ensures GroupOf(recs, l) == []
  {
    FirstSeenKeys(recs, RecordLotKey);
    forall i | 0 <= i < |recs| ensures !KeyIs(RecordLot, l)(recs[i]) {
      assert RecordLotKey(recs[i]) == Some(recs[i].data.lot);
      KeyIsApply(RecordLot, l, recs[i]);
    }
    FilterNone(recs, KeyIs(RecordLot, l));
  }

  lemma FirstSeenStep<T>(xs: seq<T>, x: T, key: T -> Option<Id>)
    ensures FirstSeen(xs + [x], key) ==
      if key(x).None? || key(x).value in FirstSeen(xs, key) then FirstSeen(xs, key) else FirstSeen(xs, key) + [key(x).value]
  {
    assert (xs + [x])[..|xs|] == xs;
  }

  lemma GroupStep(recs: seq<Row<DailyRecord>>, rec: Row<DailyRecord>, m: Id)
    ensures GroupOf(recs + [rec], m) == GroupOf(recs, m) + (if rec.data.lot == m then [rec] else [])
  {
    FilterAppend(recs, [rec], KeyIs(RecordLot, m));
    KeyIsApply(RecordLot, m, rec);
    assert [rec][1..] == [];
  }

  /** Appending a record to its lot's group keeps every group equal to its lot's records so far. */
  lemma GroupsStep(prefix: seq<Row<DailyRecord>>, rec: Row<DailyRecord>, groups: map<Id, seq<Row<DailyRecord>>>)
    requires forall l :: l in groups ==> groups[l] == GroupOf(prefix, l)
    ensures var g := groups[rec.data.lot := GroupOf(prefix, rec.data.lot) + [rec]];
      forall l :: l in g ==> g[l] == GroupOf(prefix + [rec], l)
  {
    var g := groups[rec.data.lot := GroupOf(prefix, rec.data.lot) + [rec]];
    forall m | m in g ensures g[m] == GroupOf(prefix + [rec], m) {
      GroupStep(prefix, rec, m);
    }
  }

  /** `records_by_lot[rec.lot_id].append(rec)` over the ordered records. */
  method GroupByLot(recs: seq<Row<DailyRecord>>) returns (order: seq<Id>, groups: map<Id, seq<Row<DailyRecord>>>)
    ensures order == FirstSeen(recs, RecordLotKey)
    ensures forall l :: l in groups <==> l in order
    ensures forall l :: l in groups ==> groups[l] == GroupOf(recs, l)
  {
    order := [];
    groups := map[];
    var i := 0;
    while i < |recs|
      invariant 0 <= i <= |recs|
      invariant order == FirstSeen(recs[..i], RecordLotKey)
      invariant forall l :: l in groups <==> l in order
      invariant forall l :: l in groups ==> groups[l] == GroupOf(recs[..i], l)
    {
      var rec := recs[i];
      var l := rec.data.lot;
      ghost var prefix := recs[..i];
      ghost var old_groups := groups;
      PrefixSnoc(recs, i);
      FirstSeenStep(prefix, rec, RecordLotKey);
      if l !in groups {
        UnseenGroupEmpty(prefix, l);
        assert [] + [rec] == [rec];
      }
      GroupsStep(prefix, rec, groups);
      if l in groups {
        groups := groups[l := groups[l] + [rec]];
      } else {
        groups := groups[l := [rec]];
        order := order + [l];
      }
      i := i + 1;
    }
    assert recs[..i] == recs;
  }

  /**
   * In the ordered records each lot's group runs by ascending date and holds exactly that lot's
   * records: its first element is the lot's earliest record and its last the latest.
   */
  lemma GroupsRunByDate(recs: seq<Row<DailyRecord>>, l: Id)
    ensures SortedBy(GroupOf(OrderedRecords(recs), l), RecordDate)
    ensures forall x :: x in GroupOf(OrderedRecords(recs), l) <==> x in recs && x.data.lot == l
  {
    var byDate := SortBy(recs, RecordDate);
    SortByStable(byDate, RecordLot, l);
    SortBySorted(recs, RecordDate);
    FilterSorted(byDate, RecordDate, KeyIs(RecordLot, l));
    SortByPermutes(recs, RecordDate);
    SortByPermutes(byDate, RecordLot);
    var g := GroupOf(OrderedRecords(recs), l);
    forall x ensures x in g <==> x in recs && x.data.lot == l {
      if x in recs && x.data.lot == l {
        assert x in multiset(byDate);
        var k :| 0 <= k < |byDate| && byDate[k] == x;
        KeyIsApply(RecordLot, l, byDate[k]);
      }
      if x in g {
        var k :| 0 <= k < |g| && g[k] == x;
        assert x in byDate;
        assert x in multiset(recs);
      }
    }
  }

  /** Hence the group's first and last records bound the dates of all that lot's records in the window. */
  lemma FirstAndLastByDate(recs: seq<Row<DailyRecord>>, l: Id, x: Row<DailyRecord>)
    requires x in recs && x.data.lot == l
    ensures |GroupOf(OrderedRecords(recs), l)| >= 1
    ensures GroupOf(OrderedRecords(recs), l)[0].data.date <= x.data.date
    ensures x.data.date <= GroupOf(OrderedRecords(recs), l)[|GroupOf(OrderedRecords(recs), l)| - 1].data.date
  {
    GroupsRunByDate(recs, l);
    var g := GroupOf(OrderedRecords(recs), l);
    var k :| 0 <= k < |g| && g[k] == x;
    assert RecordDate(g[0]) <= RecordDate(g[k]) || k == 0;
    assert RecordDate(g[k]) <= RecordDate(g[|g| - 1]) || k == |g| - 1;
  }

  // ----- weight gain -----

  /** `float(last.avg_weight_kg - first.avg_weight_kg)`. */
  function Gain(g: seq<Row<DailyRecord>>): real
    requires |g| >= 1
  {
    g[|g| - 1].data.avgWeightKg - g[0].data.avgWeightKg
  }

  /** `max((last.date - first.date).days, 1)`. */
  function Days(g: seq<Row<DailyRecord>>): (d: int)
    requires |g| >= 1
    ensures d >= 1 && d >= g[|g| - 1].data.date - g[0].data.date
    ensures d == 1 || d == g[|g| - 1].data.date - g[0].data.date
  {
    var span := g[|g| - 1].data.date - g[0].data.date;
    if span > 1 then span else 1
  }

  /** `first.lot.initial_count`, through the forward key (whatever the lot's flag). */
  function Headcount(s: Store, l: Id): int {
    match Find(s.lots, l)
    case None => 0
    case Some(lot) => lot.data.initialCount
  }

  /** The three accumulators of the gain loop: `total_weight_gain`, `avg_daily_gain_sum`, `gain_lot_count`. */
  datatype GainTotals = GainTotals(weightGain: real, rateSum: real, lots: nat)

  /** What a lot's group adds: nothing below two records; a positive gain weighs in only with a headcount. */
  function GainStep(acc: GainTotals, g: seq<Row<DailyRecord>>, headcount: int): GainTotals {
    if |g| < 2 then acc
    else
      var gain := Gain(g);
      GainTotals(
        if gain > 0.0 && headcount != 0 then acc.weightGain + gain * headcount as real else acc.weightGain,
        acc.rateSum + gain / Days(g) as real,
        acc.lots + 1)
  }

  /** The accumulators after the groups of `keys`, in that order. */
  function GainFold(s: Store, keys: seq<Id>, recs: seq<Row<DailyRecord>>): GainTotals
    decreases |keys|
  {
    if keys == [] then GainTotals(0.0, 0.0, 0)
    else
      var l := keys[|keys| - 1];
      GainStep(GainFold(s, keys[..|keys| - 1], recs), GroupOf(recs, l), Headcount(s, l))
  }

  /** The loop over `records_by_lot.values()`. */
  method GainLoop(s: Store, keys: seq<Id>, groups: map<Id, seq<Row<DailyRecord>>>, recs: seq<Row<DailyRecord>>)
    returns (totalWeightGain: real, avgDailyGainSum: real, gainLotCount: nat)
    requires forall l :: l in keys ==> l in groups && groups[l] == GroupOf(recs, l)
    ensures GainTotals(totalWeightGain, avgDailyGainSum, gainLotCount) == GainFold(s, keys, recs)
  {
    totalWeightGain, avgDailyGainSum, gainLotCount := 0.0, 0.0, 0;
    var j := 0;
    while j < |keys|
      invariant 0 <= j <= |keys|
      invariant GainTotals(totalWeightGain, avgDailyGainSum, gainLotCount) == GainFold(s, keys[..j], recs)
    {
      GainFoldStep(s, keys, recs, j);
      totalWeightGain, avgDailyGainSum, gainLotCount :=
        AddLotGain(totalWeightGain, avgDailyGainSum, gainLotCount, groups[keys[j]], Headcount(s, keys[j]));
      j := j + 1;
    }
    assert keys[..j] == keys;
  }

  /** The body of the gain loop for one lot's records. */
  method AddLotGain(weightGain: real, rateSum: real, lots: nat, lotRecords: seq<Row<DailyRecord>>, headcount: int)
    returns (totalWeightGain: real, avgDailyGainSum: real, gainLotCount: nat)
    ensures GainTotals(totalWeightGain, avgDailyGainSum, gainLotCount) ==
      GainStep(GainTotals(weightGain, rateSum, lots), lotRecords, headcount)
  {
    totalWeightGain, avgDailyGainSum, gainLotCount := weightGain, rateSum, lots;
    if |lotRecords| >= 2 {
      var first := lotRecords[0];
      var last := lotRecords[|lotRecords| - 1];
      var days := Days(lotRecords);
      var gainPerAnimal := last.data.avgWeightKg - first.data.avgWeightKg;
      avgDailyGainSum := avgDailyGainSum + gainPerAnimal / days as real;
      gainLotCount := gainLotCount + 1;
      if gainPerAnimal > 0.0 && headcount != 0 {
        totalWeightGain := totalWeightGain + gainPerAnimal * headcount as real;
      }
    }
  }

  /** One more key adds its group's step to the accumulators. */
  lemma GainFoldStep(s: Store, keys: seq<Id>, recs: seq<Row<DailyRecord>>, j: nat)
    requires j < |keys|
    ensures GainFold(s, keys[..j + 1], recs) ==
      GainStep(GainFold(s, keys[..j], recs), GroupOf(recs, keys[j]), Headcount(s, keys[j]))
  {
    assert keys[..j + 1][..j] == keys[..j];
  }

  /** The weight gain never goes below zero, since only positive gains are added. */
  lemma {:induction false} WeightGainNonNegative(s: Store, keys: seq<Id>, recs: seq<Row<DailyRecord>>)
    ensures GainFold(s, keys, recs).weightGain >= 0.0
    decreases |keys|
  {
    if keys != [] {
      WeightGainNonNegative(s, keys[..|keys| - 1], recs);
    }
  }

  /** Only lots with at least two records are counted. */
  lemma {:induction false} GainLotsCounted(s: Store, keys: seq<Id>, recs: seq<Row<DailyRecord>>)
    ensures GainFold(s, keys, recs).lots == |Filter(keys, (l: Id) => |GroupOf(recs, l)| >= 2)|
    decreases |keys|
  {
    if keys != [] {
      var init := keys[..|keys| - 1];
      GainLotsCounted(s, init, recs);
      assert keys == init + [keys[|keys| - 1]];
      FilterAppend(init, [keys[|keys| - 1]], (l: Id) => |GroupOf(recs, l)| >= 2);
    }
  }

  /** `avg_daily_gain`: the mean of the per-lot daily gains, negative ones included; 0 without lots. */
  function AverageDailyGain(t: GainTotals): real {
    if t.lots != 0 then t.rateSum / t.lots as real else 0.0
  }

  /** `feed_conversion_ratio`: feed over weight gained, None unless some weight was gained. */
  function FeedConversionRatio(feed: real, t: GainTotals): Option<real> {
    if t.weightGain > 0.0 then Some(feed / t.weightGain) else None
  }

  // ----- margins -----

  /** `float(entry.amount)` for a revenue, minus it for any other entry type. */
  function SignedAmount(e: Row<FinancialEntry>): real {
    if e.data.entryType == Revenue then e.data.amount else -e.data.amount
  }

  function EntryLot(e: Row<FinancialEntry>): Option<Id> { e.data.lot }
  predicate HasLot(e: Row<FinancialEntry>) { e.data.lot.Some? }
  predicate HasNoLot(e: Row<FinancialEntry>) { e.data.lot.None? }

  function OfEntryLot(l: Id): Row<FinancialEntry> -> bool {
    (e: Row<FinancialEntry>) => e.data.lot == Some(l)
  }

  /** A lot's 30-day margin: the signed amounts of the entries that name it. */
  function LotMarginOf(es: seq<Row<FinancialEntry>>, l: Id): real {
    SumReal(Filter(es, OfEntryLot(l)), SignedAmount)
  }

  /** One element of `lot_margins_30d`. */
  datatype LotMargin = LotMargin(lot: Id, code: string, margin: real)

  function MarginValue(m: LotMargin): real { m.margin }

  /** `entry.lot.code`, or '' when the lot cannot be loaded. */
  function LotCode(s: Store, l: Id): string {
    match Find(s.lots, l)
    case None => ""
    case Some(lot) => lot.data.code
  }

  /** `lot_margin_map.values()` for the lots of `keys`, in that order. */
  function MarginRows(s: Store, keys: seq<Id>, es: seq<Row<FinancialEntry>>): seq<LotMargin>
    decreases |keys|
  {
    if keys == [] then [] else [LotMargin(keys[0], LotCode(s, keys[0]), LotMarginOf(es, keys[0]))] + MarginRows(s, keys[1..], es)
  }

  lemma MarginStep(es: seq<Row<FinancialEntry>>, e: Row<FinancialEntry>, m: Id)
    ensures LotMarginOf(es + [e], m) == LotMarginOf(es, m) + (if e.data.lot == Some(m) then SignedAmount(e) else 0.0)
  {
    FilterAppend(es, [e], OfEntryLot(m));
    SumRealAppend(Filter(es, OfEntryLot(m)), Filter([e], OfEntryLot(m)), SignedAmount);
    assert OfEntryLot(m)(e) <==> e.data.lot == Some(m);
    assert [e][1..] == [];
  }

  /** Each lot of the map holds that lot's margin over `es`. */
  ghost predicate MarginsMatch(margins: map<Id, real>, es: seq<Row<FinancialEntry>>) {
    forall l :: l in margins ==> margins[l] == LotMarginOf(es, l)
  }

  /** The entry loop: the farm margin and, per lot seen, the sum of its signed amounts. */
  method MarginLoop(es: seq<Row<FinancialEntry>>) returns (farmMargin: real, order: seq<Id>, margins: map<Id, real>)
    ensures farmMargin == SumReal(es, SignedAmount)
    ensures order == FirstSeen(es, EntryLot)
    ensures forall l :: l in margins <==> l in order
    ensures forall l :: l in margins ==> margins[l] == LotMarginOf(es, l)
  {
    farmMargin := 0.0;
    order := [];
    margins := map[];
    var i := 0;
    while i < |es|
      invariant 0 <= i <= |es|
      invariant farmMargin == SumReal(es[..i], SignedAmount)
      invariant order == FirstSeen(es[..i], EntryLot)
      invariant forall l :: l in margins <==> l in order
      invariant MarginsMatch(margins, es[..i])
    {
      var entry := es[i];
      ghost var prefix := es[..i];
      assert es[..i + 1] == prefix + [entry];
      FirstSeenStep(prefix, entry, EntryLot);
      SumRealAppend(prefix, [entry], SignedAmount);
      var signedAmount := SignedAmount(entry);
      farmMargin := farmMargin + signedAmount;
      if entry.data.lot.Some? {
        var l := entry.data.lot.value;
        if l in margins {
          margins := margins[l := margins[l] + signedAmount];
        } else {
          UnseenLotNoMargin(prefix, l);
          margins := margins[l := signedAmount];
          order := order + [l];
        }
      }
      forall m | m in margins ensures margins[m] == LotMarginOf(prefix + [entry], m) {
        MarginStep(prefix, entry, m);
      }
      assert MarginsMatch(margins, prefix + [entry]);
      i := i + 1;
    }
    assert es[..i] == es;
  }

  /** A lot no entry has named yet has margin 0. */
  lemma UnseenLotNoMargin(es: seq<Row<FinancialEntry>>, l: Id)
    requires l !in FirstSeen(es, EntryLot)
    ensures LotMarginOf(es, l) == 0.0
  {
    FirstSeenKeys(es, EntryLot);
    forall i | 0 <= i < |es| ensures !OfEntryLot(l)(es[i]) {
      assert EntryLot(es[i]) == es[i].data.lot;
    }
    FilterNone(es, OfEntryLot(l));
  }

  lemma {:induction false} MarginRowsAppend(s: Store, keys: seq<Id>, l: Id, es: seq<Row<FinancialEntry>>)
    ensures MarginRows(s, keys + [l], es) == MarginRows(s, keys, es) + [LotMargin(l, LotCode(s, l), LotMarginOf(es, l))]
    decreases |keys|
  {
    if keys == [] {
      assert keys + [l] == [l];
    } else {
      assert (keys + [l])[1..] == keys[1..] + [l];
      MarginRowsAppend(s, keys[1..], l, es);
    }
  }

  /** With distinct keys, one more entry moves the sum of the listed margins by its amount exactly when it names a listed lot. */
  lemma {:induction false} MarginRowsShift(s: Store, keys: seq<Id>, es: seq<Row<FinancialEntry>>, e: Row<FinancialEntry>)
    requires forall i, j :: 0 <= i < j < |keys| ==> keys[i] != keys[j]
    ensures SumReal(MarginRows(s, keys, es + [e]), MarginValue) ==
      SumReal(MarginRows(s, keys, es), MarginValue) + (if e.data.lot.Some? && e.data.lot.value in keys then SignedAmount(e) else 0.0)
    decreases |keys|
  {
    if keys != [] {
      var k := keys[0];
      var t := keys[1..];
      assert forall i, j :: 0 <= i < j < |t| ==> t[i] != t[j] by {
        forall i, j | 0 <= i < j < |t| ensures t[i] != t[j] { assert t[i] == keys[i + 1] && t[j] == keys[j + 1]; }
      }
      MarginRowsShift(s, t, es, e);
      MarginStep(es, e, k);
      assert k !in t by {
        forall i | 0 <= i < |t| ensures t[i] != k { assert t[i] == keys[i + 1]; }
      }
      assert forall x :: x in keys <==> x == k || x in t by {
        assert keys == [k] + t;
      }
    }
  }

  /** The listed lot margins add up to the signed amounts of the entries that name a lot. */
  lemma {:induction false} LotMarginsCoverLotEntries(s: Store, es: seq<Row<FinancialEntry>>)
    ensures SumReal(MarginRows(s, FirstSeen(es, EntryLot), es), MarginValue) == SumReal(Filter(es, HasLot), SignedAmount)
    decreases |es|
  {
    if es != [] {
      var init := es[..|es| - 1];
      var e := es[|es| - 1];
      assert es == init + [e];
      var keys := FirstSeen(init, EntryLot);
      FirstSeenKeys(init, EntryLot);
      FirstSeenStep(init, e, EntryLot);
      LotMarginsCoverLotEntries(s, init);
      MarginRowsShift(s, keys, init, e);
      LotEntriesStep(init, e);
      if e.data.lot.Some? && e.data.lot.value !in keys {
        var l := e.data.lot.value;
        MarginRowsAppend(s, keys, l, es);
        SumRealAppend(MarginRows(s, keys, es), [LotMargin(l, LotCode(s, l), LotMarginOf(es, l))], MarginValue);
        UnseenLotNoMargin(init, l);
        MarginStep(init, e, l);
      }
    }
  }

  lemma LotEntriesStep(es: seq<Row<FinancialEntry>>, e: Row<FinancialEntry>)
    ensures SumReal(Filter(es + [e], HasLot), SignedAmount) ==
      SumReal(Filter(es, HasLot), SignedAmount) + (if e.data.lot.Some? then SignedAmount(e) else 0.0)
  {
    FilterAppend(es, [e], HasLot);
    SumRealAppend(Filter(es, HasLot), Filter([e], HasLot), SignedAmount);
    assert [e][1..] == [];
  }

  /**
   * The farm margin counts every entry of the window; only entries naming a lot feed the per-lot
   * margins, so the farm margin is the sum of the lot margins plus the entries without a lot.
   */
  lemma FarmMarginSplits(s: Store, es: seq<Row<FinancialEntry>>)
    ensures SumReal(es, SignedAmount) ==
      SumReal(MarginRows(s, FirstSeen(es, EntryLot), es), MarginValue) + SumReal(Filter(es, HasNoLot), SignedAmount)
  {
    LotMarginsCoverLotEntries(s, es);
    SumRealSplit(es, HasLot, HasNoLot, SignedAmount);
  }

  // ----- the response -----

  /** The response body (before rounding); `stock_alerts` carries the alerting item rows. */
  datatype Summary = Summary(
    totalLots: nat, activeLots: nat,
    mortality7d: int, mortalityRatePercent7d: real,
    feedIntakeKg7d: real, milkProductionL7d: real,
    eggsCount7d: int, eggsPerHenPerDay: real,
    avgDailyGainKg: real, feedConversionRatio: Option<real>,
    farmMargin30d: real, lotMargins30d: seq<LotMargin>,
    stockAlerts: seq<Row<StockItem>>)

  /** The summary of farm `f` on day `today`, stated over the query sets. */
  function SummaryOf(s: Store, f: Id, today: Date): Summary {
    var lots := FarmLots(s, f);
    var recs := WeekRecords(s, f, today);
    var start := SumInt(lots, InitialCount);
    var ordered := OrderedRecords(recs);
    var gains := GainFold(s, FirstSeen(ordered, RecordLotKey), ordered);
    var feed := SumReal(recs, RecordFeed);
    var es := MonthEntries(s, f, today);
    Summary(
      |lots|, |Filter(lots, IsActive)|,
      SumInt(recs, RecordMortality), MortalityRate(SumInt(recs, RecordMortality), start),
      feed, SumReal(recs, RecordMilk),
      SumInt(recs, RecordEggs), EggsPerHenDay(SumInt(recs, RecordEggs), start),
      AverageDailyGain(gains), FeedConversionRatio(feed, gains),
      SumReal(es, SignedAmount), MarginRows(s, FirstSeen(es, EntryLot), es),
      Filter(FarmItems(s, f), IsLow))
  }

  function DashboardResponse(s: Store, c: Caller, farmParam: Option<Id>, today: Date): Result<Summary, ApiError> {
    match Access(s, c, farmParam)
    case Err(e) => Err(e)
    case Ok(f) => Ok(SummaryOf(s, f, today))
  }

  /** `DashboardSummaryView.get`, with today's date as a parameter. */
  method Get(s: Store, c: Caller, farmParam: Option<Id>, today: Date) returns (r: Result<Summary, ApiError>)
    ensures r == DashboardResponse(s, c, farmParam, today)
  {
    var access := Access(s, c, farmParam);
    if access.Err? {
      return Err(access.error);
    }
    var farm := access.value;
    var last7 := today - 7;
    var last30 := today - 30;
    var lotsQs := FarmLots(s, farm);
    var recordsQs := WeekRecords(s, farm, today);
    var stockQs := FarmItems(s, farm);
    var entriesQs := MonthEntries(s, farm, today);

    var totalLots := |lotsQs|;
    var activeLots := |Filter(lotsQs, IsActive)|;
    var startPopulation := SumInt(lotsQs, InitialCount);
    var mortality := SumInt(recordsQs, RecordMortality);
    var feedIntake := SumReal(recordsQs, RecordFeed);
    var milk := SumReal(recordsQs, RecordMilk);
    var eggs := SumInt(recordsQs, RecordEggs);

    var ordered := OrderedRecords(recordsQs);
    var order, recordsByLot := GroupByLot(ordered);
    var totalWeightGain, avgDailyGainSum, gainLotCount := GainLoop(s, order, recordsByLot, ordered);
    var gains := GainTotals(totalWeightGain, avgDailyGainSum, gainLotCount);

    var farmMargin, lotOrder, lotMargins := MarginLoop(entriesQs);
    var lotMarginRows := MarginRows(s, lotOrder, entriesQs);

    r := Ok(Summary(
      totalLots, activeLots,
      mortality, MortalityRate(mortality, startPopulation),
      feedIntake, milk,
      eggs, EggsPerHenDay(eggs, startPopulation),
      AverageDailyGain(gains), FeedConversionRatio(feedIntake, gains),
      farmMargin, lotMarginRows,
      Filter(stockQs, IsLow)));
  }

  // ----- what the response states -----

  /**
   * The counts are over the farm's alive lots, the week's totals over its alive records dated
   * from seven days back with no upper bound, and the alerts are exactly its alive items whose
   * quantity is strictly below their threshold.
   */
  lemma WindowsAndAlerts(s: Store, f: Id, today: Date)
    ensures SummaryOf(s, f, today).activeLots <= SummaryOf(s, f, today).totalLots
    ensures forall i :: 0 <= i < |s.records| ==>
      (s.records[i] in WeekRecords(s, f, today) <==>
        !s.records[i].isDeleted && LotFarm(s, s.records[i].data.lot) == Some(f) && s.records[i].data.date >= today - 7)
    ensures forall i :: 0 <= i < |s.stockItems| ==>
      (s.stockItems[i] in SummaryOf(s, f, today).stockAlerts <==>
        !s.stockItems[i].isDeleted && s.stockItems[i].data.farm == f && s.stockItems[i].data.quantity < s.stockItems[i].data.alertThreshold)
  {
    var items := FarmItems(s, f);
    forall i | 0 <= i < |s.stockItems| && s.stockItems[i] in Filter(items, IsLow)
      ensures !s.stockItems[i].isDeleted && s.stockItems[i].data.farm == f
    {
      var k :| 0 <= k < |Filter(items, IsLow)| && Filter(items, IsLow)[k] == s.stockItems[i];
      assert s.stockItems[i] in items;
      var m :| 0 <= m < |items| && items[m] == s.stockItems[i];
    }
    forall i | 0 <= i < |s.stockItems| && ItemOfFarm(f)(s.stockItems[i]) && IsLow(s.stockItems[i])
      ensures s.stockItems[i] in Filter(items, IsLow)
    {
      var m :| 0 <= m < |items| && items[m] == s.stockItems[i];
    }
    forall i | 0 <= i < |s.records| && s.records[i] in WeekRecords(s, f, today)
      ensures RecordInWindow(s, f, today - 7)(s.records[i])
    {
      var k :| 0 <= k < |WeekRecords(s, f, today)| && WeekRecords(s, f, today)[k] == s.records[i];
    }
  }

  /**
   * The feed conversion ratio is reported exactly when some weight was gained over the groups,
   * and is then the feed over that gain.
   */
  lemma FeedConversionIff(s: Store, keys: seq<Id>, recs: seq<Row<DailyRecord>>, feed: real)
    ensures FeedConversionRatio(feed, GainFold(s, keys, recs)).None? <==> GainFold(s, keys, recs).weightGain == 0.0
    ensures FeedConversionRatio(feed, GainFold(s, keys, recs)).Some? ==>
      FeedConversionRatio(feed, GainFold(s, keys, recs)).value * GainFold(s, keys, recs).weightGain == feed
  {
    WeightGainNonNegative(s, keys, recs);
  }
}
