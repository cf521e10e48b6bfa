/**
 * The smart-waste-bin endpoints of the backend (main.py): the status update
 * an ESP32 posts for its organic and non-organic bin, the maintenance reset
 * of one bin, and the statistics over all bins. A `BinDb` plays the part of
 * the database session: the `bins` and `bin_events` tables are sequences of
 * rows in insertion order, and the clock is a parameter.
 */
module WasteBins {
  import opened Wrappers
  import opened Ordering

  /** A row of `bins`: `level` is a fill percentage, `lastUpdate` the time of the last write. */
  datatype Bin = Bin(id: string, binType: string, weight: real, level: int, full: bool, lastUpdate: int)

  /** A row of `bin_events`. */
  datatype BinEvent = BinEvent(binId: string, eventType: string)

  /**
   * The `BinUpdate` request. A weight sent as null is `None`; an omitted
   * weight is `Some(0.0)`, its declared default.
   */
  datatype BinUpdate = BinUpdate(
    binOrganicId: string, binNonOrganicId: string,
    organicWeight: Option<real>, nonOrganicWeight: Option<real>,
    organicLevel: Option<int>, nonOrganicLevel: Option<int>,
    organicFull: bool, nonOrganicFull: bool, timestamp: Option<int>)

  /** The weight and level that are stored for one bin. */
  datatype Fill = Fill(weight: real, level: int)

  const OrganicType: string := "organic"
  const NonOrganicType: string := "non_organic"
  const ResetEvent: string := "reset"
  /** A full bin is taken to hold 10 kg. */
  const FullWeightKg: real := 10.0

  /** Python's `int()` on a real: truncation toward zero. */
  function Trunc(x: real): (r: int)
    ensures 0.0 <= x ==> r as real <= x < r as real + 1.0
    ensures x < 0.0 ==> r as real - 1.0 < x <= r as real
  {
    if x >= 0.0 then x.Floor else -((-x).Floor)
  }

  /** The weight estimated from a fill level alone. */
  function WeightFromLevel(level: int): real {
    (level as real / 100.0) * FullWeightKg
  }

  /** The fill level estimated from a weight alone. */
  function LevelFromWeight(weight: real): int {
    Trunc((weight / FullWeightKg) * 100.0)
  }

  /** Estimating the level back from an estimated weight gives the level again. */
  lemma LevelWeightRoundTrip(level: int)
    ensures LevelFromWeight(WeightFromLevel(level)) == level
  {
    assert (WeightFromLevel(level) / FullWeightKg) * 100.0 == level as real;
  }

  /** An estimated level undershoots the weight by less than one percent of a full bin. */
  lemma WeightLevelBracket(weight: real)
    requires weight > 0.0
    ensures 0 <= LevelFromWeight(weight)
    ensures WeightFromLevel(LevelFromWeight(weight)) <= weight < WeightFromLevel(LevelFromWeight(weight)) + FullWeightKg / 100.0
  {
    var x := (weight / FullWeightKg) * 100.0;
    assert x == weight * 10.0;
    var l := LevelFromWeight(weight);
    assert l as real <= x < l as real + 1.0;
    assert WeightFromLevel(l) == l as real / 10.0;
  }

  /**
   * The weight and level stored for one bin: a level without a weight gives
   * the weight, a weight without a level gives the level, a level still
   * missing is 0. A null weight makes the comparison with 0 raise, which is
   * `None`.
   */
  function Infer(weight: Option<real>, level: Option<int>): (r: Option<Fill>)
    ensures r.None? <==> weight.None?
    ensures r.Some? && level.Some? ==> r.value.level == level.value
    ensures r.Some? && weight.value != 0.0 ==> r.value.weight == weight.value
    ensures r.Some? && level.None? ==> r.value.weight == weight.value
  {
    match weight
    case None => None
    case Some(w) =>
      if level.Some? && w == 0.0 then Some(Fill(WeightFromLevel(level.value), level.value))
      else if w > 0.0 && level.None? then Some(Fill(w, LevelFromWeight(w)))
      else Some(Fill(w, level.GetOr(0)))
  }

  /** What the inference does with each combination of inputs. */
  lemma InferCases(w: real, level: Option<int>)
    ensures level.Some? && w == 0.0 ==> Infer(Some(w), level) == Some(Fill(WeightFromLevel(level.value), level.value))
    ensures level.None? && w > 0.0 ==> Infer(Some(w), level) == Some(Fill(w, LevelFromWeight(w)))
    ensures level.None? && w <= 0.0 ==> Infer(Some(w), level) == Some(Fill(w, 0))
    ensures level.Some? && w != 0.0 ==> Infer(Some(w), level) == Some(Fill(w, level.value))
  {
  }

  /** An inferred pair never contradicts itself: a level estimated from a weight maps back onto that weight. */
  lemma InferConsistent(w: real, level: Option<int>)
    requires (level.Some? && w == 0.0) || (level.None? && w > 0.0)
    ensures var f := Infer(Some(w), level).value;
      level.Some? ==> LevelFromWeight(f.weight) == f.level
    ensures var f := Infer(Some(w), level).value;
      level.None? ==> WeightFromLevel(f.level) <= f.weight < WeightFromLevel(f.level) + 0.1
  {
    if level.Some? {
      LevelWeightRoundTrip(level.value);
    } else {
      WeightLevelBracket(w);
    }
  }

  /** Index of the bin with this primary key. */
  function FindBin(bins: seq<Bin>, id: string): (r: Option<nat>)
    ensures r.None? <==> forall i :: 0 <= i < |bins| ==> bins[i].id != id
    ensures r.Some? ==> r.value < |bins| && bins[r.value].id == id
    ensures r.Some? ==> forall i :: 0 <= i < r.value ==> bins[i].id != id
  {
    FirstIndex(bins, (b: Bin) => b.id == id)
  }

  /** The first row carrying the id is the one the query finds. */
  lemma FindBinFirst(bins: seq<Bin>, id: string, i: nat)
    requires i < |bins| && bins[i].id == id
    requires forall j :: 0 <= j < i ==> bins[j].id != id
    ensures FindBin(bins, id) == Some(i)
  {
  }

  predicate UniqueBinIds(bins: seq<Bin>) {
    forall i, j :: 0 <= i < j < |bins| ==> bins[i].id != bins[j].id
  }

  /**
   * The bin table after one half of the update: an existing bin has its
   * weight, level and fullness overwritten and is stamped; an unknown id is
   * added with the given type.
   */
  function StoreBin(bins: seq<Bin>, id: string, binType: string, f: Fill, full: bool, now: int): seq<Bin> {
    match FindBin(bins, id)
    case Some(i) => bins[i := bins[i].(weight := f.weight, level := f.level, full := full, lastUpdate := now)]
    case None => bins + [Bin(id, binType, f.weight, f.level, full, now)]
  }

  /** After storing, the bin with this id holds what was sent; its type is the old one if it existed. */
  lemma StoreBinFinds(bins: seq<Bin>, id: string, binType: string, f: Fill, full: bool, now: int)
    ensures var r := StoreBin(bins, id, binType, f, full, now);
      && FindBin(r, id).Some?
      && var b := r[FindBin(r, id).value];
      && b.weight == f.weight && b.level == f.level && b.full == full && b.lastUpdate == now
      && b.binType == (if FindBin(bins, id).Some? then bins[FindBin(bins, id).value].binType else binType)
  {
    var r := StoreBin(bins, id, binType, f, full, now);
    match FindBin(bins, id)
    case Some(i) =>
      assert forall j :: 0 <= j < i ==> r[j] == bins[j];
      FindBinFirst(r, id, i);
    case None =>
      assert forall j :: 0 <= j < |bins| ==> r[j] == bins[j];
      FindBinFirst(r, id, |bins|);
  }

  /** Storing one bin leaves every other bin as it was and adds at most one row. */
  lemma StoreBinOthers(bins: seq<Bin>, id: string, binType: string, f: Fill, full: bool, now: int)
    ensures var r := StoreBin(bins, id, binType, f, full, now);
      && |bins| <= |r| <= |bins| + 1
      && (|r| == |bins| + 1 <==> FindBin(bins, id).None?)
      && forall j :: 0 <= j < |bins| && bins[j].id != id ==> r[j] == bins[j]
  {
  }

  /** Storing keeps the primary key unique. */
  lemma StoreBinUnique(bins: seq<Bin>, id: string, binType: string, f: Fill, full: bool, now: int)
    requires UniqueBinIds(bins)
    ensures UniqueBinIds(StoreBin(bins, id, binType, f, full, now))
  {
  }

  /** The bin table after a reset of the bin at index `i`. */
  function ResetRow(b: Bin, now: int): Bin {
    b.(weight := 0.0, level := 0, full := false, lastUpdate := now)
  }

  class BinDb {
    var bins: seq<Bin>
    var events: seq<BinEvent>

    ghost predicate Valid()
      reads this
    {
      UniqueBinIds(bins)
    }

    constructor (bins: seq<Bin>, events: seq<BinEvent>)
      requires UniqueBinIds(bins)
      ensures Valid() && this.bins == bins && this.events == events
    {
      this.bins := bins;
      this.events := events;
    }
  }

  /**
   * One half of `update_bins`. The "became full" event is tested after
   * `full` has been assigned, so it is never logged and the events stay as
   * they were.
   */
  method StoreOne(db: BinDb, id: string, binType: string, f: Fill, full: bool, now: int)
    requires db.Valid()
    modifies db
    ensures db.Valid()
    ensures db.bins == StoreBin(old(db.bins), id, binType, f, full, now)
    ensures db.events == old(db.events)
  {
    StoreBinUnique(db.bins, id, binType, f, full, now);
    var found := FindBin(db.bins, id);
    if found.Some? {
      var i := found.value;
      var b := db.bins[i];
      b := b.(weight := f.weight, level := f.level, full := full, lastUpdate := now);
      var becameFull := full && !b.full;
      db.events := db.events + if becameFull then [BinEvent(id, "full")] else [];
      db.bins := db.bins[i := b];
    } else {
      db.bins := db.bins + [Bin(id, binType, f.weight, f.level, full, now)];
    }
  }

  /**
   * `update_bins`: the organic bin and then the non-organic bin. A null
   * weight raises, the session is rolled back and the answer is an error
   * with nothing changed.
   */
  method UpdateBins(db: BinDb, data: BinUpdate, now: int) returns (ok: bool)
    requires db.Valid()
    modifies db
    ensures db.Valid()
    ensures ok <==> data.organicWeight.Some? && data.nonOrganicWeight.Some?
    ensures !ok ==> db.bins == old(db.bins)
    ensures ok ==>
      var afterOrganic := StoreBin(old(db.bins), data.binOrganicId, OrganicType,
                                   Infer(data.organicWeight, data.organicLevel).value, data.organicFull, now);
      db.bins == StoreBin(afterOrganic, data.binNonOrganicId, NonOrganicType,
                          Infer(data.nonOrganicWeight, data.nonOrganicLevel).value, data.nonOrganicFull, now)
    ensures db.events == old(db.events)
  {
    var bins0 := db.bins;
    var organic := Infer(data.organicWeight, data.organicLevel);
    if organic.None? {
      return false;
    }
    StoreOne(db, data.binOrganicId, OrganicType, organic.value, data.organicFull, now);
    var nonOrganic := Infer(data.nonOrganicWeight, data.nonOrganicLevel);
    if nonOrganic.None? {
      db.bins := bins0;
      return false;
    }
    StoreOne(db, data.binNonOrganicId, NonOrganicType, nonOrganic.value, data.nonOrganicFull, now);
    ok := true;
  }

  /**
   * `reset_bin`: an unknown id is a 404 with nothing changed; otherwise the
   * bin is emptied and exactly one "reset" event is logged.
   */
  method ResetBin(db: BinDb, id: string, now: int) returns (found: bool)
    requires db.Valid()
    modifies db
    ensures db.Valid()
    ensures found <==> FindBin(old(db.bins), id).Some?
    ensures !found ==> db.bins == old(db.bins) && db.events == old(db.events)
    ensures found ==> var i := FindBin(old(db.bins), id).value;
      db.bins == old(db.bins)[i := ResetRow(old(db.bins)[i], now)]
    ensures found ==> db.events == old(db.events) + [BinEvent(id, ResetEvent)]
  {
    var k := FindBin(db.bins, id);
    if k.None? {
      return false;
    }
    var i := k.value;
    db.bins := db.bins[i := ResetRow(db.bins[i], now)];
    db.events := db.events + [BinEvent(id, ResetEvent)];
    found := true;
  }

  /** Σ weight over the bins. */
  function TotalWeight(bins: seq<Bin>): real {
    if bins == [] then 0.0 else TotalWeight(bins[..|bins| - 1]) + bins[|bins| - 1].weight
  }

  /** The number of bins marked full. */
  function FullCount(bins: seq<Bin>): (r: nat)
    ensures r <= |bins|
  {
    if bins == [] then 0 else FullCount(bins[..|bins| - 1]) + (if bins[|bins| - 1].full then 1 else 0)
  }

  /** Σ level over the bins. */
  function LevelSum(bins: seq<Bin>): int {
    if bins == [] then 0 else LevelSum(bins[..|bins| - 1]) + bins[|bins| - 1].level
  }

  /** The average level, with `0` for an empty table. */
  function AverageLevel(bins: seq<Bin>): real {
    if bins == [] then 0.0 else LevelSum(bins) as real / |bins| as real
  }

  datatype Statistics = Statistics(totalBins: nat, fullBins: nat, totalWeight: real, averageLevel: real)

  function GetStatistics(bins: seq<Bin>): (s: Statistics)
    ensures s.fullBins <= s.totalBins == |bins|
    ensures bins == [] ==> s.totalWeight == 0.0 && s.averageLevel == 0.0
    ensures bins != [] ==> s.averageLevel * (|bins| as real) == LevelSum(bins) as real
  {
    Statistics(|bins|, FullCount(bins), TotalWeight(bins), AverageLevel(bins))
  }

  /** The full count is exactly the number of bins marked full. */
  lemma {:induction false} FullCountIsCount(bins: seq<Bin>)
    ensures FullCount(bins) == |set i | 0 <= i < |bins| && bins[i].full|
  {
    if bins != [] {
      var init := bins[..|bins| - 1];
      FullCountIsCount(init);
      var s0 := set i | 0 <= i < |init| && init[i].full;
      var s := set i | 0 <= i < |bins| && bins[i].full;
      if bins[|bins| - 1].full {
        assert s == s0 + {|bins| - 1};
      } else {
        assert s == s0;
      }
    }
  }

  /** Replacing one bin changes each sum by the difference of the two rows. */
  lemma {:induction false} SumsAfterReplace(bins: seq<Bin>, i: nat, b: Bin)
    requires i < |bins|
    ensures TotalWeight(bins[i := b]) == TotalWeight(bins) - bins[i].weight + b.weight
    ensures LevelSum(bins[i := b]) == LevelSum(bins) - bins[i].level + b.level
    ensures FullCount(bins[i := b]) as int ==
              FullCount(bins) - (if bins[i].full then 1 else 0) + (if b.full then 1 else 0)
  {
    var r := bins[i := b];
    if i < |bins| - 1 {
      SumsAfterReplace(bins[..|bins| - 1], i, b);
      assert r[..|r| - 1] == bins[..|bins| - 1][i := b];
    } else {
      assert r[..|r| - 1] == bins[..|bins| - 1];
    }
  }

  /** A reset takes its bin's weight off the total, its level off the sum and, if it was full, one off the full count. */
  lemma StatisticsAfterReset(bins: seq<Bin>, i: nat, now: int)
    requires i < |bins|
    ensures var r := bins[i := ResetRow(bins[i], now)];
      && TotalWeight(r) == TotalWeight(bins) - bins[i].weight
      && LevelSum(r) == LevelSum(bins) - bins[i].level
      && FullCount(r) as int == FullCount(bins) - (if bins[i].full then 1 else 0)
  {
    SumsAfterReplace(bins, i, ResetRow(bins[i], now));
  }

  /** Levels within [lo, hi] keep their sum within [n·lo, n·hi]. */
  lemma {:induction false} LevelSumBounds(bins: seq<Bin>, lo: int, hi: int)
    requires forall i :: 0 <= i < |bins| ==> lo <= bins[i].level <= hi
    ensures |bins| * lo <= LevelSum(bins) <= |bins| * hi
  {
    if bins != [] {
      LevelSumBounds(bins[..|bins| - 1], lo, hi);
    }
  }

  /** The average of levels that all lie in [lo, hi] lies in [lo, hi] too. */
  lemma AverageWithin(bins: seq<Bin>, lo: int, hi: int)
    requires bins != []
    requires forall i :: 0 <= i < |bins| ==> lo <= bins[i].level <= hi
    ensures lo as real <= AverageLevel(bins) <= hi as real
  {
    LevelSumBounds(bins, lo, hi);
    var n := |bins| as real;
    var s := LevelSum(bins) as real;
    assert n * lo as real <= s <= n * hi as real;
    assert AverageLevel(bins) * n == s;
  }
}
