/**
 * Correlation of a newly stored camera image with a motion alert
 * (burglary_alert/services/correlation.py). Instants are integers in
 * microseconds, the resolution of Python's `datetime`.
 */
module BurglaryCorrelation {
  import opened Wrappers
  import opened Ordering

  const SecondUs: int := 1_000_000
  /** How far before the image the search reaches (10 seconds). */
  const LookbackUs: int := 10 * SecondUs
  /** `CORRELATION_WINDOW_SECONDS`: how far after the image the search reaches, and the strict bound on a match. */
  const CorrelationWindowUs: int := 5 * SecondUs

  /**
   * A motion alert row (burglary_alert/models/alert.py): only the columns the
   * correlation reads or writes.
   */
  datatype Alert = Alert(id: int, timestamp: int, correlated: bool, imageId: Option<int>)

  /** A stored image row; its `alertId` is written by the correlation. */
  class Image {
    const id: int
    const timestamp: int
    var alertId: Option<int>

    constructor (id: int, timestamp: int)
      ensures this.id == id && this.timestamp == timestamp && alertId == None
    {
      this.id := id;
      this.timestamp := timestamp;
      alertId := None;
    }
  }

  function Abs(x: int): int { if x < 0 then -x else x }

  /** `abs(alert.timestamp - image.timestamp)` */
  function Distance(a: Alert, imageTs: int): int { Abs(a.timestamp - imageTs) }

  function TimestampOf(a: Alert): int { a.timestamp }

  /** The query's filter: not yet correlated, timestamp in [imageTs - 10 s, imageTs + 5 s]. */
  predicate IsCandidate(a: Alert, imageTs: int) {
    !a.correlated && imageTs - LookbackUs <= a.timestamp <= imageTs + CorrelationWindowUs
  }

  /** The rows of `alerts` that pass the filter, in table order. */
  function Uncorrelated(alerts: seq<Alert>, imageTs: int): (r: seq<Alert>)
    ensures forall a :: a in r <==> a in alerts && IsCandidate(a, imageTs)
    ensures |r| <= |alerts|
  {
    if alerts == [] then []
    else
      var rest := Uncorrelated(alerts[1..], imageTs);
      assert alerts == [alerts[0]] + alerts[1..];
      if IsCandidate(alerts[0], imageTs) then [alerts[0]] + rest else rest
  }

  /** The query result: candidates ordered by descending timestamp. */
  function Candidates(alerts: seq<Alert>, imageTs: int): (r: seq<Alert>)
    ensures forall a :: a in r <==> a in alerts && IsCandidate(a, imageTs)
    ensures SortedDesc(r, TimestampOf)
  {
    var u := Uncorrelated(alerts, imageTs);
    var r := SortDesc(u, TimestampOf);
    assert forall a :: a in r <==> a in multiset(u);
    r
  }

  /**
   * The best-so-far scan of the source: starting from a minimum of 5 s,
   * an alert replaces the current best only when it is STRICTLY closer.
   */
  method FindBestMatch(candidates: seq<Alert>, imageTs: int) returns (best: Option<Alert>)
    ensures best.None? <==> forall c :: c in candidates ==> Distance(c, imageTs) >= CorrelationWindowUs
    ensures best.Some? ==> best.value in candidates && Distance(best.value, imageTs) < CorrelationWindowUs
    ensures best.Some? ==> forall c :: c in candidates ==> Distance(best.value, imageTs) <= Distance(c, imageTs)
    ensures best.Some? ==> exists k :: 0 <= k < |candidates| && candidates[k] == best.value &&
                             forall j :: 0 <= j < k ==> Distance(candidates[j], imageTs) > Distance(best.value, imageTs)
  {
    best := None;
    var minTimeDiff := CorrelationWindowUs;
    ghost var bestAt := 0;
    for i := 0 to |candidates|
      invariant best.None? ==> minTimeDiff == CorrelationWindowUs
      invariant best.None? <==> forall j :: 0 <= j < i ==> Distance(candidates[j], imageTs) >= CorrelationWindowUs
      invariant best.Some? ==> 0 <= bestAt < i && candidates[bestAt] == best.value
      invariant best.Some? ==> minTimeDiff == Distance(best.value, imageTs) < CorrelationWindowUs
      invariant forall j :: 0 <= j < i ==> minTimeDiff <= Distance(candidates[j], imageTs)
      invariant best.Some? ==> forall j :: 0 <= j < bestAt ==> Distance(candidates[j], imageTs) > minTimeDiff
    {
      var timeDiff := Distance(candidates[i], imageTs);
      if timeDiff < minTimeDiff {
        minTimeDiff := timeDiff;
        best := Some(candidates[i]);
        bestAt := i;
      }
    }
  }

  /**
   * The tie-break: because the scan runs newest first and needs a strict
   * improvement, no equally close candidate is newer than the chosen one.
   */
  lemma {:induction false} NewestAmongEquallyClose(candidates: seq<Alert>, imageTs: int, best: Alert, k: int)
    requires SortedDesc(candidates, TimestampOf)
    requires 0 <= k < |candidates| && candidates[k] == best
    requires forall j :: 0 <= j < k ==> Distance(candidates[j], imageTs) > Distance(best, imageTs)
    ensures forall c :: c in candidates && Distance(c, imageTs) == Distance(best, imageTs) ==> c.timestamp <= best.timestamp
  {
    forall c | c in candidates && Distance(c, imageTs) == Distance(best, imageTs)
      ensures c.timestamp <= best.timestamp
    {
      var j :| 0 <= j < |candidates| && candidates[j] == c;
      if j > k {
        assert TimestampOf(candidates[k]) >= TimestampOf(candidates[j]);
      }
    }
  }

  /** The alert row after it has been linked to image `imageId`. */
  function Linked(a: Alert, imageId: int): Alert {
    a.(imageId := Some(imageId), correlated := true)
  }

  /** No candidate is closer than 5 s, so the scan finds nothing. */
  ghost predicate NoMatch(alerts: seq<Alert>, imageTs: int) {
    forall a :: a in alerts && IsCandidate(a, imageTs) ==> Distance(a, imageTs) >= CorrelationWindowUs
  }

  /**
   * `m` is what the source picks: a candidate strictly within 5 s, no
   * candidate is closer, and no equally close candidate is newer.
   */
  ghost predicate IsBestMatch(alerts: seq<Alert>, imageTs: int, m: Alert) {
    && m in alerts && IsCandidate(m, imageTs)
    && Distance(m, imageTs) < CorrelationWindowUs
    && (forall a :: a in alerts && IsCandidate(a, imageTs) ==> Distance(m, imageTs) <= Distance(a, imageTs))
    && (forall a :: a in alerts && IsCandidate(a, imageTs) && Distance(a, imageTs) == Distance(m, imageTs) ==>
          a.timestamp <= m.timestamp)
  }

  /** The table after linking the row with id `alertId` to image `imageId`. */
  function LinkRow(alerts: seq<Alert>, alertId: int, imageId: int): (r: seq<Alert>)
    ensures |r| == |alerts|
    ensures forall i :: 0 <= i < |r| ==> r[i].id == alerts[i].id
    ensures forall i :: 0 <= i < |r| && alerts[i].id != alertId ==> r[i] == alerts[i]
    ensures forall i :: 0 <= i < |r| && alerts[i].id == alertId ==>
              && r[i].id == alerts[i].id && r[i].timestamp == alerts[i].timestamp
              && r[i].correlated && r[i].imageId == Some(imageId)
  {
    seq(|alerts|, i requires 0 <= i < |alerts| =>
          if alerts[i].id == alertId then Linked(alerts[i], imageId) else alerts[i])
  }

  /** With unique ids, linking an uncorrelated row leaves every correlated row as it was, and ids stay unique. */
  lemma LinkRowWriteOnce(alerts: seq<Alert>, m: Alert, imageId: int)
    requires forall i, j :: 0 <= i < j < |alerts| ==> alerts[i].id != alerts[j].id
    requires m in alerts && !m.correlated
    ensures forall i :: 0 <= i < |alerts| && alerts[i].correlated ==> LinkRow(alerts, m.id, imageId)[i] == alerts[i]
    ensures var r := LinkRow(alerts, m.id, imageId); forall i, j :: 0 <= i < j < |r| ==> r[i].id != r[j].id
  {
    var p :| 0 <= p < |alerts| && alerts[p] == m;
    forall i | 0 <= i < |alerts| && alerts[i].correlated
      ensures LinkRow(alerts, m.id, imageId)[i] == alerts[i]
    {
      assert i != p;
    }
  }

  /** The alert table of the burglary subsystem. */
  class AlertTable {
    var alerts: seq<Alert>

    /** Alert ids are primary keys. */
    ghost predicate Valid()
      reads this
    {
      forall i, j :: 0 <= i < j < |alerts| ==> alerts[i].id != alerts[j].id
    }

    constructor ()
      ensures Valid() && alerts == []
    {
      alerts := [];
    }

    /**
     * `correlate_image_with_alert(image, db)`: on a match the chosen alert
     * gets `image_id = image.id` and `correlated = True`, the image gets
     * `alert_id = alert.id`, and no other row changes; without one nothing
     * changes. Candidates come from all devices (the query has no device filter).
     */
    method CorrelateImageWithAlert(image: Image) returns (matched: Option<Alert>)
      requires Valid()
      modifies this, image
      ensures Valid()
      ensures matched.None? <==> NoMatch(old(alerts), image.timestamp)
      ensures matched.None? ==> alerts == old(alerts) && image.alertId == old(image.alertId)
      // the row returned is the chosen alert as it reads after linking
      ensures matched.Some? ==> exists m :: IsBestMatch(old(alerts), image.timestamp, m) && matched.value == Linked(m, image.id)
      ensures matched.Some? ==> matched.value.correlated && matched.value.imageId == Some(image.id)
      ensures matched.Some? ==> image.alertId == Some(matched.value.id)
      ensures matched.Some? ==> alerts == LinkRow(old(alerts), matched.value.id, image.id)
      // write-once: an alert that was already correlated is left exactly as it was
      ensures forall i :: 0 <= i < |alerts| && old(alerts[i]).correlated ==> alerts[i] == old(alerts[i])
    {
      var candidates := Candidates(alerts, image.timestamp);
      if candidates == [] {
        return None;
      }
      var best := FindBestMatch(candidates, image.timestamp);
      if best.Some? {
        var m := best.value;
        ghost var k :| 0 <= k < |candidates| && candidates[k] == m &&
                       forall j :: 0 <= j < k ==> Distance(candidates[j], image.timestamp) > Distance(m, image.timestamp);
        NewestAmongEquallyClose(candidates, image.timestamp, m, k);
        ghost var alerts0 := alerts;
        assert IsBestMatch(alerts0, image.timestamp, m);
        matched := LinkBestMatch(image, m);
        return;
      }
      return None;
    }

    /** The linking half of the correlation: the chosen alert and the image point at each other. */
    method LinkBestMatch(image: Image, m: Alert) returns (matched: Option<Alert>)
      requires Valid() && IsBestMatch(alerts, image.timestamp, m)
      modifies this, image
      ensures Valid()
      ensures !NoMatch(old(alerts), image.timestamp)
      ensures matched == Some(Linked(m, image.id))
      ensures image.alertId == Some(m.id)
      ensures alerts == LinkRow(old(alerts), m.id, image.id)
      ensures forall i :: 0 <= i < |alerts| && old(alerts[i]).correlated ==> alerts[i] == old(alerts[i])
    {
      assert !NoMatch(alerts, image.timestamp);
      LinkRowWriteOnce(alerts, m, image.id);
      alerts := LinkRow(alerts, m.id, image.id);
      image.alertId := Some(m.id);
      matched := Some(Linked(m, image.id));
    }
  }
}
