/**
 * The seed of the first request: `getInitialTimestamp` takes the smallest
 * timestamp the loaded page shows, from the `userstatus_<ts>_` element ids and
 * the truthy `data-timestamp` attributes together, and only when neither gives
 * one falls back to the id `blotter_day_<ts>` of the last day block.
 *
 * The document is passed in: `statusIds` are the ids of the elements whose id
 * begins with `userstatus_`, `dataTimestamps` the `data-timestamp` attribute
 * values and `dayIds` the ids of the `.blotter_day` blocks, each in document
 * order. `None` stands for `Infinity` ("no candidate yet").
 */
module Timestamps {
  import opened Wrappers
  import opened Text

  /** `/userstatus_(\d+)_/` */
  const StatusIdPattern := Pattern("userstatus_", Digit, Some('_'))
  /** `/blotter_day_(\d+)/` */
  const DayIdPattern := Pattern("blotter_day_", Digit, None)

  /** The timestamp a status id contributes, if its id matches. */
  function StatusValue(id: string): Option<int>
  {
    match FirstMatchValue(StatusIdPattern, id)
    case None => None
    case Some(v) => Some(v)
  }

  /** The timestamp a `data-timestamp` value contributes: `parseInt` of it when
      that is truthy, that is neither `NaN` nor zero. */
  function DataValue(attr: string): Option<int>
  {
    match ParseInt(attr)
    case None => None
    case Some(v) => if v != 0 then Some(v) else None
  }

  function StatusValues(ids: seq<string>): (r: seq<Option<int>>)
    ensures |r| == |ids| && forall i :: 0 <= i < |ids| ==> r[i] == StatusValue(ids[i])
  {
    seq(|ids|, i requires 0 <= i < |ids| => StatusValue(ids[i]))
  }

  function DataValues(attrs: seq<string>): (r: seq<Option<int>>)
    ensures |r| == |attrs| && forall i :: 0 <= i < |attrs| ==> r[i] == DataValue(attrs[i])
  {
    seq(|attrs|, i requires 0 <= i < |attrs| => DataValue(attrs[i]))
  }

  /** One `if (ts < minTs) minTs = ts` step; `None` candidates are skipped. */
  function Lower(acc: Option<int>, v: Option<int>): Option<int>
  {
    if v.None? then acc
    else if acc.None? || v.value < acc.value then v
    else acc
  }

  /** The running minimum after visiting `xs` in order, starting from `acc`. */
  function MinOf(acc: Option<int>, xs: seq<Option<int>>): Option<int>
  {
    if xs == [] then acc else Lower(MinOf(acc, xs[..|xs| - 1]), xs[|xs| - 1])
  }

  /** The day fallback: the timestamp of the last day block's id, if it has one. */
  function DayFallback(dayIds: seq<string>): Option<int>
  {
    if |dayIds| == 0 then None
    else match FirstMatchValue(DayIdPattern, dayIds[|dayIds| - 1])
      case None => None
      case Some(v) => Some(v)
  }

  /** The value `getInitialTimestamp` settles on. */
  function InitialTimestamp(statusIds: seq<string>, dataTimestamps: seq<string>, dayIds: seq<string>): Option<int>
  {
    var m := MinOf(MinOf(None, StatusValues(statusIds)), DataValues(dataTimestamps));
    if m.Some? then m else DayFallback(dayIds)
  }

  /** `String(minTs)`, or `null` for `Infinity`. */
  function SeedText(ts: Option<int>): Option<string>
  {
    match ts
    case None => None
    case Some(v) => Some(IntToString(v))
  }

  /** A candidate of the two minimum sources: a status id or a truthy `data-timestamp`. */
  predicate IsCandidate(statusIds: seq<string>, dataTimestamps: seq<string>, v: int)
  {
    Some(v) in StatusValues(statusIds) || Some(v) in DataValues(dataTimestamps)
  }

  predicate NoCandidate(statusIds: seq<string>, dataTimestamps: seq<string>)
  {
    forall x :: x in StatusValues(statusIds) + DataValues(dataTimestamps) ==> x.None?
  }

  /**
   * The running minimum is the least of `acc` and the present values of `xs`,
   * is one of them, and is absent exactly when all of them are.
   */
  lemma {:induction false} MinOfIsMinimum(acc: Option<int>, xs: seq<Option<int>>)
    ensures MinOf(acc, xs).None? <==> acc.None? && forall x :: x in xs ==> x.None?
    ensures MinOf(acc, xs).Some? ==> MinOf(acc, xs) == acc || MinOf(acc, xs) in xs
    ensures acc.Some? ==> MinOf(acc, xs).Some? && MinOf(acc, xs).value <= acc.value
    ensures forall x :: x in xs && x.Some? ==> MinOf(acc, xs).Some? && MinOf(acc, xs).value <= x.value
  {
    if xs != [] {
      var init := xs[..|xs| - 1];
      MinOfIsMinimum(acc, init);
      assert xs == init + [xs[|xs| - 1]];
    }
  }

  /** Two running minimums in a row are the minimum of both sequences together. */
  lemma MinOfBoth(xs: seq<Option<int>>, ys: seq<Option<int>>)
    ensures var m := MinOf(MinOf(None, xs), ys);
      && (m.None? <==> forall x :: x in xs + ys ==> x.None?)
      && (m.Some? ==> m in xs + ys)
      && (forall x :: x in xs + ys && x.Some? ==> m.Some? && m.value <= x.value)
  {
    MinOfIsMinimum(None, xs);
    MinOfIsMinimum(MinOf(None, xs), ys);
  }

  /**
   * What `getInitialTimestamp` settles on: the least candidate of both sources
   * together when there is one; otherwise the last day block's timestamp; and
   * nothing exactly when neither gives one.
   */
  lemma InitialTimestampChoice(statusIds: seq<string>, dataTimestamps: seq<string>, dayIds: seq<string>)
    ensures var r := InitialTimestamp(statusIds, dataTimestamps, dayIds);
      && (!NoCandidate(statusIds, dataTimestamps) ==>
            && r.Some?
            && IsCandidate(statusIds, dataTimestamps, r.value)
            && forall x :: x in StatusValues(statusIds) + DataValues(dataTimestamps) && x.Some? ==> r.value <= x.value)
      && (NoCandidate(statusIds, dataTimestamps) ==> r == DayFallback(dayIds))
      && (r.None? <==> NoCandidate(statusIds, dataTimestamps) && DayFallback(dayIds).None?)
  {
    MinOfBoth(StatusValues(statusIds), DataValues(dataTimestamps));
  }

  /** `getInitialTimestamp()` over the page's ids and attributes. */
  method GetInitialTimestamp(statusIds: seq<string>, dataTimestamps: seq<string>, dayIds: seq<string>)
    returns (ts: Option<string>)
    ensures ts == SeedText(InitialTimestamp(statusIds, dataTimestamps, dayIds))
  {
    var minTs: Option<int> := None;
    var i := 0;
    while i < |statusIds|
      invariant 0 <= i <= |statusIds|
      invariant minTs == MinOf(None, StatusValues(statusIds)[..i])
    {
      var m := FirstMatchValue(StatusIdPattern, statusIds[i]);
      if m.Some? {
        var v := m.value;
        if minTs.None? || v < minTs.value {
          minTs := Some(v);
        }
      }
      assert StatusValues(statusIds)[..i + 1][..i] == StatusValues(statusIds)[..i];
      i := i + 1;
    }
    assert StatusValues(statusIds)[..i] == StatusValues(statusIds);
    var fromStatus := minTs;
    var j := 0;
    while j < |dataTimestamps|
      invariant 0 <= j <= |dataTimestamps|
      invariant minTs == MinOf(fromStatus, DataValues(dataTimestamps)[..j])
    {
      var p := ParseInt(dataTimestamps[j]);
      if p.Some? && p.value != 0 && (minTs.None? || p.value < minTs.value) {
        minTs := p;
      }
      assert DataValues(dataTimestamps)[..j + 1][..j] == DataValues(dataTimestamps)[..j];
      j := j + 1;
    }
    assert DataValues(dataTimestamps)[..j] == DataValues(dataTimestamps);
    if minTs.None? && |dayIds| > 0 {
      var m := FirstMatchValue(DayIdPattern, dayIds[|dayIds| - 1]);
      if m.Some? {
        minTs := Some(m.value);
      }
    }
    ts := if minTs.None? then None else Some(IntToString(minTs.value));
  }
}
