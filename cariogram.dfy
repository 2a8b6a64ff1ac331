/**
 * The deft classification and the history filter of
 * src/controllers/cariogramController.js, over the CariogramHistory
 * collection (src/models/CariogramHistory.js).
 */
module Cariogram {
  import opened Wrappers
  import opened TimeUtils
  import Checkins

  type UserId = Checkins.UserId

  /** A JavaScript number as `Number(...)` yields it: NaN or an exact finite value. */
  datatype Num = NaN | Finite(value: real)

  /** JavaScript addition on such numbers: NaN as soon as one side is NaN. */
  function Plus(a: Num, b: Num): (r: Num)
    ensures r.NaN? <==> a.NaN? || b.NaN?
    ensures r.Finite? ==> r.value == a.value + b.value
  {
    if a.NaN? || b.NaN? then NaN else Finite(a.value + b.value)
  }

  /** The five labels, from lowest to highest. */
  datatype DeftScale = SangatRendah | Rendah | Sedang | Tinggi | SangatTinggi
  {
    function Label(): string
    {
      match this
      case SangatRendah => "Sangat Rendah"
      case Rendah => "Rendah"
      case Sedang => "Sedang"
      case Tinggi => "Tinggi"
      case SangatTinggi => "Sangat Tinggi"
    }

    /** The position of the label on the scale. */
    function Level(): nat
    {
      match this
      case SangatRendah => 0
      case Rendah => 1
      case Sedang => 2
      case Tinggi => 3
      case SangatTinggi => 4
    }
  }

  /** The band table: the closed range of def values that each label covers. */
  predicate InBand(def: real, s: DeftScale)
  {
    match s
    case SangatTinggi => 6.6 <= def
    case Tinggi => 4.5 <= def <= 6.5
    case Sedang => 2.7 <= def <= 4.4
    case Rendah => 1.2 <= def <= 2.6
    case SangatRendah => def <= 1.1
  }

  /** A value strictly between two bands. */
  predicate InGap(def: real)
  {
    (6.5 < def < 6.6) || (4.4 < def < 4.5) || (2.6 < def < 2.7) || (1.1 < def < 1.2)
  }

  /**
   * The `if / else if` chain of `checkCariogram`: the label of `def`, or
   * none when `def` falls in a gap (the chain has no final `else`).
   */
  function DeftScaleOf(def: real): (r: Option<DeftScale>)
    ensures forall s :: r == Some(s) <==> InBand(def, s)
    ensures r.None? <==> InGap(def)
  {
    if def >= 6.6 then Some(SangatTinggi)
    else if def >= 4.5 && def <= 6.5 then Some(Tinggi)
    else if def >= 2.7 && def <= 4.4 then Some(Sedang)
    else if def >= 1.2 && def <= 2.6 then Some(Rendah)
    else if def <= 1.1 then Some(SangatRendah)
    else None
  }

  /** No value lies in two bands. */
  lemma BandsDisjoint(def: real, s: DeftScale, t: DeftScale)
    requires InBand(def, s) && InBand(def, t)
    ensures s == t
  {
    assert DeftScaleOf(def) == Some(s) && DeftScaleOf(def) == Some(t);
  }

  /** The label of a whole number of teeth. */
  function ScaleOfCount(n: int): DeftScale
  {
    if n <= 1 then SangatRendah
    else if n == 2 then Rendah
    else if n <= 4 then Sedang
    else if n <= 6 then Tinggi
    else SangatTinggi
  }

  /** Every whole number gets a label: 0-1 Sangat Rendah, 2 Rendah, 3-4 Sedang, 5-6 Tinggi, 7 and more Sangat Tinggi. */
  lemma IntegersAreLabelled(n: int)
    ensures DeftScaleOf(n as real) == Some(ScaleOfCount(n))
  {
    var d := n as real;
    if n <= 1 {
      assert d <= 1.1;
    } else if n == 2 {
      assert 1.2 <= d <= 2.6;
    } else if n <= 4 {
      assert 2.7 <= d <= 4.4;
    } else if n <= 6 {
      assert 4.5 <= d <= 6.5;
    } else {
      assert 6.6 <= d;
    }
  }

  /** A larger value never gets a lower label. */
  lemma ClassificationMonotone(d1: real, d2: real)
    requires d1 <= d2
    requires DeftScaleOf(d1).Some? && DeftScaleOf(d2).Some?
    ensures DeftScaleOf(d1).value.Level() <= DeftScaleOf(d2).value.Level()
  {
    var s1, s2 := DeftScaleOf(d1).value, DeftScaleOf(d2).value;
    assert InBand(d1, s1) && InBand(d2, s2);
  }

  /** What `checkCariogram` answers. */
  datatype CariogramOutcome = Classified(def: real, scale: DeftScale) | Failed
  {
    function Status(): int { if Classified? then 200 else 500 }
  }

  /**
   * The outcome for the three query values. The record's `result` is
   * `required`, so a def in a gap (label undefined), like a NaN def, makes
   * the create fail and the handler answer 500.
   */
  function Assess(decayed: Num, extracted: Num, filled: Num): (r: CariogramOutcome)
    ensures r.Classified? <==>
      decayed.Finite? && extracted.Finite? && filled.Finite? &&
      !InGap(decayed.value + extracted.value + filled.value)
    ensures r.Classified? ==>
      r.def == decayed.value + extracted.value + filled.value && InBand(r.def, r.scale)
  {
    var def := Plus(Plus(decayed, extracted), filled);
    if def.NaN? then Failed
    else
      match DeftScaleOf(def.value)
      case None => Failed
      case Some(s) => Classified(def.value, s)
  }

  /** A CariogramHistory document `{ userId, def, result }` with its `createdAt`. */
  datatype CariogramRecord = CariogramRecord(userId: UserId, def: real, result: DeftScale, createdAt: LocalTime)

  // ---------------------------------------------------------------------
  // The history filter
  // ---------------------------------------------------------------------

  /** The `createdAt` condition: `$gte` and `$lte` bounds, each optional. */
  datatype DateRange = DateRange(gte: Option<LocalTime>, lte: Option<LocalTime>)

  /** The `filter` object: `{ userId }`, with `createdAt` when a date was given. */
  datatype HistoryFilter = HistoryFilter(userId: UserId, createdAt: Option<DateRange>)

  /** Whether a document satisfies the filter, as `find` decides it. */
  predicate Matches(f: HistoryFilter, rec: CariogramRecord)
  {
    rec.userId == f.userId &&
    match f.createdAt
    case None => true
    case Some(range) =>
      (range.gte.Some? ==> Rank(range.gte.value) <= Rank(rec.createdAt)) &&
      (range.lte.Some? ==> Rank(rec.createdAt) <= Rank(range.lte.value))
  }

  /** A query value is truthy when present and not the empty string. */
  predicate Truthy(v: Option<string>)
  {
    v.Some? && v.value != ""
  }

  /**
   * The filter construction of `getCariogramHistory`, with the conversion of
   * a 'YYYY-MM-DD' string to the instant it names supplied as `toInstant`.
   * Whatever the combination of dates, a document matches exactly when it
   * is the user's and lies within every bound that was given, both ends
   * included.
   */
  method BuildHistoryFilter(userId: UserId, startDate: Option<string>, endDate: Option<string>,
                            toInstant: string -> LocalTime) returns (f: HistoryFilter)
    ensures f.userId == userId
    ensures f.createdAt.None? <==> !Truthy(startDate) && !Truthy(endDate)
    ensures forall rec :: Matches(f, rec) <==>
      rec.userId == userId &&
      (Truthy(startDate) ==> Rank(toInstant(startDate.value)) <= Rank(rec.createdAt)) &&
      (Truthy(endDate) ==> Rank(rec.createdAt) <= Rank(toInstant(endDate.value)))
  {
    f := HistoryFilter(userId, None);
    if Truthy(startDate) && Truthy(endDate) {
      f := f.(createdAt := Some(DateRange(Some(toInstant(startDate.value)), Some(toInstant(endDate.value)))));
    } else if Truthy(startDate) {
      f := f.(createdAt := Some(DateRange(Some(toInstant(startDate.value)), None)));
    } else if Truthy(endDate) {
      f := f.(createdAt := Some(DateRange(None, Some(toInstant(endDate.value)))));
    }
  }

  /**
   * The filter construction as written: `createDateTime` is not among the
   * exports of the time utilities, so the first call to it throws and the
   * handler, whose `catch` is empty, sends no response; only a request
   * without dates gets a filter.
   */
  function HistoryFilterAsWritten(userId: UserId, startDate: Option<string>, endDate: Option<string>): (r: Option<HistoryFilter>)
    ensures r.Some? <==> !Truthy(startDate) && !Truthy(endDate)
    ensures r.Some? ==> r.value == HistoryFilter(userId, None)
  {
    if Truthy(startDate) || Truthy(endDate) then None
    else Some(HistoryFilter(userId, None))
  }

  /** As written, asking for the history of one day gets no answer at all. */
  lemma DatedHistoryAsWrittenFails(userId: UserId)
    ensures HistoryFilterAsWritten(userId, Some("2024-01-01"), Some("2024-01-31")).None?
    ensures HistoryFilterAsWritten(userId, Some("2024-01-01"), None).None?
    ensures HistoryFilterAsWritten(userId, None, Some("2024-01-31")).None?
    ensures HistoryFilterAsWritten(userId, Some(""), None) == Some(HistoryFilter(userId, None))
  {
  }

  /** The `find(filter)` over the stored history, in stored order. */
  function FindHistory(history: seq<CariogramRecord>, f: HistoryFilter): (r: seq<CariogramRecord>)
    ensures forall rec :: rec in r <==> rec in history && Matches(f, rec)
    ensures |r| <= |history|
  {
    if history == [] then []
    else (if Matches(f, history[0]) then [history[0]] else []) + FindHistory(history[1..], f)
  }

  // ---------------------------------------------------------------------
  // The CariogramHistory collection
  // ---------------------------------------------------------------------

  class CariogramLog {
    var history: seq<CariogramRecord>

    constructor ()
      ensures history == []
    {
      history := [];
    }

    /**
     * `checkCariogram`: classify def = decayed + extracted + filled; when a
     * label exists, append one record `{ userId, def, result }` and answer
     * `{ def, deftScale }`; otherwise nothing is appended and the answer is 500.
     */
    method CheckCariogram(userId: UserId, decayed: Num, extracted: Num, filled: Num, now: LocalTime)
      returns (r: CariogramOutcome)
      modifies this
      ensures r == Assess(decayed, extracted, filled)
      ensures r.Classified? ==> history == old(history) + [CariogramRecord(userId, r.def, r.scale, now)]
      ensures r.Failed? ==> history == old(history)
    {
      r := Assess(decayed, extracted, filled);
      if r.Classified? {
        history := history + [CariogramRecord(userId, r.def, r.scale, now)];
      }
    }
  }

  /** One check on whole counts always gets a label, the one of their sum. */
  lemma WholeCountsClassified(d: nat, e: nat, f: nat)
    ensures Assess(Finite(d as real), Finite(e as real), Finite(f as real)) ==
      Classified((d + e + f) as real, ScaleOfCount(d + e + f))
  {
    IntegersAreLabelled(d + e + f);
  }
}
