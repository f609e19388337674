/**
 * The two `reduce` folds of the profile header that pick the most recent school
 * and the most recent employer (ProfileHeader.jsx, lines 19-30).
 *
 * Each fold is written as the source writes it, one step per entry with the
 * source's own comparison, and is then characterised by lemmas: the result is the
 * EARLIEST entry with the LARGEST positive score, or the initial value when no
 * entry scores above 0.
 */
module Recency {
  import opened Wrappers
  import opened Entities

  // ---------------------------------------------------------------------------
  // Education fold: starting from an empty object, an entry replaces the
  // accumulator when its numeric end year is strictly greater than the
  // accumulator's (0 when that is missing or not a number).
  // ---------------------------------------------------------------------------

  /** The fold's accumulator: the initial `{}` or an entry taken from the input. */
  datatype EducationPick = EmptyObject | Picked(education: Education)

  /** The accumulator's year as a number, NaN counting as 0; the initial `{}` has no year. */
  function AccumulatedYear(max: EducationPick, number: string -> Option<int>): int {
    OrZero(ToNumber(if max.Picked? then max.education.endYear else Undefined, number))
  }

  /** One step of the education fold: strictly greater replaces the accumulator. */
  function EducationStep(max: EducationPick, e: Education, number: string -> Option<int>): EducationPick {
    if Greater(ToNumber(e.endYear, number), Some(AccumulatedYear(max, number))) then Picked(e) else max
  }

  /** The education fold from `{}` (a left fold: the last entry is folded last). */
  function LastEducation(es: seq<Education>, number: string -> Option<int>): (r: EducationPick)
    ensures r.Picked? ==> r.education in es
    decreases |es|
  {
    if es == [] then EmptyObject
    else EducationStep(LastEducation(es[..|es| - 1], number), es[|es| - 1], number)
  }

  /** The year an entry competes with: its numeric `endYear`, NaN counting as 0. */
  function YearScore(e: Education, number: string -> Option<int>): int {
    OrZero(ToNumber(e.endYear, number))
  }

  /** `es[k]` has a positive year, no entry has a larger one, and no earlier entry ties it. */
  predicate IsLatestEducation(es: seq<Education>, k: int, number: string -> Option<int>) {
    0 <= k < |es| &&
    YearScore(es[k], number) > 0 &&
    (forall j :: 0 <= j < |es| ==> YearScore(es[j], number) <= YearScore(es[k], number)) &&
    (forall j :: 0 <= j < k ==> YearScore(es[j], number) < YearScore(es[k], number))
  }

  /** Witness form of the characterisation: -1 when nothing was picked. */
  lemma {:induction false} LatestEducationIndex(es: seq<Education>, number: string -> Option<int>)
    returns (k: int)
    ensures k == -1 ==> LastEducation(es, number) == EmptyObject &&
                        forall j :: 0 <= j < |es| ==> YearScore(es[j], number) <= 0
    ensures k != -1 ==> IsLatestEducation(es, k, number) && LastEducation(es, number) == Picked(es[k])
    decreases |es|
  {
    if es == [] {
      k := -1;
    } else {
      var n := |es| - 1;
      var prefix := es[..n];
      var k0 := LatestEducationIndex(prefix, number);
      assert forall j :: 0 <= j < n ==> es[j] == prefix[j];
      var m := AccumulatedYear(LastEducation(prefix, number), number);
      assert m == if k0 == -1 then 0 else YearScore(es[k0], number);
      if Greater(ToNumber(es[n].endYear, number), Some(m)) {
        assert YearScore(es[n], number) > m;
        k := n;
      } else {
        assert YearScore(es[n], number) <= m;
        k := k0;
      }
    }
  }

  /**
   * The education fold picks exactly the earliest entry with the largest positive
   * year, and stays the initial `{}` exactly when no year is positive.
   */
  lemma {:induction false} LastEducationIsLatest(es: seq<Education>, number: string -> Option<int>)
    ensures LastEducation(es, number) == EmptyObject <==>
            forall j :: 0 <= j < |es| ==> YearScore(es[j], number) <= 0
    ensures forall k :: IsLatestEducation(es, k, number) ==> LastEducation(es, number) == Picked(es[k])
    ensures LastEducation(es, number).Picked? ==> exists k :: IsLatestEducation(es, k, number)
  {
    var k0 := LatestEducationIndex(es, number);
    forall k | IsLatestEducation(es, k, number)
      ensures LastEducation(es, number) == Picked(es[k])
    {
      assert k0 != -1;
      assert k == k0;
    }
  }

  /** An entry whose year is missing, not a number, or not positive is never picked. */
  lemma NonPositiveEducationNeverPicked(es: seq<Education>, e: Education, number: string -> Option<int>)
    requires YearScore(e, number) <= 0
    ensures LastEducation(es, number) != Picked(e)
  {
    var k := LatestEducationIndex(es, number);
  }

  // ---------------------------------------------------------------------------
  // Experience fold: starting from null, entries with a falsy end are skipped;
  // the rest compete by parsed end date, strictly.
  // ---------------------------------------------------------------------------

  /** The accumulator's end date: its parsed date when its end is truthy, otherwise 0. */
  function MaxEndDate(max: Option<Experience>, date: string -> Option<int>): Option<int> {
    if max.Some? && Truthy(max.value.endYear) then ToNumber(max.value.endYear, date) else Some(0)
  }

  /** One step of the experience fold: a falsy `endYear` is skipped outright. */
  function ExperienceStep(max: Option<Experience>, x: Experience, date: string -> Option<int>): Option<Experience> {
    if !Truthy(x.endYear) then max
    else if Greater(ToNumber(x.endYear, date), MaxEndDate(max, date)) then Some(x)
    else max
  }

  /** The experience fold from `null`. */
  function LastExperience(xs: seq<Experience>, date: string -> Option<int>): (r: Option<Experience>)
    ensures r.Some? ==> r.value in xs && Truthy(r.value.endYear)
    decreases |xs|
  {
    if xs == [] then None
    else ExperienceStep(LastExperience(xs[..|xs| - 1], date), xs[|xs| - 1], date)
  }

  /** The end date an entry competes with: 0 for a falsy `endYear` or an invalid date. */
  function DateScore(x: Experience, date: string -> Option<int>): int {
    if Truthy(x.endYear) then OrZero(ToNumber(x.endYear, date)) else 0
  }

  /** `xs[k]` has a positive end date, none is later, and no earlier entry ties it. */
  predicate IsLatestExperience(xs: seq<Experience>, k: int, date: string -> Option<int>) {
    0 <= k < |xs| &&
    DateScore(xs[k], date) > 0 &&
    (forall j :: 0 <= j < |xs| ==> DateScore(xs[j], date) <= DateScore(xs[k], date)) &&
    (forall j :: 0 <= j < k ==> DateScore(xs[j], date) < DateScore(xs[k], date))
  }

  /** Witness form of the characterisation: -1 when the fold stays `null`. */
  lemma {:induction false} LatestExperienceIndex(xs: seq<Experience>, date: string -> Option<int>)
    returns (k: int)
    ensures k == -1 ==> LastExperience(xs, date) == None &&
                        forall j :: 0 <= j < |xs| ==> DateScore(xs[j], date) <= 0
    ensures k != -1 ==> IsLatestExperience(xs, k, date) && LastExperience(xs, date) == Some(xs[k])
    decreases |xs|
  {
    if xs == [] {
      k := -1;
    } else {
      var n := |xs| - 1;
      var prefix := xs[..n];
      var k0 := LatestExperienceIndex(prefix, date);
      assert forall j :: 0 <= j < n ==> xs[j] == prefix[j];
      var m := MaxEndDate(LastExperience(prefix, date), date);
      assert m == Some(if k0 == -1 then 0 else DateScore(xs[k0], date));
      if Truthy(xs[n].endYear) && Greater(ToNumber(xs[n].endYear, date), m) {
        assert DateScore(xs[n], date) > m.value;
        k := n;
      } else {
        assert DateScore(xs[n], date) <= m.value;
        k := k0;
      }
    }
  }

  /**
   * The experience fold picks exactly the earliest entry with the latest positive
   * end date among the truthy ones, and stays `null` exactly when there is none.
   */
  lemma {:induction false} LastExperienceIsLatest(xs: seq<Experience>, date: string -> Option<int>)
    ensures LastExperience(xs, date) == None <==>
            forall j :: 0 <= j < |xs| ==> DateScore(xs[j], date) <= 0
    ensures forall k :: IsLatestExperience(xs, k, date) ==> LastExperience(xs, date) == Some(xs[k])
    ensures LastExperience(xs, date).Some? ==> exists k :: IsLatestExperience(xs, k, date)
  {
    var k0 := LatestExperienceIndex(xs, date);
    forall k | IsLatestExperience(xs, k, date)
      ensures LastExperience(xs, date) == Some(xs[k])
    {
      assert k0 != -1;
      assert k == k0;
    }
  }

  // ---------------------------------------------------------------------------
  // Worked cases
  // ---------------------------------------------------------------------------

  /** Two schools ending 2018 and 2022: the 2022 one is the most recent. */
  lemma EducationExample(number: string -> Option<int>)
    requires number("2018") == Some(2018) && number("2022") == Some(2022)
    ensures LastEducation([Education(Some("A"), Text("2018")), Education(Some("B"), Text("2022"))], number)
            == Picked(Education(Some("B"), Text("2022")))
  {
  }

  /**
   * A non-empty list whose only entry has no year yields the initial `{}`, not an
   * entry: the fold does not fall back to the last entry.
   */
  lemma EducationWithoutYearIsEmpty()
    ensures forall number: string -> Option<int> ::
      LastEducation([Education(Some("A"), Undefined)], number) == EmptyObject
  {
  }

  /** An ongoing position (null end) and one ending 1 May 2021: the latter is picked. */
  lemma ExperienceExample(date: string -> Option<int>)
    requires date("2021-05-01") == Some(1619827200000)
    ensures LastExperience([Experience(Some("X"), Null), Experience(Some("Y"), Text("2021-05-01"))], date)
            == Some(Experience(Some("Y"), Text("2021-05-01")))
  {
  }
}
