/**
 * `scoreFlight` (generate_rss.js:55-75): an additive score over the optional
 * fields of a flight, `-Infinity` when the flight has no departure time.
 * Arithmetic is on exact reals; `now` is the clock reading the function takes.
 */
module Scoring {
  import opened Wrappers
  import opened Text
  import opened Flights
  import Dates

  datatype Score = NegInf | Fin(r: real)

  /** `a <= b` on scores, `-Infinity` below every finite score. */
  predicate ScoreLe(a: Score, b: Score) {
    a.NegInf? || (b.Fin? && a.r <= b.r)
  }

  /** Milliseconds in an hour (`36e5`). */
  const MillisPerHour: real := 3600000.0

  function Abs(x: int): (r: nat)
    ensures r == x || r == -x
  {
    if x < 0 then -x else x
  }

  /** `10 * |dep - now| / 36e5`: ten points per hour between departure and now. */
  function TimePenalty(dep: int, now: int): (p: real)
    ensures p >= 0.0
  {
    Abs(dep - now) as real / MillisPerHour * 10.0
  }

  /**
   * The search text, before upper-casing: number, IATA code and ICAO code,
   * each on its own indented line of the template literal.
   */
  function SearchText(f: Flight): string {
    "\n    " + OrElse(Number(f), "") + "\n    " + OrElse(Iata(f), "") + "\n    " + OrElse(Icao(f), "") + "\n  "
  }

  /** How many entries of `patterns`, duplicates counted, occur in `text` once upper-cased. */
  function MatchCount(patterns: seq<string>, text: string): (n: nat)
    ensures n <= |patterns|
  {
    if patterns == [] then 0
    else
      var last := patterns[|patterns| - 1];
      MatchCount(patterns[..|patterns| - 1], text) + (if Contains(text, ToUpper(last)) then 1 else 0)
  }

  /** The specification of `scoreFlight`. */
  function ScoreOf(f: Flight, patterns: seq<string>, now: int): (r: Score)
    ensures r.Fin? ==> r.r <= 70.0 + 5.0 * |patterns| as real
  {
    match DepartureStamp(f)
    case None => NegInf
    case Some(dep) =>
      Fin(0.0 - TimePenalty(dep.millis, now)
          + (if f.status == Some("scheduled") then 50.0 else 0.0)
          + (if f.status == Some("active") then 30.0 else 0.0)
          + (if Truthy(Iata(f)) then 10.0 else 0.0)
          + (if Truthy(DepartureIata(f)) && Truthy(ArrivalIata(f)) then 10.0 else 0.0)
          + 5.0 * MatchCount(patterns, ToUpper(SearchText(f))) as real)
  }

  /** `scoreFlight`: accumulate the score in a variable, the pattern bonus in a loop. */
  method ScoreFlight(f: Flight, patterns: seq<string>, now: int) returns (score: Score)
    ensures score == ScoreOf(f, patterns, now)
  {
    var s: real := 0.0;
    var dep := DepartureStamp(f);
    if dep.None? {
      return NegInf;
    }
    var diffHours := Abs(dep.value.millis - now) as real / MillisPerHour;
    s := s - diffHours * 10.0;
    if f.status == Some("scheduled") {
      s := s + 50.0;
    }
    if f.status == Some("active") {
      s := s + 30.0;
    }
    if Truthy(Iata(f)) {
      s := s + 10.0;
    }
    if Truthy(DepartureIata(f)) && Truthy(ArrivalIata(f)) {
      s := s + 10.0;
    }
    var searchText := ToUpper(SearchText(f));
    ghost var base := s;
    for k := 0 to |patterns|
      invariant s == base + 5.0 * MatchCount(patterns[..k], searchText) as real
    {
      assert patterns[..k + 1][..k] == patterns[..k];
      if Contains(searchText, ToUpper(patterns[k])) {
        s := s + 5.0;
      }
    }
    assert patterns[..|patterns|] == patterns;
    score := Fin(s);
  }

  /** A flight scores `-Infinity` exactly when it has no departure time. */
  lemma NegInfIffNoDeparture(f: Flight, patterns: seq<string>, now: int)
    ensures ScoreOf(f, patterns, now) == NegInf <==> DepartureStamp(f).None?
  {
  }

  /**
   * The status bonuses: `scheduled` scores 20 more than `active`, which
   * scores 30 more than any other status, everything else being equal.
   */
  lemma StatusRanking(f: Flight, other: Option<string>, patterns: seq<string>, now: int)
    requires DepartureStamp(f).Some?
    requires other != Some("scheduled") && other != Some("active")
    ensures ScoreOf(f.(status := Some("scheduled")), patterns, now).r
         == ScoreOf(f.(status := Some("active")), patterns, now).r + 20.0
    ensures ScoreOf(f.(status := Some("active")), patterns, now).r
         == ScoreOf(f.(status := other), patterns, now).r + 30.0
  {
    StatusBonus(f, Some("scheduled"), patterns, now);
    StatusBonus(f, Some("active"), patterns, now);
    StatusBonus(f, other, patterns, now);
  }

  /** The status enters the score only through its bonus. */
  lemma StatusBonus(f: Flight, st: Option<string>, patterns: seq<string>, now: int)
    requires DepartureStamp(f).Some?
    ensures ScoreOf(f.(status := st), patterns, now).Fin?
    ensures ScoreOf(f.(status := st), patterns, now).r
         == ScoreOf(f.(status := None), patterns, now).r
            + (if st == Some("scheduled") then 50.0 else 0.0)
            + (if st == Some("active") then 30.0 else 0.0)
  {
    var g, h := f.(status := st), f.(status := None);
    assert DepartureStamp(g) == DepartureStamp(f) == DepartureStamp(h);
    assert SearchText(g) == SearchText(h);
    assert Iata(g) == Iata(h) && DepartureIata(g) == DepartureIata(h) && ArrivalIata(g) == ArrivalIata(h);
  }

  /** The set of indices of the entries the count counts. */
  function MatchIndices(patterns: seq<string>, text: string): set<int> {
    set i | 0 <= i < |patterns| && Contains(text, ToUpper(patterns[i]))
  }

  /** The pattern bonus counts entries, not distinct values: one per matching index. */
  lemma {:induction false} MatchCountCountsIndices(patterns: seq<string>, text: string)
    ensures MatchCount(patterns, text) == |MatchIndices(patterns, text)|
  {
    if patterns != [] {
      var n := |patterns| - 1;
      MatchCountCountsIndices(patterns[..n], text);
      MatchIndicesSnoc(patterns, text);
      assert n !in MatchIndices(patterns[..n], text);
    }
  }

  /** One more entry adds its index exactly when it matches. */
  lemma MatchIndicesSnoc(patterns: seq<string>, text: string)
    requires patterns != []
    ensures var n := |patterns| - 1;
      MatchIndices(patterns, text)
        == MatchIndices(patterns[..n], text) + (if Contains(text, ToUpper(patterns[n])) then {n} else {})
  {
    var n := |patterns| - 1;
    var init := patterns[..n];
    forall i | 0 <= i < n ensures init[i] == patterns[i] {
    }
  }

  /** Whether the upper-cased number, IATA or ICAO code contains `p`. */
  predicate FieldContains(f: Flight, p: string) {
    Contains(ToUpper(OrElse(Number(f), "")), p)
    || Contains(ToUpper(OrElse(Iata(f), "")), p)
    || Contains(ToUpper(OrElse(Icao(f), "")), p)
  }

  /**
   * The fields of the search text are separated by white space, so a pattern
   * without white space matches it exactly when it matches one field; no
   * match spans two fields.
   */
  lemma MatchIsPerField(f: Flight, p: string)
    requires NoSpace(p)
    ensures Contains(ToUpper(SearchText(f)), p) <==> FieldContains(f, p)
  {
    var n, i, c := OrElse(Number(f), ""), OrElse(Iata(f), ""), OrElse(Icao(f), "");
    var w, w2 := "\n    ", "\n  ";
    assert AllSpace(w) && AllSpace(w2);
    ToUpperKeepsSpace(w);
    ToUpperKeepsSpace(w2);
    ToUpperConcat(w + n + w + i + w + c, w2);
    ToUpperConcat(w + n + w + i + w, c);
    ToUpperConcat(w + n + w + i, w);
    ToUpperConcat(w + n + w, i);
    ToUpperConcat(w + n, w);
    ToUpperConcat(w, n);
    assert ToUpper(SearchText(f)) == w + ToUpper(n) + w + ToUpper(i) + w + ToUpper(c) + w2;
    ContainsInFields(w, w2, ToUpper(n), ToUpper(i), ToUpper(c), p);
  }

  /** With the date patterns, every pattern that scores matches inside one field. */
  lemma DatePatternMatchIsPerField(f: Flight, day: int, month: int, weekday: int, k: int)
    requires Dates.ValidDate(day, month, weekday)
    requires 0 <= k < |Dates.DatePatterns(day, month, weekday)|
    ensures var p := Dates.DatePatterns(day, month, weekday)[k];
      Contains(ToUpper(SearchText(f)), ToUpper(p)) <==> FieldContains(f, p)
  {
    var p := Dates.DatePatterns(day, month, weekday)[k];
    Dates.DatePatternsWellFormed(day, month, weekday);
    assert ToUpper(p) == p;
    MatchIsPerField(f, p);
  }

  /**
   * Bounds: the penalty is subtracted, and the bonuses add at most
   * 50 + 10 + 10 and 5 for each pattern.
   */
  lemma ScoreBounds(f: Flight, patterns: seq<string>, now: int)
    requires DepartureStamp(f).Some?
    ensures var penalty := TimePenalty(DepartureStamp(f).value.millis, now);
      ScoreOf(f, patterns, now).Fin?
      && -penalty <= ScoreOf(f, patterns, now).r <= 70.0 + 5.0 * |patterns| as real - penalty
  {
  }

  /**
   * Everything else being equal, the score falls by ten points per hour
   * between departure and now: the departure time enters only through
   * the penalty.
   */
  lemma CloserIsBetter(f: Flight, g: Flight, patterns: seq<string>, now: int)
    requires DepartureStamp(f).Some? && DepartureStamp(g).Some?
    requires f.flight == g.flight && f.status == g.status
    requires DepartureIata(f) == DepartureIata(g) && f.arrival == g.arrival
    ensures ScoreOf(f, patterns, now).r + TimePenalty(DepartureStamp(f).value.millis, now)
         == ScoreOf(g, patterns, now).r + TimePenalty(DepartureStamp(g).value.millis, now)
    ensures Abs(DepartureStamp(f).value.millis - now) <= Abs(DepartureStamp(g).value.millis - now)
      ==> ScoreOf(g, patterns, now).r <= ScoreOf(f, patterns, now).r
  {
    assert SearchText(f) == SearchText(g);
    PenaltyMonotone(DepartureStamp(f).value.millis, DepartureStamp(g).value.millis, now);
  }

  /** The penalty grows with the distance between departure and now. */
  lemma PenaltyMonotone(d: int, e: int, now: int)
    ensures Abs(d - now) <= Abs(e - now) ==> TimePenalty(d, now) <= TimePenalty(e, now)
  {
    if Abs(d - now) <= Abs(e - now) {
      assert Abs(d - now) as real <= Abs(e - now) as real;
    }
  }
}
