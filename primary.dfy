/**
 * Selection of the flight of the day from the primary provider
 * (`fetchAviationstackFlight`, generate_rss.js:78-100): guard clauses on the
 * access key and on the response, a filter to today's UTC window, scoring,
 * a stable sort by descending score, and the head of the sorted list.
 */
module Primary {
  import opened Wrappers
  import opened Text
  import opened Flights
  import opened Scoring
  import opened Fetch

  /** The `data` member of a parsed provider response. */
  datatype DataField<T> = Absent | NonArray | Items(items: seq<T>)

  /** A parsed provider response, of which only `data` is read. */
  datatype Json<T> = Json(data: DataField<T>)

  /** `data?.data?.[0]`, where `data` is what `fetchJsonSafe` returned. */
  function FirstItem<T>(response: Option<Json<T>>): (r: Option<T>)
    ensures r.Some? <==> response.Some? && response.value.data.Items? && response.value.data.items != []
    ensures r.Some? ==> r.value == response.value.data.items[0]
  {
    if response.Some? && response.value.data.Items? && response.value.data.items != []
    then Some(response.value.data.items[0])
    else None
  }

  /** The placeholder key of the sample configuration. */
  const PlaceholderKey: string := "YOUR_ACCESS_KEY_HERE"

  predicate KeyConfigured(key: Option<string>) {
    Truthy(key) && key.value != PlaceholderKey
  }

  /** `Date.UTC(y, m, d, 23, 59, 59) - Date.UTC(y, m, d, 0, 0, 0)`, in milliseconds. */
  const LastSecondOffset: int := (23 * 3600 + 59 * 60 + 59) * 1000

  /** The filter: a departure time within [00:00:00, 23:59:59] of the UTC day starting at `dayStart`. */
  predicate InToday(f: Flight, dayStart: int) {
    DepartureStamp(f).Some? && dayStart <= DepartureStamp(f).value.millis <= dayStart + LastSecondOffset
  }

  /**
   * `.filter(...)` with that test; `TodayKeepsAll` and `TodayAppend` state
   * that it keeps every flight in the window, as often as in the input and
   * in input order.
   */
  function Today(flights: seq<Flight>, dayStart: int): (r: seq<Flight>)
    ensures forall k :: 0 <= k < |r| ==> InToday(r[k], dayStart)
    ensures r == [] <==> forall j :: 0 <= j < |flights| ==> !InToday(flights[j], dayStart)
  {
    if flights == [] then []
    else (if InToday(flights[0], dayStart) then [flights[0]] else []) + Today(flights[1..], dayStart)
  }

  /** The filter keeps exactly the flights in the window, each as often as the input holds it. */
  lemma {:induction false} TodayKeepsAll(flights: seq<Flight>, dayStart: int)
    ensures forall x :: x in Today(flights, dayStart) <==> x in flights && InToday(x, dayStart)
    ensures forall x :: multiset(Today(flights, dayStart))[x] ==
                         (if InToday(x, dayStart) then multiset(flights)[x] else 0)
  {
    if flights != [] {
      var h := if InToday(flights[0], dayStart) then [flights[0]] else [];
      assert flights == [flights[0]] + flights[1..];
      assert Today(flights, dayStart) == h + Today(flights[1..], dayStart);
      TodayKeepsAll(flights[1..], dayStart);
    }
  }

  /**
   * The filter distributes over concatenation; with `Today([x])` being `[x]`
   * or `[]`, this fixes the result's order: the kept flights in input order.
   */
  lemma {:induction false} TodayAppend(a: seq<Flight>, b: seq<Flight>, dayStart: int)
    ensures Today(a + b, dayStart) == Today(a, dayStart) + Today(b, dayStart)
  {
    if a != [] {
      TodayAppend(a[1..], b, dayStart);
      TodayHead(a, dayStart);
      TodayHead(a + b, dayStart);
      assert (a + b)[0] == a[0] && (a + b)[1..] == a[1..] + b;
      var h := if InToday(a[0], dayStart) then [a[0]] else [];
      AppendAssoc(h, Today(a[1..], dayStart), Today(b, dayStart));
    } else {
      assert a + b == b;
    }
  }

  lemma AppendAssoc(h: seq<Flight>, p: seq<Flight>, q: seq<Flight>)
    ensures h + (p + q) == (h + p) + q
  {
  }

  /** One unfolding of the filter. */
  lemma TodayHead(s: seq<Flight>, dayStart: int)
    requires s != []
    ensures Today(s, dayStart) == (if InToday(s[0], dayStart) then [s[0]] else []) + Today(s[1..], dayStart)
  {
  }

  datatype Scored = Scored(flight: Flight, score: Score)

  /** `.map(f => ({ flight: f, score: scoreFlight(f) }))`. */
  function ScoreAll(flights: seq<Flight>, patterns: seq<string>, now: int): (r: seq<Scored>)
    ensures |r| == |flights|
    ensures forall k :: 0 <= k < |r| ==> r[k] == Scored(flights[k], ScoreOf(flights[k], patterns, now))
  {
    if flights == [] then []
    else [Scored(flights[0], ScoreOf(flights[0], patterns, now))] + ScoreAll(flights[1..], patterns, now)
  }

  /** Descending by score. */
  predicate SortedDesc(s: seq<Scored>) {
    forall i, j :: 0 <= i < j < |s| ==> ScoreLe(s[j].score, s[i].score)
  }

  /**
   * Insert `x`, which comes before every element of `ys` in source order,
   * ahead of the first element that does not score more than it.
   */
  function Insert(x: Scored, ys: seq<Scored>): (r: seq<Scored>)
    ensures multiset(r) == multiset(ys) + multiset{x}
    ensures |r| == |ys| + 1
    ensures forall k :: 0 <= k < |r| ==> r[k] == x || r[k] in ys
    ensures SortedDesc(ys) ==> SortedDesc(r)
  {
    if ys == [] || ScoreLe(ys[0].score, x.score) then [x] + ys
    else
      var tail := Insert(x, ys[1..]);
      InsertBehind(x, ys, tail);
      [ys[0]] + tail
  }

  /** The recursive case of `Insert`: `x` goes into the tail, behind the head. */
  lemma InsertBehind(x: Scored, ys: seq<Scored>, tail: seq<Scored>)
    requires ys != [] && !ScoreLe(ys[0].score, x.score)
    requires multiset(tail) == multiset(ys[1..]) + multiset{x} && |tail| == |ys[1..]| + 1
    requires forall k :: 0 <= k < |tail| ==> tail[k] == x || tail[k] in ys[1..]
    requires SortedDesc(ys[1..]) ==> SortedDesc(tail)
    ensures var r := [ys[0]] + tail;
      && multiset(r) == multiset(ys) + multiset{x} && |r| == |ys| + 1
      && (forall k :: 0 <= k < |r| ==> r[k] == x || r[k] in ys)
      && (SortedDesc(ys) ==> SortedDesc(r))
  {
    assert ys == [ys[0]] + ys[1..];
    InsertKeepsOrder(x, ys, tail);
    var r := [ys[0]] + tail;
    forall k | 0 <= k < |r| ensures r[k] == x || r[k] in ys {
      if k > 0 {
        assert r[k] == tail[k - 1];
      }
    }
  }

  lemma InsertKeepsOrder(x: Scored, ys: seq<Scored>, tail: seq<Scored>)
    requires ys != [] && !ScoreLe(ys[0].score, x.score)
    requires forall k :: 0 <= k < |tail| ==> tail[k] == x || tail[k] in ys[1..]
    requires SortedDesc(ys) ==> SortedDesc(tail)
    ensures SortedDesc(ys) ==> SortedDesc([ys[0]] + tail)
  {
    if SortedDesc(ys) {
      var r := [ys[0]] + tail;
      forall i, j | 0 <= i < j < |r| ensures ScoreLe(r[j].score, r[i].score) {
        if i == 0 {
          var z := tail[j - 1];
          if z != x {
            var m :| 0 <= m < |ys[1..]| && ys[1..][m] == z;
            assert ys[m + 1] == z;
          }
        } else {
          assert r[i] == tail[i - 1] && r[j] == tail[j - 1];
        }
      }
    }
  }

  /**
   * `.sort((a, b) => b.score - a.score)`: a stable sort, descending by score,
   * as an insertion sort: a permutation of its input, in descending order.
   */
  function SortByScore(xs: seq<Scored>): (r: seq<Scored>)
    ensures multiset(r) == multiset(xs)
    ensures SortedDesc(r)
  {
    if xs == [] then []
    else
      assert xs == [xs[0]] + xs[1..];
      Insert(xs[0], SortByScore(xs[1..]))
  }

  /** The entries of `xs` whose score is `v`, in their order in `xs`. */
  function WithScore(xs: seq<Scored>, v: Score): seq<Scored> {
    if xs == [] then []
    else (if xs[0].score == v then [xs[0]] else []) + WithScore(xs[1..], v)
  }

  lemma WithScoreCons(x: Scored, ys: seq<Scored>, v: Score)
    ensures WithScore([x] + ys, v) == (if x.score == v then [x] else []) + WithScore(ys, v)
  {
    assert ([x] + ys)[1..] == ys;
  }

  /** Insertion goes ahead of every entry with the same score: it keeps equal scores in order. */
  lemma {:induction false} InsertStable(x: Scored, ys: seq<Scored>, v: Score)
    ensures WithScore(Insert(x, ys), v) == WithScore([x] + ys, v)
  {
    if ys != [] && !ScoreLe(ys[0].score, x.score) {
      var y, rest := ys[0], ys[1..];
      var tail := Insert(x, rest);
      assert Insert(x, ys) == [y] + tail;
      assert ys == [y] + rest;
      InsertStable(x, rest, v);
      SwapDistinctHeads(x, y, rest, tail, v);
    }
  }

  /** Entries with different scores can change places without changing any `WithScore`. */
  lemma SwapDistinctHeads(x: Scored, y: Scored, rest: seq<Scored>, tail: seq<Scored>, v: Score)
    requires x.score != y.score
    requires WithScore(tail, v) == WithScore([x] + rest, v)
    ensures WithScore([y] + tail, v) == WithScore([x] + ([y] + rest), v)
  {
    var hx := if x.score == v then [x] else [];
    var hy := if y.score == v then [y] else [];
    WithScoreCons(y, tail, v);
    WithScoreCons(x, rest, v);
    WithScoreCons(y, rest, v);
    WithScoreCons(x, [y] + rest, v);
    assert hx == [] || hy == [];
  }

  /**
   * The sort is stable: for every score, the entries with that score appear
   * in the result in the order they have in the input.
   */
  lemma {:induction false} SortByScoreStable(xs: seq<Scored>, v: Score)
    ensures WithScore(SortByScore(xs), v) == WithScore(xs, v)
  {
    if xs != [] {
      assert xs == [xs[0]] + xs[1..];
      InsertStable(xs[0], SortByScore(xs[1..]), v);
      SortByScoreStable(xs[1..], v);
      WithScoreCons(xs[0], SortByScore(xs[1..]), v);
      WithScoreCons(xs[0], xs[1..], v);
    }
  }

  /**
   * `xs[k]` is the first flight, in source order, among those in today's
   * window with the best score.
   */
  predicate IsFirstBest(xs: seq<Flight>, k: int, patterns: seq<string>, now: int, dayStart: int) {
    && 0 <= k < |xs| && InToday(xs[k], dayStart)
    && (forall j :: 0 <= j < |xs| && InToday(xs[j], dayStart) ==>
          ScoreLe(ScoreOf(xs[j], patterns, now), ScoreOf(xs[k], patterns, now)))
    && (forall j :: 0 <= j < k && InToday(xs[j], dayStart) ==>
          !ScoreLe(ScoreOf(xs[k], patterns, now), ScoreOf(xs[j], patterns, now)))
  }

  /** The filter-map-sort pipeline. */
  function Ranked(xs: seq<Flight>, patterns: seq<string>, now: int, dayStart: int): (r: seq<Scored>)
    ensures |r| == |Today(xs, dayStart)|
    ensures SortedDesc(r)
  {
    SortByScore(ScoreAll(Today(xs, dayStart), patterns, now))
  }

  lemma IsFirstBestShift(x: Flight, rest: seq<Flight>, k: int, patterns: seq<string>, now: int, dayStart: int)
    requires IsFirstBest(rest, k, patterns, now, dayStart)
    requires !InToday(x, dayStart) ||
      !ScoreLe(ScoreOf(rest[k], patterns, now), ScoreOf(x, patterns, now))
    ensures IsFirstBest([x] + rest, k + 1, patterns, now, dayStart)
  {
    var xs := [x] + rest;
    forall j | 0 <= j < |xs| && InToday(xs[j], dayStart)
      ensures ScoreLe(ScoreOf(xs[j], patterns, now), ScoreOf(xs[k + 1], patterns, now))
    {
      if j > 0 {
        assert xs[j] == rest[j - 1];
      }
    }
    forall j | 0 <= j < k + 1 && InToday(xs[j], dayStart)
      ensures !ScoreLe(ScoreOf(xs[k + 1], patterns, now), ScoreOf(xs[j], patterns, now))
    {
      if j > 0 {
        assert xs[j] == rest[j - 1];
      }
    }
  }

  lemma IsFirstBestHead(x: Flight, rest: seq<Flight>, patterns: seq<string>, now: int, dayStart: int)
    requires InToday(x, dayStart)
    requires forall j :: 0 <= j < |rest| && InToday(rest[j], dayStart) ==>
      ScoreLe(ScoreOf(rest[j], patterns, now), ScoreOf(x, patterns, now))
    ensures IsFirstBest([x] + rest, 0, patterns, now, dayStart)
  {
    var xs := [x] + rest;
    forall j | 0 <= j < |xs| && InToday(xs[j], dayStart)
      ensures ScoreLe(ScoreOf(xs[j], patterns, now), ScoreOf(xs[0], patterns, now))
    {
      if j > 0 {
        assert xs[j] == rest[j - 1];
      }
    }
  }

  /** Ranking a list with one more flight in front inserts it, if it departs today. */
  lemma RankedCons(x: Flight, rest: seq<Flight>, patterns: seq<string>, now: int, dayStart: int)
    ensures Ranked([x] + rest, patterns, now, dayStart) ==
      if InToday(x, dayStart)
      then Insert(Scored(x, ScoreOf(x, patterns, now)), Ranked(rest, patterns, now, dayStart))
      else Ranked(rest, patterns, now, dayStart)
  {
    var xs := [x] + rest;
    assert xs[1..] == rest;
    if InToday(x, dayStart) {
      assert Today(xs, dayStart) == [x] + Today(rest, dayStart);
      var t := Today(rest, dayStart);
      assert ([x] + t)[1..] == t;
      assert ScoreAll([x] + t, patterns, now) == [Scored(x, ScoreOf(x, patterns, now))] + ScoreAll(t, patterns, now);
    } else {
      assert Today(xs, dayStart) == Today(rest, dayStart);
    }
  }

  /** The ranking is empty exactly when no flight departs today. */
  lemma {:induction false} RankedEmptyIff(xs: seq<Flight>, patterns: seq<string>, now: int, dayStart: int)
    ensures Ranked(xs, patterns, now, dayStart) == [] <==> forall j :: 0 <= j < |xs| ==> !InToday(xs[j], dayStart)
  {
    if xs != [] {
      assert xs == [xs[0]] + xs[1..];
      RankedEmptyIff(xs[1..], patterns, now, dayStart);
      RankedCons(xs[0], xs[1..], patterns, now, dayStart);
      if InToday(xs[0], dayStart) {
        assert |Ranked(xs, patterns, now, dayStart)| == |Ranked(xs[1..], patterns, now, dayStart)| + 1;
      } else {
        assert forall j :: 1 <= j < |xs| ==> xs[j] == xs[1..][j - 1];
      }
    }
  }

  /** Every entry of the ranking carries its flight's own score. */
  lemma {:induction false} RankedScoresAreOwn(xs: seq<Flight>, patterns: seq<string>, now: int, dayStart: int)
    ensures var r := Ranked(xs, patterns, now, dayStart);
      forall k :: 0 <= k < |r| ==> r[k].score == ScoreOf(r[k].flight, patterns, now)
  {
    var t := ScoreAll(Today(xs, dayStart), patterns, now);
    var r := SortByScore(t);
    forall k | 0 <= k < |r| ensures r[k].score == ScoreOf(r[k].flight, patterns, now) {
      assert r[k] in multiset(t);
      var m :| 0 <= m < |t| && t[m] == r[k];
    }
  }

  /**
   * The head of the ranking is the first flight, in source order, of those
   * departing today, whose score no other of them beats.
   */
  lemma {:induction false} RankedHeadIsFirstBest(xs: seq<Flight>, patterns: seq<string>, now: int, dayStart: int)
    requires Ranked(xs, patterns, now, dayStart) != []
    ensures exists k :: IsFirstBest(xs, k, patterns, now, dayStart) && Ranked(xs, patterns, now, dayStart)[0].flight == xs[k]
  {
    var x, rest := xs[0], xs[1..];
    assert xs == [x] + rest;
    RankedCons(x, rest, patterns, now, dayStart);
    var s := Ranked(rest, patterns, now, dayStart);
    var sx := Scored(x, ScoreOf(x, patterns, now));
    if !InToday(x, dayStart) {
      RankedHeadIsFirstBest(rest, patterns, now, dayStart);
      var k :| IsFirstBest(rest, k, patterns, now, dayStart) && s[0].flight == rest[k];
      IsFirstBestShift(x, rest, k, patterns, now, dayStart);
    } else if s == [] {
      RankedEmptyIff(rest, patterns, now, dayStart);
      IsFirstBestHead(x, rest, patterns, now, dayStart);
    } else {
      RankedHeadIsFirstBest(rest, patterns, now, dayStart);
      RankedScoresAreOwn(rest, patterns, now, dayStart);
      var k :| IsFirstBest(rest, k, patterns, now, dayStart) && s[0].flight == rest[k];
      InsertedHeadIsFirstBest(x, rest, k, s, patterns, now, dayStart);
    }
  }

  /** One step of the ranking proof: `x` is inserted into the ranking `s` of `rest`. */
  lemma InsertedHeadIsFirstBest(x: Flight, rest: seq<Flight>, k: int, s: seq<Scored>,
                                patterns: seq<string>, now: int, dayStart: int)
    requires InToday(x, dayStart) && IsFirstBest(rest, k, patterns, now, dayStart)
    requires s != [] && s[0].flight == rest[k] && s[0].score == ScoreOf(rest[k], patterns, now)
    ensures var ins := Insert(Scored(x, ScoreOf(x, patterns, now)), s);
      exists k' :: IsFirstBest([x] + rest, k', patterns, now, dayStart) && ins[0].flight == ([x] + rest)[k']
  {
    var sx := Scored(x, ScoreOf(x, patterns, now));
    var ins := Insert(sx, s);
    if ScoreLe(s[0].score, sx.score) {
      assert ins[0] == sx;
      forall j | 0 <= j < |rest| && InToday(rest[j], dayStart)
        ensures ScoreLe(ScoreOf(rest[j], patterns, now), ScoreOf(x, patterns, now))
      {
        ScoreLeTrans(ScoreOf(rest[j], patterns, now), ScoreOf(rest[k], patterns, now), ScoreOf(x, patterns, now));
      }
      IsFirstBestHead(x, rest, patterns, now, dayStart);
      assert ([x] + rest)[0] == x;
    } else {
      assert ins[0] == s[0];
      IsFirstBestShift(x, rest, k, patterns, now, dayStart);
      assert ([x] + rest)[k + 1] == rest[k];
    }
  }

  lemma ScoreLeTrans(a: Score, b: Score, c: Score)
    requires ScoreLe(a, b) && ScoreLe(b, c)
    ensures ScoreLe(a, c)
  {
  }

  /** What `fetchAviationstackFlight` returns given what `fetchJsonSafe` returned. */
  function SelectPrimary(key: Option<string>, response: Option<Json<Flight>>,
                         patterns: seq<string>, now: int, dayStart: int): Option<Flight>
  {
    if !KeyConfigured(key) then None
    else if response.None? || !response.value.data.Items? then None
    else
      var ranked := Ranked(response.value.data.items, patterns, now, dayStart);
      if ranked == [] then None else Some(ranked[0].flight)
  }

  /**
   * `null` without a usable key, without a `data` array, or when no flight
   * departs today; otherwise the first best-scoring flight of today.
   */
  lemma SelectPrimaryChoice(key: Option<string>, response: Option<Json<Flight>>,
                            patterns: seq<string>, now: int, dayStart: int)
    ensures var r := SelectPrimary(key, response, patterns, now, dayStart);
      && (r.Some? <==> KeyConfigured(key) && response.Some? && response.value.data.Items?
                       && exists j :: 0 <= j < |response.value.data.items|
                                      && InToday(response.value.data.items[j], dayStart))
      && (r.Some? ==> exists k :: IsFirstBest(response.value.data.items, k, patterns, now, dayStart)
                                  && r.value == response.value.data.items[k])
  {
    if KeyConfigured(key) && response.Some? && response.value.data.Items? {
      var xs := response.value.data.items;
      RankedEmptyIff(xs, patterns, now, dayStart);
      if Ranked(xs, patterns, now, dayStart) != [] {
        RankedHeadIsFirstBest(xs, patterns, now, dayStart);
      }
    }
  }

  /** A flight in today's window has a departure time, so its score is finite. */
  lemma TodayScoresFinite(f: Flight, patterns: seq<string>, now: int, dayStart: int)
    requires InToday(f, dayStart)
    ensures ScoreOf(f, patterns, now).Fin?
  {
  }

  /** `fetchAviationstackFlight`: query the provider only with a usable key. */
  method FetchAviationstackFlight(key: Option<string>, outcomes: seq<Attempt<Json<Flight>>>,
                                  patterns: seq<string>, now: int, dayStart: int)
    returns (flight: Option<Flight>)
    requires 3 <= |outcomes|
    ensures flight == SelectPrimary(key, FetchSpec(outcomes, 3).result, patterns, now, dayStart)
  {
    if !KeyConfigured(key) {
      return None;
    }
    var data, _ := FetchJsonSafe(outcomes, 3);
    if data.None? || !data.value.data.Items? {
      return None;
    }
    var ranked := Ranked(data.value.data.items, patterns, now, dayStart);
    flight := if ranked == [] then None else Some(ranked[0].flight);
  }
}
