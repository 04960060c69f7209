/**
 * `fetchJsonSafe` (generate_rss.js:32-52): up to `retries` attempts, each of
 * which ends in a network error, a non-ok status, an ok status with a body
 * that is not JSON, or an ok status with a JSON body.  The network and the
 * timers are abstracted: the outcome of attempt `i` is `outcomes[i]`, and the
 * waits are returned as a list of milliseconds instead of being slept.
 */
module Fetch {
  import opened Wrappers

  /** How one attempt ends. */
  datatype Attempt<T> = NetErr | NotOk | OkBadJson | OkJson(body: T) {
    /** The outcomes that lead to a retry: a thrown fetch or a non-ok response. */
    predicate Failed() {
      NetErr? || NotOk?
    }
  }

  /** The body returned, the waits made between attempts, and the attempts made. */
  datatype Fetched<T> = Fetched(result: Option<T>, delays: seq<int>, attempts: nat)

  /** The linear back-off unit: attempt `i` that fails waits `2000 * (i + 1)` ms. */
  const BackoffMillis: int := 2000

  /** The run of the loop from attempt `i` on. */
  function FetchFrom<T>(outcomes: seq<Attempt<T>>, retries: int, i: nat): Fetched<T>
    requires retries <= |outcomes|
    decreases retries - i
  {
    if retries <= i then Fetched(None, [], 0)
    else match outcomes[i]
      case OkJson(v) => Fetched(Some(v), [], 1)
      case OkBadJson => Fetched(None, [], 1)
      case _ =>
        if i == retries - 1 then Fetched(None, [], 1)
        else
          var rest := FetchFrom(outcomes, retries, i + 1);
          Fetched(rest.result, [BackoffMillis * (i + 1)] + rest.delays, rest.attempts + 1)
  }

  /** What `fetchJsonSafe(url, retries)` does when the attempts end as `outcomes` says. */
  function FetchSpec<T>(outcomes: seq<Attempt<T>>, retries: int): Fetched<T>
    requires retries <= |outcomes|
  {
    FetchFrom(outcomes, retries, 0)
  }

  /** `fetchJsonSafe`: the counted loop with its early returns. */
  method FetchJsonSafe<T>(outcomes: seq<Attempt<T>>, retries: int) returns (r: Option<T>, delays: seq<int>)
    requires retries <= |outcomes|
    ensures r == FetchSpec(outcomes, retries).result
    ensures delays == FetchSpec(outcomes, retries).delays
  {
    delays := [];
    var i := 0;
    while i < retries
      invariant 0 <= i && (0 <= retries ==> i <= retries)
      invariant FetchSpec(outcomes, retries).result == FetchFrom(outcomes, retries, i).result
      invariant FetchSpec(outcomes, retries).delays == delays + FetchFrom(outcomes, retries, i).delays
    {
      var outcome := outcomes[i];
      if outcome.Failed() {
        if i == retries - 1 {
          return None, delays;
        }
        delays := delays + [BackoffMillis * (i + 1)];
        i := i + 1;
      } else if outcome.OkBadJson? {
        return None, delays;
      } else {
        return Some(outcome.body), delays;
      }
    }
    return None, delays;
  }

  /** The shape of the run from attempt `i` on, for the lemma below. */
  lemma {:induction false} FetchFromShape<T>(outcomes: seq<Attempt<T>>, retries: int, i: nat)
    requires retries <= |outcomes| && i < retries
    ensures var f := FetchFrom(outcomes, retries, i);
      && 1 <= f.attempts <= retries - i
      && |f.delays| == f.attempts - 1
      && (forall j :: 0 <= j < |f.delays| ==> f.delays[j] == BackoffMillis * (i + j + 1))
      && (forall j :: i <= j < i + f.attempts - 1 ==> outcomes[j].Failed())
      && (outcomes[i + f.attempts - 1].Failed() ==> i + f.attempts == retries)
      && f.result == (if outcomes[i + f.attempts - 1].OkJson? then Some(outcomes[i + f.attempts - 1].body) else None)
    decreases retries - i
  {
    if outcomes[i].Failed() && i < retries - 1 {
      FetchFromShape(outcomes, retries, i + 1);
    }
  }

  /**
   * With at least one attempt allowed: the attempts before the last all
   * failed; the last one is the first that did not fail, or the final
   * allowed attempt; the result is its JSON body if it has one and `None`
   * otherwise; and every attempt but the last was followed by a wait of
   * 2000, 4000, 6000, ... ms.
   */
  lemma FetchShape<T>(outcomes: seq<Attempt<T>>, retries: int)
    requires retries <= |outcomes| && 0 < retries
    ensures var f := FetchSpec(outcomes, retries);
      && 1 <= f.attempts <= retries
      && |f.delays| == f.attempts - 1
      && (forall j :: 0 <= j < |f.delays| ==> f.delays[j] == BackoffMillis * (j + 1))
      && (forall j :: 0 <= j < f.attempts - 1 ==> outcomes[j].Failed())
      && (outcomes[f.attempts - 1].Failed() ==> f.attempts == retries)
      && f.result == (if outcomes[f.attempts - 1].OkJson? then Some(outcomes[f.attempts - 1].body) else None)
  {
    FetchFromShape(outcomes, retries, 0);
  }

  /** `retries <= 0` makes no attempt and returns `null`. */
  lemma NoRetriesNoAttempt<T>(outcomes: seq<Attempt<T>>, retries: int)
    requires retries <= 0
    ensures FetchSpec(outcomes, retries) == Fetched(None, [], 0)
  {
  }

  /**
   * The first attempt that does not fail decides: a JSON body is returned,
   * a malformed one gives `null`, and no further attempt is made either way.
   */
  lemma FirstAnswerDecides<T>(outcomes: seq<Attempt<T>>, retries: int, k: nat)
    requires retries <= |outcomes| && k < retries
    requires forall j :: 0 <= j < k ==> outcomes[j].Failed()
    requires !outcomes[k].Failed()
    ensures FetchSpec(outcomes, retries).attempts == k + 1
    ensures FetchSpec(outcomes, retries).result ==
      if outcomes[k].OkJson? then Some(outcomes[k].body) else None
  {
    FetchShape(outcomes, retries);
  }

  /** When every allowed attempt fails: `null`, after `retries` attempts and `retries - 1` waits. */
  lemma AllFailedExhausts<T>(outcomes: seq<Attempt<T>>, retries: int)
    requires retries <= |outcomes| && 0 < retries
    requires forall j :: 0 <= j < retries ==> outcomes[j].Failed()
    ensures FetchSpec(outcomes, retries).result == None
    ensures FetchSpec(outcomes, retries).attempts == retries
    ensures |FetchSpec(outcomes, retries).delays| == retries - 1
  {
    FetchShape(outcomes, retries);
  }
}
