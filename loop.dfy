/**
 * The loop shared by lib/bench.ts and app/api/benchmark/route.ts: for each model in order,
 * one attempt that sends its chat requests and yields a result; the first error ends the loop.
 */
module Loop {
  import opened Wrappers
  import opened Seqs
  import opened Backend

  /** One iteration's outcome: the requests it sent, and its result or the error that ends the loop. */
  datatype Attempt<R> = Attempt(calls: seq<ChatRequest>, result: Result<R>)

  /** The loop body as a value: the attempt for a model and its position. */
  type Attempter<R> = (string, nat) -> Attempt<R>

  /** The loop's state: the results so far, the requests sent, and the error that ended it. */
  datatype Progress<R> = Progress(results: seq<R>, calls: seq<ChatRequest>, failure: Option<string>)

  /** The loop over the first `k` models; the first error ends it. */
  function Drive<R>(models: seq<string>, attempt: Attempter<R>, k: nat): Progress<R>
    requires k <= |models|
  {
    if k == 0 then Progress([], [], None)
    else
      var p := Drive(models, attempt, k - 1);
      if p.failure.Some? then p
      else
        var a := attempt(models[k - 1], k - 1);
        match a.result
        case Err(e) => Progress(p.results, p.calls + a.calls, Some(e))
        case Ok(r) => Progress(p.results + [r], p.calls + a.calls, None)
  }

  /**
   * A loop that met no error, over attempts that each sent two requests when they
   * succeeded, kept every attempt's result in order and sent attempt `i`'s requests as
   * numbers `2i` and `2i + 1`.
   */
  lemma {:induction false} DriveInOrder<R>(models: seq<string>, attempt: Attempter<R>, k: nat)
    requires k <= |models|
    requires Drive(models, attempt, k).failure.None?
    requires forall i :: 0 <= i < k && attempt(models[i], i).result.Ok? ==> |attempt(models[i], i).calls| == 2
    ensures |Drive(models, attempt, k).results| == k
    ensures |Drive(models, attempt, k).calls| == 2 * k
    ensures forall i :: 0 <= i < k ==>
      && attempt(models[i], i).result == Ok(Drive(models, attempt, k).results[i])
      && Drive(models, attempt, k).calls[2 * i] == attempt(models[i], i).calls[0]
      && Drive(models, attempt, k).calls[2 * i + 1] == attempt(models[i], i).calls[1]
  {
    if k > 0 {
      DriveInOrder(models, attempt, k - 1);
      var q := Drive(models, attempt, k - 1);
      var p := Drive(models, attempt, k);
      var a := attempt(models[k - 1], k - 1);
      assert p.results == q.results + [a.result.value];
      assert p.calls == q.calls + a.calls;
    }
  }

  /** A loop that met no error, over attempts whose results name their model (by `name`), names the models in order. */
  lemma {:induction false} DriveNamesModels<R>(models: seq<string>, attempt: Attempter<R>, k: nat, name: R -> string)
    requires k <= |models|
    requires Drive(models, attempt, k).failure.None?
    requires forall m, i :: attempt(m, i).result.Ok? ==> name(attempt(m, i).result.value) == m
    ensures Map(Drive(models, attempt, k).results, name) == models[..k]
  {
    if k > 0 {
      DriveNamesModels(models, attempt, k - 1, name);
      var q := Drive(models, attempt, k - 1).results;
      var r := attempt(models[k - 1], k - 1).result.value;
      assert Drive(models, attempt, k).results == q + [r];
      assert models[..k] == models[..k - 1] + [models[k - 1]];
    }
  }

  /** Every result of the loop satisfies a property that every successful attempt's result has. */
  lemma {:induction false} DriveKeeps<R>(models: seq<string>, attempt: Attempter<R>, k: nat, prop: R -> bool)
    requires k <= |models|
    requires forall m, i :: attempt(m, i).result.Ok? ==> prop(attempt(m, i).result.value)
    ensures forall j :: 0 <= j < |Drive(models, attempt, k).results| ==> prop(Drive(models, attempt, k).results[j])
  {
    if k > 0 {
      DriveKeeps(models, attempt, k - 1, prop);
    }
  }

  /** An error ends the loop: every later iteration leaves the state as it was. */
  lemma {:induction false} DriveFailurePersists<R>(models: seq<string>, attempt: Attempter<R>, k: nat, k': nat)
    requires k <= k' <= |models|
    requires Drive(models, attempt, k).failure.Some?
    ensures Drive(models, attempt, k') == Drive(models, attempt, k)
    decreases k' - k
  {
    if k < k' {
      DriveFailurePersists(models, attempt, k, k' - 1);
    }
  }

  /** The loop ends with an error exactly when some attempt fails, and the first failing attempt's error is the one kept. */
  lemma {:induction false} DriveFirstFailure<R>(models: seq<string>, attempt: Attempter<R>, k: nat)
    requires k <= |models|
    ensures Drive(models, attempt, k).failure.Some? <==> exists i :: 0 <= i < k && attempt(models[i], i).result.Err?
    ensures Drive(models, attempt, k).failure.Some? ==>
      exists i :: 0 <= i < k && attempt(models[i], i).result.Err?
        && Drive(models, attempt, k).failure.value == attempt(models[i], i).result.message
        && forall j :: 0 <= j < i ==> attempt(models[j], j).result.Ok?
  {
    if k > 0 {
      DriveFirstFailure(models, attempt, k - 1);
    }
  }
}
