/**
 * lib/leaderboardStore.ts: the leaderboard's run history in `localStorage` (at most 200
 * runs, newest first), the per-model statistics folded from all saved runs, and the
 * colour derived from a model name's hash.
 */
module LeaderboardStore {
  import opened Wrappers
  import opened Text
  import opened Seqs
  import opened StableSort
  import opened Models
  import opened Browser

  /** `saveRun` keeps the latest 200 runs. */
  const Capacity: nat := 200

  /**
   * `loadRuns`: the stored list; the empty list on the server, and for an absent,
   * unparsable or non-array entry.
   */
  method LoadRuns(store: LocalStorage) returns (runs: seq<BenchRun>)
    ensures runs == store.Loaded()
    ensures !store.hasWindow || !store.slot.Saved? ==> runs == []
    ensures store.hasWindow && store.slot.Saved? ==> runs == store.slot.runs
  {
    if !store.hasWindow {
      return [];
    }
    match store.slot
    case Saved(saved) => runs := saved;
    case _ => runs := [];
  }

  /**
   * `saveRun`: the new run followed by the previously loaded runs, cut to the capacity.
   * This version has no guard for the server, where `localStorage.setItem` throws and
   * nothing is stored.
   */
  method SaveRun(store: LocalStorage, run: BenchRun) returns (thrown: Option<string>)
    modifies store
    ensures !store.hasWindow ==> thrown == Some(NoStorageError) && store.slot == old(store.slot)
    ensures store.hasWindow ==> thrown.None? && store.slot == Saved(Newest(run, old(store.Loaded()), Capacity))
    ensures store.hasWindow ==> store.Loaded() == Newest(run, old(store.Loaded()), Capacity)
  {
    var prev := LoadRuns(store);
    var next := Newest(run, prev, Capacity);
    if !store.hasWindow {
      return Some(NoStorageError);
    }
    store.slot := Saved(next);
    thrown := None;
  }

  /** `clearRuns`: removes the entry (on the server nothing changes); afterwards a load returns `[]`. */
  method ClearRuns(store: LocalStorage)
    modifies store
    ensures !store.hasWindow ==> store.slot == old(store.slot)
    ensures store.hasWindow ==> store.slot == Absent
    ensures store.Loaded() == []
  {
    if !store.hasWindow {
      return;
    }
    store.slot := Absent;
  }

  /** One entry of what `computeModelStats` returns. */
  datatype ModelStats = ModelStats(model: string, avgTotal: real, wins: nat, avgLatencyS: real, runs: nat)

  function StatsModel(s: ModelStats): string {
    s.model
  }

  /** The accumulator `per[model]`: `{ totalSum, n, wins, latencySumMs }`. */
  datatype Acc = Acc(totalSum: real, n: nat, wins: nat, latencySumMs: real)

  /** The accumulator's starting value. */
  const Zero: Acc := Acc(0.0, 0, 0, 0.0)

  /** The averages of an accumulator: `s.n ? s.totalSum / s.n : 0` and `s.n ? (s.latencySumMs / s.n) / 1000 : 0`. */
  function StatOf(model: string, a: Acc): ModelStats {
    ModelStats(
      model,
      if a.n == 0 then 0.0 else a.totalSum / (a.n as real),
      a.wins,
      if a.n == 0 then 0.0 else a.latencySumMs / (a.n as real) / 1000.0,
      a.n)
  }

  // The statistics, defined from the runs directly.

  /** Every result of every run, in order. */
  function AllResults(runs: seq<BenchRun>): seq<BenchResult> {
    if runs == [] then [] else AllResults(runs[..|runs| - 1]) + runs[|runs| - 1].results
  }

  /** The number of results that name `m`. */
  function Count(rs: seq<BenchResult>, m: string): nat {
    if rs == [] then 0 else Count(rs[..|rs| - 1], m) + (if rs[|rs| - 1].model == m then 1 else 0)
  }

  /** The sum of the totals of the results that name `m`. */
  function TotalSum(rs: seq<BenchResult>, m: string): real {
    if rs == [] then 0.0 else TotalSum(rs[..|rs| - 1], m) + (if rs[|rs| - 1].model == m then rs[|rs| - 1].scores.total else 0.0)
  }

  /** The sum of the latencies of the results that name `m` (`latency_ms || 0`: a zero latency adds 0). */
  function LatencySum(rs: seq<BenchResult>, m: string): real {
    if rs == [] then 0.0 else LatencySum(rs[..|rs| - 1], m) + (if rs[|rs| - 1].model == m then rs[|rs| - 1].latencyMs else 0.0)
  }

  /** A run's winner: the model of its earliest result with the greatest total; none for a run without results. */
  function Winner(run: BenchRun): Option<string> {
    if run.results == [] then None else Some(run.results[FirstMaxIndex(run.results, TotalOf)].model)
  }

  /** The winner of each run that awards a win: one without results, or whose winner is named "" (falsy), awards none. */
  function Winners(runs: seq<BenchRun>): seq<string> {
    if runs == [] then []
    else
      var w := Winner(runs[|runs| - 1]);
      Winners(runs[..|runs| - 1]) + (if w.Some? && w.value != "" then [w.value] else [])
  }

  /** The number of times `m` occurs in `ws`. */
  function Occurrences(ws: seq<string>, m: string): nat {
    if ws == [] then 0 else Occurrences(ws[..|ws| - 1], m) + (if ws[|ws| - 1] == m then 1 else 0)
  }

  /** The sums of model `m` over the results `rs`, and its wins among `ws`. */
  function Sums(rs: seq<BenchResult>, ws: seq<string>, m: string): Acc {
    Acc(TotalSum(rs, m), Count(rs, m), Occurrences(ws, m), LatencySum(rs, m))
  }

  /** The statistics of model `m` over `runs`. */
  function Stat(runs: seq<BenchRun>, m: string): ModelStats {
    StatOf(m, Sums(AllResults(runs), Winners(runs), m))
  }

  /** One entry per model that has a result, in order of first appearance. */
  function Summary(runs: seq<BenchRun>): seq<ModelStats> {
    Map(Dedup(Map(AllResults(runs), ModelOf)), m => Stat(runs, m))
  }

  // The dictionary `per` as the loops build it.

  /** `per` and the order in which its keys were inserted, which is the order of `Object.entries`. */
  datatype Tally = Tally(order: seq<string>, per: map<string, Acc>)

  function Entry(t: Tally, m: string): Acc {
    if m in t.per then t.per[m] else Zero
  }

  /** The three additions of the inner loop. */
  function Bump(a: Acc, res: BenchResult): Acc {
    Acc(a.totalSum + res.scores.total, a.n + 1, a.wins, a.latencySumMs + res.latencyMs)
  }

  /** The body of the inner loop: `per[res.model] ||= {...}`, then the additions. */
  function AddResult(t: Tally, res: BenchResult): Tally {
    Tally(
      if res.model in t.per then t.order else t.order + [res.model],
      t.per[res.model := Bump(Entry(t, res.model), res)])
  }

  function AddResults(t: Tally, rs: seq<BenchResult>): Tally {
    if rs == [] then t else AddResult(AddResults(t, rs[..|rs| - 1]), rs[|rs| - 1])
  }

  /** `if (winner && per[winner]) per[winner].wins += 1`. */
  function AddWin(t: Tally, winner: Option<string>): Tally {
    if winner.Some? && winner.value != "" && winner.value in t.per then
      var a := t.per[winner.value];
      Tally(t.order, t.per[winner.value := a.(wins := a.wins + 1)])
    else t
  }

  /**
   * `sorted[0]?.model` for a copy of the run's results sorted by descending total: the
   * sort is stable, so this is the earliest result with the greatest total.
   */
  method RunWinner(run: BenchRun) returns (winner: Option<string>)
    ensures winner == Winner(run)
  {
    var sorted := SortDesc(run.results, TotalOf);
    if |sorted| == 0 {
      return None;
    }
    SortDescHead(run.results, TotalOf);
    winner := Some(sorted[0].model);
  }

  /** The outer loop over the first runs. */
  function TallyRuns(runs: seq<BenchRun>): Tally {
    if runs == [] then Tally([], map[])
    else
      var r := runs[|runs| - 1];
      AddWin(AddResults(TallyRuns(runs[..|runs| - 1]), r.results), Winner(r))
  }

  lemma AddResultsStep(t: Tally, rs: seq<BenchResult>, j: nat)
    requires j < |rs|
    ensures AddResults(t, rs[..j + 1]) == AddResult(AddResults(t, rs[..j]), rs[j])
  {
    assert rs[..j + 1][..j] == rs[..j];
  }

  lemma TallyRunsStep(runs: seq<BenchRun>, i: nat)
    requires i < |runs|
    ensures TallyRuns(runs[..i + 1]) == AddWin(AddResults(TallyRuns(runs[..i]), runs[i].results), Winner(runs[i]))
  {
    assert runs[..i + 1][..i] == runs[..i];
  }

  /** `Object.entries(per).map(...)`. */
  function Entries(t: Tally): seq<ModelStats> {
    Map(t.order, m => StatOf(m, Entry(t, m)))
  }

  /** `computeModelStats`: the loop over the runs that fills `per`, then one entry per key. */
  method ComputeModelStats(runs: seq<BenchRun>) returns (stats: seq<ModelStats>)
    ensures stats == Summary(runs)
  {
    var order: seq<string> := [];
    var per: map<string, Acc> := map[];
    var i := 0;
    while i < |runs|
      invariant 0 <= i <= |runs|
      invariant Tally(order, per) == TallyRuns(runs[..i])
    {
      order, per := TallyRun(order, per, runs[i]);
      TallyRunsStep(runs, i);
      i := i + 1;
    }
    assert runs[..|runs|] == runs;
    stats := Entries(Tally(order, per));
    TallyIsSummary(runs);
  }

  /**
   * The body of the loop over the runs: the winner of the sorted copy, the loop over the
   * run's results, then the winner's win.
   */
  method TallyRun(order: seq<string>, per: map<string, Acc>, run: BenchRun)
    returns (order': seq<string>, per': map<string, Acc>)
    ensures Tally(order', per') == AddWin(AddResults(Tally(order, per), run.results), Winner(run))
  {
    var winner := RunWinner(run);
    order', per' := order, per;
    var j := 0;
    while j < |run.results|
      invariant 0 <= j <= |run.results|
      invariant Tally(order', per') == AddResults(Tally(order, per), run.results[..j])
    {
      var res := run.results[j];
      ghost var seen := Tally(order', per');
      var a := Zero;
      if res.model in per' {
        a := per'[res.model];
      } else {
        order' := order' + [res.model];
      }
      per' := per'[res.model := Bump(a, res)];
      assert Tally(order', per') == AddResult(seen, res);
      AddResultsStep(Tally(order, per), run.results, j);
      j := j + 1;
    }
    assert run.results[..|run.results|] == run.results;
    ghost var tallied := Tally(order', per');
    if winner.Some? && winner.value != "" && winner.value in per' {
      var a := per'[winner.value];
      per' := per'[winner.value := a.(wins := a.wins + 1)];
      assert Tally(order', per') == AddWin(tallied, winner);
    } else {
      assert tallied == AddWin(tallied, winner);
    }
  }

  /**
   * The invariant of the loops: `per` has an entry for each model seen, in order of first
   * appearance, holding the sums over the results seen and the wins awarded so far.
   */
  ghost predicate Consistent(t: Tally, rs: seq<BenchResult>, ws: seq<string>) {
    && t.order == Dedup(Map(rs, ModelOf))
    && (forall m :: m in t.per <==> m in t.order)
    && (forall m :: m in ws ==> m in t.per)
    && forall m {:trigger EntryOk(t, rs, ws, m)} :: EntryOk(t, rs, ws, m)
  }

  /** The entry of model `m`, if there is one, holds its sums. */
  ghost predicate EntryOk(t: Tally, rs: seq<BenchResult>, ws: seq<string>, m: string) {
    m in t.per ==> t.per[m] == Sums(rs, ws, m)
  }

  lemma MapSnoc<T, U>(s: seq<T>, x: T, f: T -> U)
    ensures Map(s + [x], f) == Map(s, f) + [f(x)]
  {
  }

  lemma SumsSnoc(rs: seq<BenchResult>, res: BenchResult, ws: seq<string>, m: string)
    ensures Sums(rs + [res], ws, m) == if m == res.model then Bump(Sums(rs, ws, m), res) else Sums(rs, ws, m)
  {
    var rs' := rs + [res];
    assert rs'[..|rs'| - 1] == rs;
  }

  /** A model without results or wins has zero sums. */
  lemma {:induction false} SumsAbsent(rs: seq<BenchResult>, ws: seq<string>, m: string)
    requires m !in Map(rs, ModelOf) && m !in ws
    ensures Sums(rs, ws, m) == Zero
  {
    if rs != [] {
      var p := rs[..|rs| - 1];
      assert Map(rs, ModelOf)[|rs| - 1] == rs[|rs| - 1].model;
      assert m !in Map(p, ModelOf) by {
        forall k | 0 <= k < |p| ensures Map(p, ModelOf)[k] != m {
          assert Map(rs, ModelOf)[k] == p[k].model;
        }
      }
      SumsAbsent(p, ws, m);
    } else if ws != [] {
      var p := ws[..|ws| - 1];
      assert ws[|ws| - 1] != m;
      assert m !in p by {
        forall k | 0 <= k < |p| ensures p[k] != m {
          assert ws[k] == p[k];
        }
      }
      SumsAbsent(rs, p, m);
    }
  }

  lemma AddResultKeeps(t: Tally, rs: seq<BenchResult>, ws: seq<string>, res: BenchResult)
    requires Consistent(t, rs, ws)
    ensures Consistent(AddResult(t, res), rs + [res], ws)
  {
    var t' := AddResult(t, res);
    var rs' := rs + [res];
    MapSnoc(rs, res, ModelOf);
    DedupSnoc(Map(rs, ModelOf), res.model);
    assert t'.order == Dedup(Map(rs', ModelOf));
    forall m
      ensures EntryOk(t', rs', ws, m)
    {
      assert EntryOk(t, rs, ws, m);
      SumsSnoc(rs, res, ws, m);
      if m == res.model && m !in t.per {
        SumsAbsent(rs, ws, m);
      }
    }
  }

  lemma {:induction false} AddResultsKeeps(t: Tally, rs: seq<BenchResult>, ws: seq<string>, batch: seq<BenchResult>)
    requires Consistent(t, rs, ws)
    ensures Consistent(AddResults(t, batch), rs + batch, ws)
  {
    if batch == [] {
      assert rs + batch == rs;
    } else {
      var b' := batch[..|batch| - 1];
      var last := batch[|batch| - 1];
      assert rs + batch == (rs + b') + [last] by {
        assert batch == b' + [last];
      }
      AddResultsKeeps(t, rs, ws, b');
      AddResultKeeps(AddResults(t, b'), rs + b', ws, last);
    }
  }

  lemma OccurrencesSnoc(ws: seq<string>, w: string, m: string)
    ensures Occurrences(ws + [w], m) == Occurrences(ws, m) + (if w == m then 1 else 0)
  {
    var ws' := ws + [w];
    assert ws'[..|ws'| - 1] == ws;
  }

  lemma AddWinKeeps(t: Tally, rs: seq<BenchResult>, ws: seq<string>, w: Option<string>)
    requires Consistent(t, rs, ws)
    requires w.Some? ==> w.value in Map(rs, ModelOf)
    ensures Consistent(AddWin(t, w), rs, ws + (if w.Some? && w.value != "" then [w.value] else []))
  {
    if w.Some? && w.value != "" {
      AddWinKeepsSome(t, rs, ws, w.value);
    } else {
      assert ws + [] == ws;
    }
  }

  lemma AddWinKeepsSome(t: Tally, rs: seq<BenchResult>, ws: seq<string>, w: string)
    requires Consistent(t, rs, ws)
    requires w != "" && w in Map(rs, ModelOf)
    ensures Consistent(AddWin(t, Some(w)), rs, ws + [w])
  {
    var t' := AddWin(t, Some(w));
    var ws' := ws + [w];
    assert w in t.per;
    forall m
      ensures EntryOk(t', rs, ws', m)
    {
      assert EntryOk(t, rs, ws, m);
      OccurrencesSnoc(ws, w, m);
    }
  }

  /** A winner is the model of one of its run's results. */
  lemma WinnerIsNamed(runs: seq<BenchRun>)
    requires runs != []
    ensures var w := Winner(runs[|runs| - 1]);
      w.Some? ==> w.value in Map(AllResults(runs), ModelOf) && Count(runs[|runs| - 1].results, w.value) >= 1
  {
    var r := runs[|runs| - 1];
    if r.results != [] {
      var k := FirstMaxIndex(r.results, TotalOf);
      var before := AllResults(runs[..|runs| - 1]);
      assert AllResults(runs)[|before| + k] == r.results[k];
      assert Map(AllResults(runs), ModelOf)[|before| + k] == r.results[k].model;
      CountPositive(r.results, k);
    }
  }

  lemma {:induction false} CountPositive(rs: seq<BenchResult>, k: nat)
    requires k < |rs|
    ensures Count(rs, rs[k].model) >= 1
  {
    if k < |rs| - 1 {
      CountPositive(rs[..|rs| - 1], k);
    }
  }

  lemma {:induction false} TallyRunsConsistent(runs: seq<BenchRun>)
    ensures Consistent(TallyRuns(runs), AllResults(runs), Winners(runs))
  {
    if runs != [] {
      var p := runs[..|runs| - 1];
      var r := runs[|runs| - 1];
      TallyRunsConsistent(p);
      AddResultsKeeps(TallyRuns(p), AllResults(p), Winners(p), r.results);
      WinnerIsNamed(runs);
      AddWinKeeps(AddResults(TallyRuns(p), r.results), AllResults(runs), Winners(p), Winner(r));
    }
  }

  /** The dictionary the loops build gives exactly the statistics defined from the runs. */
  lemma TallyIsSummary(runs: seq<BenchRun>)
    ensures Entries(TallyRuns(runs)) == Summary(runs)
  {
    var t := TallyRuns(runs);
    TallyRunsConsistent(runs);
    var e := Entries(t);
    var s := Summary(runs);
    assert |e| == |s|;
    forall k | 0 <= k < |e|
      ensures e[k] == s[k]
    {
      assert t.order[k] in t.per;
      assert EntryOk(t, AllResults(runs), Winners(runs), t.order[k]);
    }
  }

  // What the statistics promise.

  /** One entry per distinct model that appears in some result, in order of first appearance; `runs` counts its results. */
  lemma SummaryModels(runs: seq<BenchRun>)
    ensures NoDuplicates(Map(Summary(runs), StatsModel))
    ensures forall m :: m in Map(Summary(runs), StatsModel) <==> m in Map(AllResults(runs), ModelOf)
    ensures forall k :: 0 <= k < |Summary(runs)| ==> Summary(runs)[k].runs == Count(AllResults(runs), Summary(runs)[k].model)
  {
    var d := Dedup(Map(AllResults(runs), ModelOf));
    DedupDistinct(Map(AllResults(runs), ModelOf));
    assert Map(Summary(runs), StatsModel) == d;
  }

  lemma {:induction false} CountConcat(a: seq<BenchResult>, b: seq<BenchResult>, m: string)
    ensures Count(a + b, m) == Count(a, m) + Count(b, m)
  {
    if b == [] {
      assert a + b == a;
    } else {
      CountConcat(a, b[..|b| - 1], m);
      assert (a + b)[..|a + b| - 1] == a + b[..|b| - 1];
    }
  }

  /** A model wins at most once per run it has a result in, so never more often than it has results. */
  lemma {:induction false} WinsAtMostResults(runs: seq<BenchRun>, m: string)
    ensures Occurrences(Winners(runs), m) <= Count(AllResults(runs), m)
  {
    if runs != [] {
      var p := runs[..|runs| - 1];
      var r := runs[|runs| - 1];
      WinsAtMostResults(p, m);
      CountConcat(AllResults(p), r.results, m);
      WinnerIsNamed(runs);
      var extra := if Winner(r).Some? && Winner(r).value != "" then [Winner(r).value] else [];
      var ws := Winners(p) + extra;
      if extra != [] {
        assert ws[..|ws| - 1] == Winners(p);
      } else {
        assert ws == Winners(p);
      }
    }
  }

  /** Per model, `wins <= runs`. */
  lemma WinsAtMostRuns(runs: seq<BenchRun>)
    ensures forall k :: 0 <= k < |Summary(runs)| ==> Summary(runs)[k].wins <= Summary(runs)[k].runs
  {
    forall k | 0 <= k < |Summary(runs)|
      ensures Summary(runs)[k].wins <= Summary(runs)[k].runs
    {
      WinsAtMostResults(runs, Summary(runs)[k].model);
    }
  }

  /** The wins of the entries, added up. */
  function SumWins(stats: seq<ModelStats>): nat {
    if stats == [] then 0 else stats[0].wins + SumWins(stats[1..])
  }

  /** The occurrences in `ws` of the names in `d`, added up. */
  function SumOccurrences(d: seq<string>, ws: seq<string>): nat {
    if d == [] then 0 else Occurrences(ws, d[0]) + SumOccurrences(d[1..], ws)
  }

  /** The number of positions of `d` that hold `w`. */
  function Indicator(d: seq<string>, w: string): nat {
    if d == [] then 0 else (if d[0] == w then 1 else 0) + Indicator(d[1..], w)
  }

  lemma {:induction false} IndicatorOnce(d: seq<string>, w: string)
    requires NoDuplicates(d)
    ensures Indicator(d, w) == if w in d then 1 else 0
  {
    if d != [] {
      IndicatorOnce(d[1..], w);
      if d[0] == w {
        assert w !in d[1..] by {
          forall k | 0 <= k < |d[1..]|
            ensures d[1..][k] != w
          {
            assert d[k + 1] != d[0];
          }
        }
      }
    }
  }

  lemma {:induction false} SumOccurrencesSnoc(d: seq<string>, ws: seq<string>, w: string)
    ensures SumOccurrences(d, ws + [w]) == SumOccurrences(d, ws) + Indicator(d, w)
  {
    var ws' := ws + [w];
    if d != [] {
      SumOccurrencesSnoc(d[1..], ws, w);
      assert ws'[..|ws'| - 1] == ws;
    }
  }

  /** Over a list of distinct names that contains every winner, the occurrences add up to the number of wins. */
  lemma {:induction false} SumOccurrencesAll(d: seq<string>, ws: seq<string>)
    requires NoDuplicates(d)
    requires forall k :: 0 <= k < |ws| ==> ws[k] in d
    ensures SumOccurrences(d, ws) == |ws|
  {
    if ws == [] {
      SumOccurrencesEmpty(d);
    } else {
      var w := ws[|ws| - 1];
      var p := ws[..|ws| - 1];
      assert ws == p + [w];
      SumOccurrencesAll(d, p);
      SumOccurrencesSnoc(d, p, w);
      IndicatorOnce(d, w);
    }
  }

  lemma {:induction false} SumOccurrencesEmpty(d: seq<string>)
    ensures SumOccurrences(d, []) == 0
  {
    if d != [] {
      SumOccurrencesEmpty(d[1..]);
    }
  }

  lemma {:induction false} SumWinsOfSummary(runs: seq<BenchRun>, d: seq<string>)
    ensures SumWins(Map(d, m => Stat(runs, m))) == SumOccurrences(d, Winners(runs))
  {
    if d != [] {
      SumWinsOfSummary(runs, d[1..]);
    }
  }

  /** Every awarded win goes to a model with a result. */
  lemma {:induction false} WinnersAreNamed(runs: seq<BenchRun>)
    ensures forall k :: 0 <= k < |Winners(runs)| ==> Winners(runs)[k] in Map(AllResults(runs), ModelOf)
  {
    if runs != [] {
      var p := runs[..|runs| - 1];
      var r := runs[|runs| - 1];
      WinnersAreNamed(p);
      WinnerIsNamed(runs);
      MapConcat(AllResults(p), r.results, ModelOf);
    }
  }

  lemma MapConcat<T, U>(a: seq<T>, b: seq<T>, f: T -> U)
    ensures Map(a + b, f) == Map(a, f) + Map(b, f)
  {
    assert forall k :: 0 <= k < |a| ==> Map(a + b, f)[k] == Map(a, f)[k];
  }

  /** Each awarded win is one entry's: the wins of all entries add up to the number of runs that awarded one. */
  lemma WinsAddUp(runs: seq<BenchRun>)
    ensures SumWins(Summary(runs)) == |Winners(runs)|
  {
    var d := Dedup(Map(AllResults(runs), ModelOf));
    DedupDistinct(Map(AllResults(runs), ModelOf));
    WinnersAreNamed(runs);
    SumWinsOfSummary(runs, d);
    SumOccurrencesAll(d, Winners(runs));
  }

  /** The number of runs with at least one result. */
  function NonEmptyRuns(runs: seq<BenchRun>): nat {
    if runs == [] then 0 else NonEmptyRuns(runs[..|runs| - 1]) + (if runs[|runs| - 1].results != [] then 1 else 0)
  }

  /** A run awards at most one win, and only a run with results awards one. */
  lemma {:induction false} AwardsAtMostRuns(runs: seq<BenchRun>)
    ensures |Winners(runs)| <= NonEmptyRuns(runs)
  {
    if runs != [] {
      AwardsAtMostRuns(runs[..|runs| - 1]);
    }
  }

  /** No result of the runs names the model "". */
  predicate NamedResults(runs: seq<BenchRun>) {
    forall i, k :: 0 <= i < |runs| && 0 <= k < |runs[i].results| ==> runs[i].results[k].model != ""
  }

  /** When no result names the model "", every run with results awards exactly one win. */
  lemma {:induction false} WinnersPerRun(runs: seq<BenchRun>)
    requires NamedResults(runs)
    ensures |Winners(runs)| == NonEmptyRuns(runs)
  {
    if runs != [] {
      var p := runs[..|runs| - 1];
      var r := runs[|runs| - 1];
      assert NamedResults(p) by {
        forall i, k | 0 <= i < |p| && 0 <= k < |p[i].results|
          ensures p[i].results[k].model != ""
        {
          assert p[i] == runs[i];
        }
      }
      WinnersPerRun(p);
      if r.results != [] {
        var i := FirstMaxIndex(r.results, TotalOf);
        assert runs[|runs| - 1].results[i].model != "";
      }
    }
  }

  /** Totals in 0..40 give averages in 0..40. */
  lemma AverageInRange(runs: seq<BenchRun>)
    requires forall k :: 0 <= k < |AllResults(runs)| ==> 0.0 <= AllResults(runs)[k].scores.total <= 40.0
    ensures forall k :: 0 <= k < |Summary(runs)| ==> 0.0 <= Summary(runs)[k].avgTotal <= 40.0
  {
    forall k | 0 <= k < |Summary(runs)|
      ensures 0.0 <= Summary(runs)[k].avgTotal <= 40.0
    {
      var m := Summary(runs)[k].model;
      var rs := AllResults(runs);
      TotalSumInRange(rs, m);
      var n := Count(rs, m) as real;
      if n > 0.0 {
        DivideInRange(TotalSum(rs, m), n);
      }
    }
  }

  lemma DivideInRange(s: real, n: real)
    requires n > 0.0 && 0.0 <= s <= 40.0 * n
    ensures 0.0 <= s / n <= 40.0
  {
    assert s / n * n == s;
  }

  lemma {:induction false} TotalSumInRange(rs: seq<BenchResult>, m: string)
    requires forall k :: 0 <= k < |rs| ==> 0.0 <= rs[k].scores.total <= 40.0
    ensures 0.0 <= TotalSum(rs, m) <= 40.0 * (Count(rs, m) as real)
  {
    if rs != [] {
      TotalSumInRange(rs[..|rs| - 1], m);
    }
  }

  const HashModulus: nat := 0x1_0000_0000

  /**
   * The UTF-16 code units of a string, which `length` counts and `charCodeAt` returns:
   * a character outside the Basic Multilingual Plane is a surrogate pair.
   */
  function Utf16(s: string): (units: seq<nat>)
    ensures forall k :: 0 <= k < |units| ==> units[k] < 0x1_0000
  {
    if s == [] then []
    else
      var c := s[|s| - 1] as int;
      Utf16(s[..|s| - 1]) + (if c < 0x1_0000 then [c] else [0xD800 + (c - 0x1_0000) / 0x400, 0xDC00 + (c - 0x1_0000) % 0x400])
  }

  /** `h = (h * 31 + code) >>> 0` over the code units, from `h = 0`: the unsigned 32-bit polynomial hash. */
  function Hash(units: seq<nat>): (h: nat)
    ensures h < HashModulus
  {
    if units == [] then 0 else (Hash(units[..|units| - 1]) * 31 + units[|units| - 1]) % HashModulus
  }

  /** The hue of a model's colour. */
  function Hue(model: string): (hue: nat)
    ensures hue < 360
  {
    Hash(Utf16(model)) % 360
  }

  /** A model's colour: `hsl(<hue> 85% 60%)`. */
  function Color(model: string): string {
    "hsl(" + NatToString(Hue(model)) + " 85% 60%)"
  }

  /** `colorForModel`: the hash loop, then the colour of the hue. */
  method ColorForModel(model: string) returns (color: string)
    ensures color == Color(model)
  {
    var units := Utf16(model);
    var h: nat := 0;
    var i := 0;
    while i < |units|
      invariant 0 <= i <= |units|
      invariant h == Hash(units[..i])
    {
      h := (h * 31 + units[i]) % HashModulus;
      assert units[..i + 1][..i] == units[..i];
      i := i + 1;
    }
    assert units[..|units|] == units;
    var hue := h % 360;
    color := "hsl(" + NatToString(hue) + " 85% 60%)";
  }

  /** The colour names the hue in at most three decimal digits, which read back as the hue, a number in 0..359. */
  lemma {:induction false} ColorNamesHue(model: string)
    ensures var digits := NatToString(Hue(model));
      && 1 <= |digits| <= 3
      && DecimalValue(digits) == Hue(model) < 360
  {
    var hue := Hue(model);
    DecimalRoundTrip(hue);
    DigitsOfSmall(hue);
  }

  lemma {:induction false} DigitsOfSmall(n: nat)
    requires n < 1000
    ensures |NatToString(n)| <= 3
  {
    if n >= 10 {
      DigitsOfSmall(n / 10);
      if n >= 100 {
        assert n / 10 >= 10;
      } else {
        assert n / 10 < 10;
      }
    }
  }
}
