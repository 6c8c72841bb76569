/** The record shapes of lib/models.ts, shared by the benchmark, the run history and the pages. */
module Models {

  /** Four judge sub-scores and their total; numbers, so reals here. */
  datatype Scores = Scores(
    characterClarity: real,
    originality: real,
    sensoryDetail: real,
    toneConsistency: real,
    total: real)

  /** One candidate model's outcome in a benchmark. */
  datatype BenchResult = BenchResult(model: string, output: string, latencyMs: real, scores: Scores)

  /** One saved benchmark: when, what was asked, who judged, which models, and their results. */
  datatype BenchRun = BenchRun(
    ts: int,
    prompt: string,
    models: seq<string>,
    judgeModel: string,
    results: seq<BenchResult>)

  /** The ranking key of every sort in the application: `scores.total`. */
  function TotalOf(r: BenchResult): real {
    r.scores.total
  }

  function ModelOf(r: BenchResult): string {
    r.model
  }
}
