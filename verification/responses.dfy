/** One record of the search endpoint's JSON answer, reduced to the fields the profiler reads. */
module Responses {
  import opened Wrappers

  /** `title` is read with `[]`; `score` and `matched` with `.get`, so they may be missing. */
  datatype Hit = Hit(title: string, score: Option<real>, matched: Option<string>)

  /** `result.get("score", 0)`. */
  function ScoreOrZero(h: Hit): real {
    h.score.GetOr(0.0)
  }
}
