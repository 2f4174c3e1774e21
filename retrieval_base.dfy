/**
 * `RetrievalResult` of emvr/retrieval/base.py, shared by the retrievers. Metadata values
 * are kept as text; the `sources` list that the fusion retriever stores in the metadata is
 * kept apart from the other keys.
 */
module RetrievalBase {
  import opened Outcomes
  import opened Text

  datatype RetrievalResult = RetrievalResult(id: string, text: string, score: Option<real>,
                                             metadata: map<string, string>, sources: Option<seq<string>>)

  /** `score or 0.5`: a missing score and a score of 0.0 both count as 0.5. */
  function OrHalf(score: Option<real>): real
  {
    if score.None? || score.value == 0.0 then 0.5 else score.value
  }

  /** The sort key `x.score if x.score is not None else 0`. */
  function ScoreKey(r: RetrievalResult): real
  {
    r.score.GetOr(0.0)
  }

  /**
   * `set(s.lower().split())`: the lowercased whitespace-separated words of `s`, read in
   * one pass; `cur` is the word being read.
   */
  function Terms(s: string): set<string>
  {
    TermsFrom(s, [])
  }

  function TermsFrom(s: string, cur: string): set<string>
    decreases |s|
  {
    if s == [] then (if cur == [] then {} else {cur})
    else if IsSpace(s[0]) then (if cur == [] then {} else {cur}) + TermsFrom(s[1..], [])
    else TermsFrom(s[1..], cur + [LowerChar(s[0])])
  }
}
