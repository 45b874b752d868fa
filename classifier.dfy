/**
 * The outcome classifier: the `switch` that turns the drawn label into the
 * call's coarse status. A missing label (`undefined`) falls to the default.
 */
module Classifier {
  import opened Wrappers

  const Answered := "ANSWERED"
  const Congestion := "CONGESTION"
  const NoAnswer := "NOANSWER"

  /** Total: every label, known or not, and the missing label get a status. */
  function Classify(outcome: Option<string>): (status: string)
    ensures status == "success" <==> outcome == Some(Answered)
    ensures status == "success" || status == "error"
  {
    if outcome == Some(Answered) then "success"
    else if outcome == Some(Congestion) || outcome == Some(NoAnswer) then "error"
    else "error"
  }

  /** The named labels: only ANSWERED succeeds; CONGESTION, NOANSWER and a missing label fail. */
  lemma KnownLabels()
    ensures Classify(Some(Answered)) == "success"
    ensures Classify(Some(Congestion)) == "error" && Classify(Some(NoAnswer)) == "error"
    ensures Classify(None) == "error"
  {
  }
}
