/** `feedback.py`: the feedback engine's append-only log of answer ratings. */
module Feedback {
  import opened Wrappers

  /** One `{answer, rating, comments}` record; `comments` is `None` when omitted. */
  datatype FeedbackRecord = FeedbackRecord(answer: string, rating: int, comments: Option<string>)

  class FeedbackEngine {
    var feedback: seq<FeedbackRecord>

    /** A new engine has an empty log. */
    constructor ()
      ensures feedback == []
    {
      feedback := [];
    }

    /** `collect_feedback`: exactly one record is appended; earlier records are kept as they were. */
    method CollectFeedback(answer: string, rating: int, comments: Option<string>)
      modifies this
      ensures feedback == old(feedback) + [FeedbackRecord(answer, rating, comments)]
      ensures |feedback| == |old(feedback)| + 1 && feedback[..|old(feedback)|] == old(feedback)
    {
      feedback := feedback + [FeedbackRecord(answer, rating, comments)];
    }

    /** `collect_feedback` called without `comments`: the record carries `None`. */
    method CollectFeedbackUncommented(answer: string, rating: int)
      modifies this
      ensures feedback == old(feedback) + [FeedbackRecord(answer, rating, None)]
    {
      CollectFeedback(answer, rating, None);
    }

    /** `retrain_from_feedback`: a placeholder that leaves the log as it is. */
    method RetrainFromFeedback()
      ensures feedback == old(feedback)
    {
    }

    /** `evaluate`: a placeholder that reports no metrics. */
    method Evaluate() returns (metrics: map<string, int>)
      ensures metrics == map[]
      ensures feedback == old(feedback)
    {
      metrics := map[];
    }
  }
}
