/** The response record the feedback endpoint returns (RenovateFeedbackResponse). */
module Dto {

  /** One finding about the configuration; `severity` is free text in the record. */
  datatype Issue = Issue(severity: string, jsonPath: string, message: string, suggestion: string)

  /** The sole output value of the feedback pipeline. */
  datatype FeedbackResponse = FeedbackResponse(
    summary: string,
    issues: seq<Issue>,
    improvedRenovateJson: string)
}
