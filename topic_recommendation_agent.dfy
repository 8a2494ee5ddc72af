/** `TopicRecommendationAgent` (whereeatai/agents/topic_recommendation_agent.py). */
module TopicRecommendationAgent {
  import opened Values
  import opened BaseAgent

  const Info := Init("TopicRecommendationAgent", "用于生成专题推荐的Agent", None)

  const Required: seq<string> := ["topic", "interests"]

  /** The TypeError the prompt raises joining a list `interests`, if any; other values are shown as they are. */
  function PromptFault(input: Dict): Option<string>
    requires ValidateInput(input, Required)
  {
    ListJoinFault(input["interests"])
  }

  /** The input passes validation and its prompt renders. */
  predicate Ready(input: Dict)
  {
    ValidateInput(input, Required) && PromptFault(input).None?
  }

  /** `execute` */
  function Execute(input: Dict, gen: Generator): (c: Call)
    ensures !ValidateInput(input, Required) ==> c == Reject(Required)
    ensures ValidateInput(input, Required) && PromptFault(input).Some? ==> c == Abort(PromptFault(input).value)
    ensures Ready(input) ==>
      |c.prompts| == 1 && c.prompts[0].agent == Info.name &&
      (gen(c.prompts[0]).Failed? ==> c.outcome == Raised(gen(c.prompts[0]).fault))
    // the prompt also sees target_audience, budget and season, each defaulting to ""
    ensures Ready(input) ==>
      var fields := c.prompts[0].fields;
      fields.Keys == {"topic", "interests", "target_audience", "budget", "season"} &&
      fields["topic"] == input["topic"] && fields["interests"] == input["interests"] &&
      fields["target_audience"] == GetOr(input, "target_audience", Str("")) &&
      fields["budget"] == GetOr(input, "budget", Str("")) &&
      fields["season"] == GetOr(input, "season", Str(""))
    // the data echoes the topic only, plus the generated text
    ensures Ready(input) && gen(c.prompts[0]).Generated? ==>
      var data := DataOf(c);
      c.outcome == Returned(SuccessResult("专题推荐生成成功", data)) &&
      data.Keys == {"topic", "recommendation_result"} &&
      data["topic"] == input["topic"] &&
      data["recommendation_result"] == Str(gen(c.prompts[0]).text)
  {
    if !ValidateInput(input, Required) then Reject(Required)
    else if PromptFault(input).Some? then Abort(PromptFault(input).value)
    else
      var fields := map[
        "topic" := input["topic"],
        "interests" := input["interests"],
        "target_audience" := GetOr(input, "target_audience", Str("")),
        "budget" := GetOr(input, "budget", Str("")),
        "season" := GetOr(input, "season", Str(""))];
      Respond(Prompt(Info.name, fields), gen, "专题推荐生成成功", map["topic" := input["topic"]], "recommendation_result")
  }
}
