/** `ItineraryAgent` (whereeatai/agents/itinerary_agent.py). */
module ItineraryAgent {
  import opened Values
  import opened BaseAgent

  const Info := Init("ItineraryAgent", "用于生成动态行程的Agent", None)

  const Required: seq<string> := ["destination", "duration", "interests"]

  /** The TypeError the prompt's `', '.join(interests)` raises, if any. */
  function PromptFault(input: Dict): Option<string>
    requires ValidateInput(input, Required)
  {
    JoinFault(input["interests"])
  }

  /** The input passes validation and its prompt renders. */
  predicate Ready(input: Dict)
  {
    ValidateInput(input, Required) && PromptFault(input).None?
  }

  /** `execute` */
  function Execute(input: Dict, gen: Generator): (c: Call)
    ensures !ValidateInput(input, Required) ==> c == Reject(Required)
    ensures ValidateInput(input, Required) && PromptFault(input).Some? ==> c == Abort(PromptFault(input).value)
    ensures Ready(input) ==>
      |c.prompts| == 1 && c.prompts[0].agent == Info.name &&
      (gen(c.prompts[0]).Failed? ==> c.outcome == Raised(gen(c.prompts[0]).fault))
    // the prompt also sees budget, travel_dates and travel_style, each defaulting to ""
    ensures Ready(input) ==>
      var fields := c.prompts[0].fields;
      fields.Keys == {"destination", "duration", "interests", "budget", "travel_dates", "travel_style"} &&
      fields["destination"] == input["destination"] && fields["duration"] == input["duration"] &&
      fields["interests"] == input["interests"] &&
      fields["budget"] == GetOr(input, "budget", Str("")) &&
      fields["travel_dates"] == GetOr(input, "travel_dates", Str("")) &&
      fields["travel_style"] == GetOr(input, "travel_style", Str(""))
    // the data echoes only the three required values, plus the itinerary text
    ensures Ready(input) && gen(c.prompts[0]).Generated? ==>
      var data := DataOf(c);
      c.outcome == Returned(SuccessResult("行程规划生成成功", data)) &&
      data.Keys == {"destination", "duration", "interests", "itinerary"} &&
      data["destination"] == input["destination"] && data["duration"] == input["duration"] &&
      data["interests"] == input["interests"] &&
      data["itinerary"] == Str(gen(c.prompts[0]).text)
  {
    if !ValidateInput(input, Required) then Reject(Required)
    else if PromptFault(input).Some? then Abort(PromptFault(input).value)
    else
      var fields := map[
        "destination" := input["destination"],
        "duration" := input["duration"],
        "interests" := input["interests"],
        "budget" := GetOr(input, "budget", Str("")),
        "travel_dates" := GetOr(input, "travel_dates", Str("")),
        "travel_style" := GetOr(input, "travel_style", Str(""))];
      var data := map[
        "destination" := input["destination"],
        "duration" := input["duration"],
        "interests" := input["interests"]];
      Respond(Prompt(Info.name, fields), gen, "行程规划生成成功", data, "itinerary")
  }
}
