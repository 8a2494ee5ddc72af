/** `TravelogueAgent` (whereeatai/agents/travelogue_agent.py). */
module TravelogueAgent {
  import opened Values
  import opened BaseAgent

  const Info := Init("TravelogueAgent", "用于生成智能游记的Agent", None)

  const Required: seq<string> := ["destination", "duration", "interests"]

  /** The TypeError the prompt's `', '.join(interests)` raises, if any. */
  function PromptFault(input: Dict): Option<string>
    requires ValidateInput(input, Required)
  {
    JoinFault(input["interests"])
  }

  /** The input passes validation and its prompt renders. */
  predicate Ready(input: Dict)
  {
    ValidateInput(input, Required) && PromptFault(input).None?
  }

  /** `execute` */
  function Execute(input: Dict, gen: Generator): (c: Call)
    // a missing required key is a recovered failure: no generate call, an error naming the list
    ensures !ValidateInput(input, Required) ==> c == Reject(Required)
    // a prompt that cannot be rendered raises before the model is called
    ensures ValidateInput(input, Required) && PromptFault(input).Some? ==> c == Abort(PromptFault(input).value)
    // otherwise exactly one generate call; its fault propagates
    ensures Ready(input) ==>
      |c.prompts| == 1 && c.prompts[0].agent == Info.name &&
      (gen(c.prompts[0]).Failed? ==> c.outcome == Raised(gen(c.prompts[0]).fault))
    // the prompt sees the three inputs and travel_style, which defaults to ""
    ensures Ready(input) ==>
      var fields := c.prompts[0].fields;
      fields.Keys == {"destination", "duration", "interests", "travel_style"} &&
      fields["destination"] == input["destination"] && fields["duration"] == input["duration"] &&
      fields["interests"] == input["interests"] &&
      fields["travel_style"] == GetOr(input, "travel_style", Str(""))
    // on success the data echoes those four values and holds the generated text
    ensures Ready(input) && gen(c.prompts[0]).Generated? ==>
      var data := DataOf(c);
      c.outcome == Returned(SuccessResult("游记生成成功", data)) &&
      data.Keys == {"destination", "duration", "interests", "travel_style", "travelogue"} &&
      data["destination"] == input["destination"] && data["duration"] == input["duration"] &&
      data["interests"] == input["interests"] &&
      data["travel_style"] == GetOr(input, "travel_style", Str("")) &&
      data["travelogue"] == Str(gen(c.prompts[0]).text)
  {
    if !ValidateInput(input, Required) then Reject(Required)
    else if PromptFault(input).Some? then Abort(PromptFault(input).value)
    else
      var fields := map[
        "destination" := input["destination"],
        "duration" := input["duration"],
        "interests" := input["interests"],
        "travel_style" := GetOr(input, "travel_style", Str(""))];
      Respond(Prompt(Info.name, fields), gen, "游记生成成功", fields, "travelogue")
  }
}
