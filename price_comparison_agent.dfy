/** `PriceComparisonAgent` (whereeatai/agents/price_comparison_agent.py). */
module PriceComparisonAgent {
  import opened Values
  import opened BaseAgent
  import A2AProtocol

  const Name := "PriceComparisonAgent"
  const Description := "用于多平台价格比价的Agent"
  const AgentId := "price_comparison_agent"

  const Info := Init(Name, Description, Some(AgentId))

  const Required: seq<string> := ["product", "platforms"]

  /** `get_capabilities`: one capability whose input schema lists the keys `execute` requires. */
  function Capabilities(): (caps: seq<A2AProtocol.Capability>)
    ensures |caps| == 1 && caps[0].name == "compare_prices" && caps[0].estimatedDuration == 12
    ensures "required" in caps[0].inputSchema && caps[0].inputSchema["required"] == StrList(Required)
  {
    [A2AProtocol.Capability(
      "compare_prices",
      "跨平台比较产品价格",
      map["type" := Str("object"),
          "properties" := Obj(map["product" := Obj(map["type" := Str("string")]),
                                  "platforms" := Obj(map["type" := Str("array")])]),
          "required" := List([Str("product"), Str("platforms")])],
      map["type" := Str("object")],
      12)]
  }

  /** The TypeError the prompt raises joining a list `platforms`, if any. */
  function PromptFault(input: Dict): Option<string>
    requires ValidateInput(input, Required)
  {
    ListJoinFault(input["platforms"])
  }

  /** The input passes validation and its prompt renders. */
  predicate Ready(input: Dict)
  {
    ValidateInput(input, Required) && PromptFault(input).None?
  }

  /** `execute` */
  function Execute(input: Dict, gen: Generator): (c: Call)
    ensures !ValidateInput(input, Required) ==> c == Reject(Required)
    ensures ValidateInput(input, Required) && PromptFault(input).Some? ==> c == Abort(PromptFault(input).value)
    ensures Ready(input) ==>
      |c.prompts| == 1 && c.prompts[0].agent == Info.name &&
      (gen(c.prompts[0]).Failed? ==> c.outcome == Raised(gen(c.prompts[0]).fault))
    // the prompt also sees location, defaulting to ""
    ensures Ready(input) ==>
      var fields := c.prompts[0].fields;
      fields.Keys == {"product", "platforms", "location"} &&
      fields["product"] == input["product"] && fields["platforms"] == input["platforms"] &&
      fields["location"] == GetOr(input, "location", Str(""))
    ensures Ready(input) && gen(c.prompts[0]).Generated? ==>
      var data := DataOf(c);
      c.outcome == Returned(SuccessResult("价格比价生成成功", data)) &&
      data.Keys == {"product", "platforms", "comparison_result"} &&
      data["product"] == input["product"] && data["platforms"] == input["platforms"] &&
      data["comparison_result"] == Str(gen(c.prompts[0]).text)
  {
    if !ValidateInput(input, Required) then Reject(Required)
    else if PromptFault(input).Some? then Abort(PromptFault(input).value)
    else
      var fields := map[
        "product" := input["product"],
        "platforms" := input["platforms"],
        "location" := GetOr(input, "location", Str(""))];
      var data := map["product" := input["product"], "platforms" := input["platforms"]];
      Respond(Prompt(Info.name, fields), gen, "价格比价生成成功", data, "comparison_result")
  }
}
