/** `FoodRecommendationAgent` (whereeatai/agents/food_recommendation_agent.py). */
module FoodRecommendationAgent {
  import opened Values
  import opened BaseAgent
  import A2AProtocol

  const Name := "FoodRecommendationAgent"
  const Description := "用于推荐附近美食的Agent"
  const AgentId := "food_recommendation_agent"

  const Info := Init(Name, Description, Some(AgentId))

  const Required: seq<string> := ["location", "cuisine_type"]

  /** `get_capabilities`: one capability whose input schema lists the keys `execute` requires. */
  function Capabilities(): (caps: seq<A2AProtocol.Capability>)
    ensures |caps| == 1 && caps[0].name == "recommend_restaurants" && caps[0].estimatedDuration == 15
    ensures "required" in caps[0].inputSchema && caps[0].inputSchema["required"] == StrList(Required)
  {
    var text := Obj(map["type" := Str("string")]);
    [A2AProtocol.Capability(
      "recommend_restaurants",
      "根据位置、菜系和预算推荐附近餐厅",
      map["type" := Str("object"),
          "properties" := Obj(map["location" := text, "cuisine_type" := text, "budget" := text]),
          "required" := List([Str("location"), Str("cuisine_type")])],
      map["type" := Str("object"),
          "properties" := Obj(map["recommendations" := text])],
      15)]
  }

  /**
   * The TypeError the prompt raises joining `cuisine_type`, then
   * `dietary_restrictions` (default `[]`), when either is a list.
   */
  function PromptFault(input: Dict): Option<string>
    requires ValidateInput(input, Required)
  {
    FirstFault(ListJoinFault(input["cuisine_type"]),
               ListJoinFault(GetOr(input, "dietary_restrictions", List([]))))
  }

  /** The input passes validation and its prompt renders. */
  predicate Ready(input: Dict)
  {
    ValidateInput(input, Required) && PromptFault(input).None?
  }

  /** `execute` */
  function Execute(input: Dict, gen: Generator): (c: Call)
    ensures !ValidateInput(input, Required) ==> c == Reject(Required)
    ensures ValidateInput(input, Required) && PromptFault(input).Some? ==> c == Abort(PromptFault(input).value)
    ensures Ready(input) ==>
      |c.prompts| == 1 && c.prompts[0].agent == Info.name &&
      (gen(c.prompts[0]).Failed? ==> c.outcome == Raised(gen(c.prompts[0]).fault))
    // the prompt also sees budget (default "") and dietary_restrictions (default [])
    ensures Ready(input) ==>
      var fields := c.prompts[0].fields;
      fields.Keys == {"location", "cuisine_type", "budget", "dietary_restrictions"} &&
      fields["location"] == input["location"] && fields["cuisine_type"] == input["cuisine_type"] &&
      fields["budget"] == GetOr(input, "budget", Str("")) &&
      fields["dietary_restrictions"] == GetOr(input, "dietary_restrictions", List([]))
    ensures Ready(input) && gen(c.prompts[0]).Generated? ==>
      var data := DataOf(c);
      c.outcome == Returned(SuccessResult("美食推荐生成成功", data)) &&
      data.Keys == {"location", "cuisine_type", "recommendations"} &&
      data["location"] == input["location"] && data["cuisine_type"] == input["cuisine_type"] &&
      data["recommendations"] == Str(gen(c.prompts[0]).text)
  {
    if !ValidateInput(input, Required) then Reject(Required)
    else if PromptFault(input).Some? then Abort(PromptFault(input).value)
    else
      var fields := map[
        "location" := input["location"],
        "cuisine_type" := input["cuisine_type"],
        "budget" := GetOr(input, "budget", Str("")),
        "dietary_restrictions" := GetOr(input, "dietary_restrictions", List([]))];
      var data := map["location" := input["location"], "cuisine_type" := input["cuisine_type"]];
      Respond(Prompt(Info.name, fields), gen, "美食推荐生成成功", data, "recommendations")
  }
}
