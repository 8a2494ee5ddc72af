/**
 * `AgentManager` (whereeatai/agents/agent_manager.py): the eight agents
 * under their registry names, lookup and dispatch by name, and the one
 * built-in workflow, which runs the travelogue and itinerary agents in turn
 * and merges their texts.
 */
module AgentManager {
  import opened Values
  import opened BaseAgent
  import TravelogueAgent
  import ItineraryAgent
  import FoodRecommendationAgent
  import PriceComparisonAgent
  import XiaoHongShuAgent
  import VideoAgent
  import TopicRecommendationAgent
  import TravelPlanAgent

  /** The registry keys, in construction order. */
  const AgentNames: seq<string> := ["travelogue", "itinerary", "food_recommendation", "price_comparison",
                                    "xiaohongshu", "video", "topic_recommendation", "travel_plan"]

  /** The agent stored under each key of `AgentNames`, at the same position. */
  const Agents: seq<AgentInfo> := [TravelogueAgent.Info, ItineraryAgent.Info, FoodRecommendationAgent.Info,
                                   PriceComparisonAgent.Info, XiaoHongShuAgent.Info, VideoAgent.Info,
                                   TopicRecommendationAgent.Info, TravelPlanAgent.Info]

  /** The first failure among the constructions, in order, or every constructed agent. */
  function ConstructAll(results: seq<Result<AgentInfo>>): (r: Result<seq<AgentInfo>>)
    ensures r.Ok? <==> forall i :: 0 <= i < |results| ==> results[i].Ok?
    ensures r.Ok? ==> |r.value| == |results| && forall i :: 0 <= i < |results| ==> r.value[i] == results[i].value
    // the error is that of the first constructor that fails
    ensures r.Err? ==>
      exists i :: 0 <= i < |results| && results[i].Err? && r.error == results[i].error &&
                  forall j :: 0 <= j < i ==> results[j].Ok?
  {
    if results == [] then Ok([])
    else if results[0].Err? then Err(results[0].error)
    else
      var rest := ConstructAll(results[1..]);
      if rest.Err? then Err(rest.error) else Ok([results[0].value] + rest.value)
  }

  /**
   * `AgentManager.__init__` as written: the agents are built in order and the
   * food agent, third, passes `agent_id` to a base constructor without it.
   */
  function ConstructAsWritten(): (r: Result<seq<AgentInfo>>)
    ensures r.Ok? <==> forall i :: 0 <= i < |ConstructionsAsWritten| ==> ConstructionsAsWritten[i].Ok?
    // the only way construction can fail is the unexpected keyword
    ensures r.Err? ==> r.error == UnexpectedAgentId
  {
    ConstructAll(ConstructionsAsWritten)
  }

  /** What each agent constructor yields as written, in `__init__`'s order. */
  const ConstructionsAsWritten: seq<Result<AgentInfo>> :=
                 [InitAsWritten(TravelogueAgent.Info.name, TravelogueAgent.Info.description, None),
                  InitAsWritten(ItineraryAgent.Info.name, ItineraryAgent.Info.description, None),
                  InitAsWritten(FoodRecommendationAgent.Name, FoodRecommendationAgent.Description, Some(FoodRecommendationAgent.AgentId)),
                  InitAsWritten(PriceComparisonAgent.Name, PriceComparisonAgent.Description, Some(PriceComparisonAgent.AgentId)),
                  InitAsWritten(XiaoHongShuAgent.Name, XiaoHongShuAgent.Description, Some(XiaoHongShuAgent.AgentId)),
                  InitAsWritten(VideoAgent.Name, VideoAgent.Description, Some(VideoAgent.AgentId)),
                  InitAsWritten(TopicRecommendationAgent.Info.name, TopicRecommendationAgent.Info.description, None),
                  InitAsWritten(TravelPlanAgent.Info.name, TravelPlanAgent.Info.description, None)]

  /** As written, constructing the manager raises the TypeError, so no agent can be reached through it. */
  lemma ConstructionFailsAsWritten()
    ensures ConstructAsWritten() == Err(UnexpectedAgentId)
  {
    var cs := ConstructionsAsWritten;
    assert cs[0].Ok? && cs[1].Ok? && cs[2] == Err(UnexpectedAgentId);
    assert cs[1..][1..] == cs[2..];
    assert ConstructAll(cs[2..]) == Err(UnexpectedAgentId);
    assert ConstructAll(cs[1..]) == Err(UnexpectedAgentId);
  }

  /** With the base constructor accepting `agent_id`, all eight agents are built, with the names they declare. */
  lemma ConstructionSucceeds()
    ensures |Agents| == |AgentNames| == 8
    ensures forall i :: 0 <= i < |Agents| ==> GetInfo(Agents[i]) == map["name" := Str(Agents[i].name), "description" := Str(Agents[i].description)]
    ensures Agents[2].agentId == Some("food_recommendation_agent") && Agents[3].agentId == Some("price_comparison_agent")
    ensures Agents[4].agentId == Some("xiaohongshu_agent") && Agents[5].agentId == Some("video_agent")
  {
  }

  /** `get_agent`: the agent stored under the key, if any. */
  function GetAgent(name: string): (r: Option<AgentInfo>)
    ensures r.Some? <==> name in AgentNames
    ensures forall i :: 0 <= i < |AgentNames| && AgentNames[i] == name ==> r == Some(Agents[i])
  {
    if name == "travelogue" then Some(TravelogueAgent.Info)
    else if name == "itinerary" then Some(ItineraryAgent.Info)
    else if name == "food_recommendation" then Some(FoodRecommendationAgent.Info)
    else if name == "price_comparison" then Some(PriceComparisonAgent.Info)
    else if name == "xiaohongshu" then Some(XiaoHongShuAgent.Info)
    else if name == "video" then Some(VideoAgent.Info)
    else if name == "topic_recommendation" then Some(TopicRecommendationAgent.Info)
    else if name == "travel_plan" then Some(TravelPlanAgent.Info)
    else None
  }

  /** The registry keys are pairwise different. */
  lemma NamesDistinct()
    ensures forall i, j :: 0 <= i < j < |AgentNames| ==> AgentNames[i] != AgentNames[j]
  {
  }

  /** `get_all_agents`: each registry key mapped to its agent's `get_info`. */
  method GetAllAgents() returns (info: Dict)
    ensures forall n :: n in info <==> n in AgentNames
    ensures forall i :: 0 <= i < |AgentNames| ==> info[AgentNames[i]] == Obj(GetInfo(Agents[i]))
  {
    NamesDistinct();
    info := InfoTable(AgentNames, Agents);
  }

  /** The loop of `get_all_agents` over a registry given as keys and agents at matching positions. */
  method InfoTable(names: seq<string>, agents: seq<AgentInfo>) returns (info: Dict)
    requires |names| == |agents|
    requires forall i, j :: 0 <= i < j < |names| ==> names[i] != names[j]
    ensures forall n :: n in info <==> n in names
    ensures forall i :: 0 <= i < |names| ==> info[names[i]] == Obj(GetInfo(agents[i]))
  {
    info := map[];
    var i := 0;
    while i < |names|
      invariant 0 <= i <= |names|
      invariant forall n :: n in info <==> n in names[..i]
      invariant forall k :: 0 <= k < i ==> info[names[k]] == Obj(GetInfo(agents[k]))
    {
      info := info[names[i] := Obj(GetInfo(agents[i]))];
      assert names[..i + 1] == names[..i] + [names[i]];
      i := i + 1;
    }
    assert names[..|names|] == names;
  }

  function NotFound(name: string): Dict
  {
    ErrorResult("Agent " + name + " not found")
  }

  /** `execute_agent`: the agent under the key runs, and its fault propagates; an unknown key is an error result. */
  function ExecuteAgent(name: string, input: Dict, gen: Generator): (c: Call)
    ensures name !in AgentNames ==> c == Call([], Returned(NotFound(name)))
    ensures name == "travelogue" ==> c == TravelogueAgent.Execute(input, gen)
    ensures name == "itinerary" ==> c == ItineraryAgent.Execute(input, gen)
    ensures name == "food_recommendation" ==> c == FoodRecommendationAgent.Execute(input, gen)
    ensures name == "price_comparison" ==> c == PriceComparisonAgent.Execute(input, gen)
    ensures name == "xiaohongshu" ==> c == XiaoHongShuAgent.Execute(input, gen)
    ensures name == "video" ==> c == VideoAgent.Execute(input, gen)
    ensures name == "topic_recommendation" ==> c == TopicRecommendationAgent.Execute(input, gen)
    ensures name == "travel_plan" ==> c == TravelPlanAgent.Execute(input, gen)
  {
    if name == "travelogue" then TravelogueAgent.Execute(input, gen)
    else if name == "itinerary" then ItineraryAgent.Execute(input, gen)
    else if name == "food_recommendation" then FoodRecommendationAgent.Execute(input, gen)
    else if name == "price_comparison" then PriceComparisonAgent.Execute(input, gen)
    else if name == "xiaohongshu" then XiaoHongShuAgent.Execute(input, gen)
    else if name == "video" then VideoAgent.Execute(input, gen)
    else if name == "topic_recommendation" then TopicRecommendationAgent.Execute(input, gen)
    else if name == "travel_plan" then TravelPlanAgent.Execute(input, gen)
    else Call([], Returned(NotFound(name)))
  }

  /** `d[k1][k2]`, raising as Python does when a level is missing. */
  function Path(d: Dict, k1: string, k2: string): (r: Result<Value>)
    ensures r.Ok? <==> k1 in d && d[k1].Obj? && k2 in d[k1].fields
    ensures r.Ok? ==> r.value == d[k1].fields[k2]
    ensures k1 !in d ==> r == Err(Quote(k1))
  {
    var v := Subscript(Obj(d), k1);
    if v.Err? then v else Subscript(v.value, k2)
  }

  const PlanFailed := "旅行计划生成失败: "

  /**
   * The merge step of `_execute_travel_plan_workflow`: the dictionary literal
   * reads its five values in order and the first missing one raises.
   */
  function MergePlan(travelogue: Dict, itinerary: Dict, input: Dict): (r: Dict)
    ensures "status" in r
    ensures r["status"] == Str("success") <==>
      Path(travelogue, "data", "travelogue").Ok? && Path(itinerary, "data", "itinerary").Ok? &&
      "destination" in input && "duration" in input && "interests" in input
    ensures r["status"] == Str("success") ==>
      r == SuccessResult("旅行计划生成成功", map[
        "travelogue" := travelogue["data"].fields["travelogue"],
        "itinerary" := itinerary["data"].fields["itinerary"],
        "destination" := input["destination"],
        "duration" := input["duration"],
        "interests" := input["interests"]])
    ensures "data" !in travelogue ==> r == ErrorResult(PlanFailed + Quote("data"))
  {
    var t := Path(travelogue, "data", "travelogue");
    var i := Path(itinerary, "data", "itinerary");
    if t.Err? then ErrorResult(PlanFailed + t.error)
    else if i.Err? then ErrorResult(PlanFailed + i.error)
    else if "destination" !in input then ErrorResult(PlanFailed + Quote("destination"))
    else if "duration" !in input then ErrorResult(PlanFailed + Quote("duration"))
    else if "interests" !in input then ErrorResult(PlanFailed + Quote("interests"))
    else SuccessResult("旅行计划生成成功", map[
      "travelogue" := t.value, "itinerary" := i.value,
      "destination" := input["destination"], "duration" := input["duration"], "interests" := input["interests"]])
  }

  /**
   * `_execute_travel_plan_workflow`: the travelogue agent, then the
   * itinerary agent, then the merge; any exception becomes an error result.
   */
  function TravelPlanWorkflow(input: Dict, gen: Generator): (c: Call)
    ensures c.outcome.Returned? && "status" in c.outcome.result
    // a fault of the travelogue agent ends the workflow before the itinerary agent runs
    ensures TravelogueAgent.Execute(input, gen).outcome.Raised? ==>
      c.prompts == TravelogueAgent.Execute(input, gen).prompts &&
      c.outcome.result == ErrorResult(PlanFailed + TravelogueAgent.Execute(input, gen).outcome.fault)
    ensures TravelogueAgent.Execute(input, gen).outcome.Returned? ==>
      c.prompts == TravelogueAgent.Execute(input, gen).prompts + ItineraryAgent.Execute(input, gen).prompts
    // success exactly when both agents produced their texts
    ensures c.outcome.result["status"] == Str("success") <==>
      TravelogueAgent.Ready(input) && gen(TravelogueAgent.Execute(input, gen).prompts[0]).Generated? &&
      gen(ItineraryAgent.Execute(input, gen).prompts[0]).Generated?
    // a missing required field makes both agents return errors without data, so the merge fails on 'data'
    ensures !ValidateInput(input, TravelogueAgent.Required) ==>
      c.prompts == [] && c.outcome.result == ErrorResult(PlanFailed + Quote("data"))
  {
    var tc := TravelogueAgent.Execute(input, gen);
    if tc.outcome.Raised? then Call(tc.prompts, Returned(ErrorResult(PlanFailed + tc.outcome.fault)))
    else
      var ic := ItineraryAgent.Execute(input, gen);
      if ic.outcome.Raised? then Call(tc.prompts + ic.prompts, Returned(ErrorResult(PlanFailed + ic.outcome.fault)))
      else Call(tc.prompts + ic.prompts, Returned(MergePlan(tc.outcome.result, ic.outcome.result, input)))
  }

  /** `execute_workflow`: only "travel_plan" is known. */
  function ExecuteWorkflow(name: string, input: Dict, gen: Generator): (c: Call)
    ensures name == "travel_plan" ==> c == TravelPlanWorkflow(input, gen)
    ensures name != "travel_plan" ==> c == Call([], Returned(ErrorResult("Workflow " + name + " not found")))
  {
    if name == "travel_plan" then TravelPlanWorkflow(input, gen)
    else Call([], Returned(ErrorResult("Workflow " + name + " not found")))
  }
}
