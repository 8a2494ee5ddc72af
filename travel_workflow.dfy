/**
 * The two agent workflows (whereeatai/graphs/travel_workflow.py).
 *
 * `TravelWorkflow` validates the input, runs the travelogue and itinerary
 * agents, then the food agent on an input derived from the request, then
 * the price agent on a fixed package query, and assembles a final plan.
 * `ContentAnalysisWorkflow` runs the note and video agents when their
 * inputs are present and collects what they found. Each stage updates the
 * shared workflow state in place and turns an agent's exception into an
 * error entry, so a run never fails as a whole.
 *
 * The graph runs its stages one after another here, in the order the edges
 * allow (analysis, travelogue, itinerary, food, price, final plan).
 */
module TravelWorkflow {
  import opened Values
  import opened Seqs
  import opened BaseAgent
  import AgentManager
  import TravelogueAgent
  import ItineraryAgent
  import FoodRecommendationAgent
  import PriceComparisonAgent
  import XiaoHongShuAgent
  import VideoAgent

  /** The fields the input analysis checks for. */
  const Required: seq<string> := ["destination", "duration", "interests"]

  const TravelogueFailed := "游记生成失败: "
  const ItineraryFailed := "行程规划失败: "
  const FoodFailed := "美食推荐失败: "
  const PriceFailed := "价格比价失败: "

  /** The platforms every price comparison asks about. */
  const Platforms: seq<string> := ["携程", "美团", "飞猪", "去哪儿"]

  predicate Absent(f: string, d: Dict)
  {
    f !in d
  }

  /** Every required field absent from `input` is listed in `m`. */
  ghost predicate ListsEveryAbsent(m: seq<string>, input: Dict)
  {
    forall i :: 0 <= i < |Required| && Required[i] !in input ==> Required[i] in m
  }

  /** The required fields missing from the input, in the order they are required. */
  function MissingFields(input: Dict): (m: seq<string>)
    ensures m == [] <==> ValidateInput(input, Required)
    ensures forall i :: 0 <= i < |m| ==> m[i] in Required && m[i] !in input
  {
    FilterMembers(Required, Absent, input);
    Filter(Required, Absent, input)
  }

  /** Every missing required field is listed, in the order the fields are required. */
  lemma MissingFieldsComplete(input: Dict)
    ensures ListsEveryAbsent(MissingFields(input), input)
    ensures InOrderOf(MissingFields(input), Required)
  {
    FilterMembers(Required, Absent, input);
    FilterOrder(Required, Absent, input);
  }

  /** The error `_analyze_input` records: one message naming the missing fields, or none. */
  function AnalyzeErrors(input: Dict): (errs: seq<string>)
    ensures errs == [] <==> ValidateInput(input, Required)
    ensures errs != [] ==> errs == ["缺少必要字段: " + Join(", ", MissingFields(input))]
  {
    var m := MissingFields(input);
    if m == [] then [] else ["缺少必要字段: " + Join(", ", m)]
  }

  /** What a stage leaves behind: its result slot and the errors it adds. */
  datatype StageOutcome = StageOutcome(slot: Dict, errors: seq<string>)

  /**
   * A stage's `try`/`except` around one agent call: the returned dictionary
   * fills the slot; an exception fills it with an error dictionary holding
   * `str(e)` and adds the prefixed message to the errors.
   */
  function Attempt(c: Call, prefix: string): (o: StageOutcome)
    ensures o.errors == [] <==> c.outcome.Returned?
    ensures c.outcome.Returned? ==> o.slot == c.outcome.result
    // a fault adds one prefixed error and leaves no "data" for the plan section
    ensures c.outcome.Raised? ==>
      o.errors == [prefix + c.outcome.fault] && "data" !in o.slot
  {
    if c.outcome.Raised? then
      StageOutcome(map["status" := Str("error"), "message" := Str(c.outcome.fault)], [prefix + c.outcome.fault])
    else StageOutcome(c.outcome.result, [])
  }

  /** `slot.get("data", {})` */
  function Section(slot: Dict): Value
  {
    GetOr(slot, "data", Obj(map[]))
  }

  /**
   * The food agent's input: a copy of the request with `location` taken from
   * the destination (default "") and `cuisine_type` from the interests
   * (default ["中餐"]).
   */
  function FoodInput(input: Dict): Dict
  {
    input["location" := GetOr(input, "destination", Str(""))]["cuisine_type" := GetOr(input, "interests", StrList(["中餐"]))]
  }

  /** The food agent's input keeps the request and always has the food agent's required keys. */
  lemma FoodInputFacts(input: Dict)
    ensures ValidateInput(FoodInput(input), FoodRecommendationAgent.Required)
    ensures FoodInput(input).Keys == input.Keys + {"location", "cuisine_type"}
    ensures FoodInput(input)["location"] == GetOr(input, "destination", Str(""))
    ensures FoodInput(input)["cuisine_type"] == GetOr(input, "interests", StrList(["中餐"]))
    ensures forall k :: k in input && k != "location" && k != "cuisine_type" ==> FoodInput(input)[k] == input[k]
  {
  }

  /** The price agent's input: a package named after the destination, the fixed platforms, the destination as location. */
  function PriceInput(input: Dict): Dict
  {
    map["product" := Str(PyStr(GetOr(input, "destination", Str(""))) + "旅游套餐"),
        "platforms" := StrList(Platforms),
        "location" := GetOr(input, "destination", Str(""))]
  }

  /** The price agent's input always passes its validation and renders its prompt. */
  lemma PriceInputFacts(input: Dict)
    ensures PriceComparisonAgent.Ready(PriceInput(input))
    ensures PriceInput(input).Keys == {"product", "platforms", "location"}
    ensures PriceInput(input)["product"] == Str(PyStr(GetOr(input, "destination", Str(""))) + "旅游套餐")
    ensures PriceInput(input)["platforms"] == StrList(Platforms)
    ensures PriceInput(input)["location"] == GetOr(input, "destination", Str(""))
  {
  }

  /**
   * The agent manager a workflow is constructed with, seen through its
   * `execute_agent`: a registry name and an input give the agent call.
   */
  type Executor = (string, Dict) -> Call

  /** The manager of this model: `AgentManager.ExecuteAgent` with a text generator. */
  function Manager(gen: Generator): Executor
  {
    (name: string, input: Dict) => AgentManager.ExecuteAgent(name, input, gen)
  }

  /** The travelogue stage's call: the travelogue agent on the request. */
  function TravelogueCall(input: Dict, ex: Executor): Call
  {
    ex("travelogue", input)
  }

  /** The itinerary stage's call: the itinerary agent on the request. */
  function ItineraryCall(input: Dict, ex: Executor): Call
  {
    ex("itinerary", input)
  }

  /** The food stage's call: the food agent on the derived input. */
  function FoodCall(input: Dict, ex: Executor): Call
  {
    ex("food_recommendation", FoodInput(input))
  }

  /** The price stage's call: the price agent on the package query. */
  function PriceCall(input: Dict, ex: Executor): Call
  {
    ex("price_comparison", PriceInput(input))
  }

  /** On this request, the manager's four stage calls are the four travel agents' `execute`. */
  predicate RunsAgents(ex: Executor, gen: Generator, input: Dict)
  {
    TravelogueCall(input, ex) == TravelogueAgent.Execute(input, gen) &&
    ItineraryCall(input, ex) == ItineraryAgent.Execute(input, gen) &&
    FoodCall(input, ex) == FoodRecommendationAgent.Execute(FoodInput(input), gen) &&
    PriceCall(input, ex) == PriceComparisonAgent.Execute(PriceInput(input), gen)
  }

  /** The model's agent manager runs the workflow's agents, on every request. */
  lemma ManagerRunsAgents(gen: Generator, input: Dict)
    ensures RunsAgents(Manager(gen), gen, input)
    ensures Manager(gen)("xiaohongshu", input) == XiaoHongShuAgent.Execute(input, gen)
    ensures Manager(gen)("video", input) == VideoAgent.Execute(input, gen)
  {
    var m := Manager(gen);
    assert TravelogueCall(input, m) == AgentManager.ExecuteAgent("travelogue", input, gen);
    assert ItineraryCall(input, m) == AgentManager.ExecuteAgent("itinerary", input, gen);
    assert FoodCall(input, m) == AgentManager.ExecuteAgent("food_recommendation", FoodInput(input), gen);
    assert PriceCall(input, m) == AgentManager.ExecuteAgent("price_comparison", PriceInput(input), gen);
    assert m("xiaohongshu", input) == AgentManager.ExecuteAgent("xiaohongshu", input, gen);
    assert m("video", input) == AgentManager.ExecuteAgent("video", input, gen);
  }

  /** The errors a run collects, stage by stage. */
  function Errors(input: Dict, ex: Executor): seq<string>
  {
    AnalyzeErrors(input)
    + Attempt(TravelogueCall(input, ex), TravelogueFailed).errors
    + Attempt(ItineraryCall(input, ex), ItineraryFailed).errors
    + Attempt(FoodCall(input, ex), FoodFailed).errors
    + Attempt(PriceCall(input, ex), PriceFailed).errors
  }

  /** `_generate_final_plan`'s dictionary, from the input, the four slots and the errors. */
  function FinalPlan(input: Dict, travelogue: Dict, itinerary: Dict, food: Dict, price: Dict, errors: seq<string>): (plan: Dict)
    ensures plan.Keys == {"destination", "duration", "interests", "travelogue", "itinerary",
                          "food_recommendations", "price_comparison", "errors"}
    ensures plan["errors"] == StrList(errors)
  {
    map["destination" := GetOr(input, "destination", Str("")),
        "duration" := GetOr(input, "duration", Str("")),
        "interests" := GetOr(input, "interests", List([])),
        "travelogue" := Section(travelogue),
        "itinerary" := Section(itinerary),
        "food_recommendations" := Section(food),
        "price_comparison" := Section(price),
        "errors" := StrList(errors)]
  }

  /** The final plan of a run. */
  function Plan(input: Dict, ex: Executor): Dict
  {
    FinalPlan(input,
              Attempt(TravelogueCall(input, ex), TravelogueFailed).slot,
              Attempt(ItineraryCall(input, ex), ItineraryFailed).slot,
              Attempt(FoodCall(input, ex), FoodFailed).slot,
              Attempt(PriceCall(input, ex), PriceFailed).slot,
              Errors(input, ex))
  }

  /** `run`'s answer for a final state: partial success as soon as any error was recorded. */
  function Answer(plan: Dict, errors: seq<string>): (a: Dict)
    ensures "status" in a && "data" in a && a["data"] == Obj(plan)
    ensures a["status"] == Str("success") <==> errors == []
    ensures errors == [] ==> a.Keys == {"status", "message", "data"}
    ensures errors != [] ==>
      a.Keys == {"status", "message", "data", "errors"} &&
      a["status"] == Str("partial_success") && a["errors"] == StrList(errors)
  {
    if errors != [] then
      map["status" := Str("partial_success"), "message" := Str("部分功能执行失败"),
          "data" := Obj(plan), "errors" := StrList(errors)]
    else map["status" := Str("success"), "message" := Str("旅行计划生成成功"), "data" := Obj(plan)]
  }

  /** What `TravelWorkflow.run` returns for an input. */
  function RunResult(input: Dict, ex: Executor): (r: Dict)
    ensures "status" in r && "data" in r && r["data"] == Obj(Plan(input, ex))
    ensures r["status"] == Str("success") <==> Errors(input, ex) == []
  {
    Answer(Plan(input, ex), Errors(input, ex))
  }

  /** The generate calls of a run, in order. */
  function RunPrompts(input: Dict, ex: Executor): seq<Prompt>
  {
    TravelogueCall(input, ex).prompts + ItineraryCall(input, ex).prompts
    + FoodCall(input, ex).prompts + PriceCall(input, ex).prompts
  }

  /** The mutable `TravelWorkflowState` the stages share. */
  class WorkflowState {
    var inputData: Dict
    var travelogueResult: Dict
    var itineraryResult: Dict
    var foodResult: Dict
    var priceResult: Dict
    var xiaohongshuResult: Dict
    var videoResult: Dict
    var topicResult: Dict
    var finalPlan: Dict
    var errors: seq<string>
    /** The generate calls made so far, in order. */
    ghost var prompts: seq<Prompt>

    /** The initial state `run` builds: every slot empty, no errors. */
    constructor (input: Dict)
      ensures inputData == input && errors == [] && prompts == []
      ensures travelogueResult == map[] && itineraryResult == map[] && foodResult == map[] && priceResult == map[]
      ensures xiaohongshuResult == map[] && videoResult == map[] && topicResult == map[] && finalPlan == map[]
    {
      inputData := input;
      travelogueResult := map[];
      itineraryResult := map[];
      foodResult := map[];
      priceResult := map[];
      xiaohongshuResult := map[];
      videoResult := map[];
      topicResult := map[];
      finalPlan := map[];
      errors := [];
      prompts := [];
    }
  }

  /** `TravelWorkflow`, with the agent manager it is constructed with. */
  class TravelWorkflow {
    const execute: Executor

    constructor (agentManager: Executor)
      ensures execute == agentManager
    {
      execute := agentManager;
    }

    /** `_analyze_input`: records one error naming the missing required fields. */
    method AnalyzeInput(state: WorkflowState)
      modifies state`errors
      ensures state.errors == old(state.errors) + AnalyzeErrors(state.inputData)
    {
      var missing := MissingFields(state.inputData);
      if missing != [] {
        state.errors := state.errors + ["缺少必要字段: " + Join(", ", missing)];
      }
    }

    /** `_generate_travelogue` */
    method GenerateTravelogue(state: WorkflowState)
      modifies state`travelogueResult, state`errors, state`prompts
      ensures state.travelogueResult == Attempt(TravelogueCall(state.inputData, execute), TravelogueFailed).slot
      ensures state.errors == old(state.errors) + Attempt(TravelogueCall(state.inputData, execute), TravelogueFailed).errors
      ensures state.prompts == old(state.prompts) + TravelogueCall(state.inputData, execute).prompts
    {
      var c := execute("travelogue", state.inputData);
      state.prompts := state.prompts + c.prompts;
      if c.outcome.Raised? {
        state.errors := state.errors + [TravelogueFailed + c.outcome.fault];
        state.travelogueResult := map["status" := Str("error"), "message" := Str(c.outcome.fault)];
      } else {
        state.travelogueResult := c.outcome.result;
      }
    }

    /** `_plan_itinerary` */
    method PlanItinerary(state: WorkflowState)
      modifies state`itineraryResult, state`errors, state`prompts
      ensures state.itineraryResult == Attempt(ItineraryCall(state.inputData, execute), ItineraryFailed).slot
      ensures state.errors == old(state.errors) + Attempt(ItineraryCall(state.inputData, execute), ItineraryFailed).errors
      ensures state.prompts == old(state.prompts) + ItineraryCall(state.inputData, execute).prompts
    {
      var c := execute("itinerary", state.inputData);
      state.prompts := state.prompts + c.prompts;
      if c.outcome.Raised? {
        state.errors := state.errors + [ItineraryFailed + c.outcome.fault];
        state.itineraryResult := map["status" := Str("error"), "message" := Str(c.outcome.fault)];
      } else {
        state.itineraryResult := c.outcome.result;
      }
    }

    /** `_recommend_food`: the food agent on the derived input. */
    method RecommendFood(state: WorkflowState)
      modifies state`foodResult, state`errors, state`prompts
      ensures state.foodResult == Attempt(FoodCall(state.inputData, execute), FoodFailed).slot
      ensures state.errors == old(state.errors) + Attempt(FoodCall(state.inputData, execute), FoodFailed).errors
      ensures state.prompts == old(state.prompts) + FoodCall(state.inputData, execute).prompts
    {
      var foodInput := state.inputData;
      foodInput := foodInput["location" := GetOr(foodInput, "destination", Str(""))];
      foodInput := foodInput["cuisine_type" := GetOr(foodInput, "interests", StrList(["中餐"]))];
      var c := execute("food_recommendation", foodInput);
      state.prompts := state.prompts + c.prompts;
      if c.outcome.Raised? {
        state.errors := state.errors + [FoodFailed + c.outcome.fault];
        state.foodResult := map["status" := Str("error"), "message" := Str(c.outcome.fault)];
      } else {
        state.foodResult := c.outcome.result;
      }
    }

    /** `_compare_prices`: the price agent on the package query. */
    method ComparePrices(state: WorkflowState)
      modifies state`priceResult, state`errors, state`prompts
      ensures state.priceResult == Attempt(PriceCall(state.inputData, execute), PriceFailed).slot
      ensures state.errors == old(state.errors) + Attempt(PriceCall(state.inputData, execute), PriceFailed).errors
      ensures state.prompts == old(state.prompts) + PriceCall(state.inputData, execute).prompts
    {
      var destination := GetOr(state.inputData, "destination", Str(""));
      var priceInput := map["product" := Str(PyStr(destination) + "旅游套餐"),
                            "platforms" := StrList(Platforms),
                            "location" := destination];
      var c := execute("price_comparison", priceInput);
      state.prompts := state.prompts + c.prompts;
      if c.outcome.Raised? {
        state.errors := state.errors + [PriceFailed + c.outcome.fault];
        state.priceResult := map["status" := Str("error"), "message" := Str(c.outcome.fault)];
      } else {
        state.priceResult := c.outcome.result;
      }
    }

    /** `_generate_final_plan` */
    method GenerateFinalPlan(state: WorkflowState)
      modifies state`finalPlan
      ensures state.finalPlan == FinalPlan(state.inputData, state.travelogueResult, state.itineraryResult,
                                           state.foodResult, state.priceResult, state.errors)
    {
      state.finalPlan := FinalPlan(state.inputData, state.travelogueResult, state.itineraryResult,
                                   state.foodResult, state.priceResult, state.errors);
    }

    /** The graph's stages before the final plan, in edge order, on a state with no errors yet. */
    method RunStages(state: WorkflowState)
      requires state.errors == [] && state.prompts == []
      modifies state`travelogueResult, state`itineraryResult, state`foodResult, state`priceResult
      modifies state`errors, state`prompts
      ensures state.errors == Errors(state.inputData, execute)
      ensures state.prompts == RunPrompts(state.inputData, execute)
      ensures state.travelogueResult == Attempt(TravelogueCall(state.inputData, execute), TravelogueFailed).slot
      ensures state.itineraryResult == Attempt(ItineraryCall(state.inputData, execute), ItineraryFailed).slot
      ensures state.foodResult == Attempt(FoodCall(state.inputData, execute), FoodFailed).slot
      ensures state.priceResult == Attempt(PriceCall(state.inputData, execute), PriceFailed).slot
    {
      ghost var input := state.inputData;
      AnalyzeInput(state);
      assert state.errors == AnalyzeErrors(input);
      GenerateTravelogue(state);
      assert state.prompts == TravelogueCall(input, execute).prompts;
      PlanItinerary(state);
      RecommendFood(state);
      ComparePrices(state);
    }

    /** `run`: the stages in order on a fresh state, then the answer built from the final state. */
    method Run(input: Dict) returns (r: Dict, ghost prompts: seq<Prompt>)
      ensures r == RunResult(input, execute)
      ensures prompts == RunPrompts(input, execute)
    {
      var state := new WorkflowState(input);
      RunStages(state);
      GenerateFinalPlan(state);
      r := Answer(state.finalPlan, state.errors);
      prompts := state.prompts;
    }
  }

  /** A run succeeds exactly when the input has every required field and no agent raised. */
  lemma SuccessIff(input: Dict, ex: Executor)
    ensures "status" in RunResult(input, ex)
    ensures RunResult(input, ex)["status"] == Str("success") <==>
      ValidateInput(input, Required) &&
      TravelogueCall(input, ex).outcome.Returned? && ItineraryCall(input, ex).outcome.Returned? &&
      FoodCall(input, ex).outcome.Returned? && PriceCall(input, ex).outcome.Returned?
    ensures RunResult(input, ex)["status"] != Str("success") ==>
      RunResult(input, ex)["status"] == Str("partial_success") &&
      RunResult(input, ex)["errors"] == StrList(Errors(input, ex))
  {
    ErrorsEmpty(input, ex);
  }

  /** No error is recorded exactly when the input is complete and no agent raised. */
  lemma ErrorsEmpty(input: Dict, ex: Executor)
    ensures Errors(input, ex) == [] <==>
      (ValidateInput(input, Required) &&
       TravelogueCall(input, ex).outcome.Returned? && ItineraryCall(input, ex).outcome.Returned? &&
       FoodCall(input, ex).outcome.Returned? && PriceCall(input, ex).outcome.Returned?)
  {
  }

  /** Where each section of the final plan comes from. */
  lemma PlanSections(input: Dict, ex: Executor)
    ensures Plan(input, ex)["travelogue"] == Section(Attempt(TravelogueCall(input, ex), TravelogueFailed).slot)
    ensures Plan(input, ex)["itinerary"] == Section(Attempt(ItineraryCall(input, ex), ItineraryFailed).slot)
    ensures Plan(input, ex)["food_recommendations"] == Section(Attempt(FoodCall(input, ex), FoodFailed).slot)
    ensures Plan(input, ex)["price_comparison"] == Section(Attempt(PriceCall(input, ex), PriceFailed).slot)
    ensures Plan(input, ex)["errors"] == StrList(Errors(input, ex))
  {
  }

  /** A rejected call leaves its plan section empty. */
  lemma RejectSection(required: seq<string>, prefix: string)
    ensures Section(Attempt(Reject(required), prefix).slot) == Obj(map[])
    ensures Attempt(Reject(required), prefix).errors == []
  {
  }

  /** An agent call makes at most one generate call. */
  lemma FoodPrompts(input: Dict, gen: Generator)
    ensures |FoodRecommendationAgent.Execute(input, gen).prompts| <= 1
  {
  }

  /**
   * A missing required field is reported first, the travelogue and
   * itinerary agents reject the input without calling the model, and their
   * plan sections stay empty.
   */
  lemma MissingFieldPartial(input: Dict, ex: Executor, gen: Generator)
    requires RunsAgents(ex, gen, input)
    requires !ValidateInput(input, Required)
    ensures RunResult(input, ex)["status"] == Str("partial_success")
    ensures Errors(input, ex)[0] == "缺少必要字段: " + Join(", ", MissingFields(input))
    ensures Plan(input, ex)["travelogue"] == Obj(map[]) && Plan(input, ex)["itinerary"] == Obj(map[])
    ensures TravelogueCall(input, ex).prompts == [] && ItineraryCall(input, ex).prompts == []
    ensures |RunPrompts(input, ex)| <= 2
  {
    SuccessIff(input, ex);
    PlanSections(input, ex);
    assert ValidateInput(input, TravelogueAgent.Required) == ValidateInput(input, Required);
    assert ValidateInput(input, ItineraryAgent.Required) == ValidateInput(input, Required);
    assert TravelogueCall(input, ex) == Reject(TravelogueAgent.Required);
    assert ItineraryCall(input, ex) == Reject(ItineraryAgent.Required);
    RejectSection(TravelogueAgent.Required, TravelogueFailed);
    RejectSection(ItineraryAgent.Required, ItineraryFailed);
    FoodPrompts(FoodInput(input), gen);
  }

  /**
   * A food agent fault is recorded and leaves the food section of the plan
   * empty; the run reports partial success.
   */
  lemma FoodFaultPartial(input: Dict, ex: Executor)
    requires FoodCall(input, ex).outcome.Raised?
    ensures RunResult(input, ex)["status"] == Str("partial_success")
    ensures Plan(input, ex)["food_recommendations"] == Obj(map[])
    ensures FoodFailed + FoodCall(input, ex).outcome.fault in Errors(input, ex)
  {
    SuccessIff(input, ex);
    PlanSections(input, ex);
    var e := Errors(input, ex);
    var before := AnalyzeErrors(input) + Attempt(TravelogueCall(input, ex), TravelogueFailed).errors
                  + Attempt(ItineraryCall(input, ex), ItineraryFailed).errors;
    assert e[|before|] == FoodFailed + FoodCall(input, ex).outcome.fault;
  }

  /**
   * When the input is complete and renders, and every generate call
   * answers, the run succeeds after exactly four generate calls and the plan
   * carries each agent's data.
   */
  lemma HappyPath(input: Dict, ex: Executor, gen: Generator)
    requires RunsAgents(ex, gen, input)
    requires TravelogueAgent.Ready(input) && FoodRecommendationAgent.Ready(FoodInput(input))
    requires forall p :: gen(p).Generated?
    ensures RunResult(input, ex)["status"] == Str("success")
    ensures |RunPrompts(input, ex)| == 4
    ensures Plan(input, ex)["travelogue"] == Obj(DataOf(TravelogueCall(input, ex)))
    ensures Plan(input, ex)["itinerary"] == Obj(DataOf(ItineraryCall(input, ex)))
    ensures Plan(input, ex)["food_recommendations"] == Obj(DataOf(FoodCall(input, ex)))
    ensures Plan(input, ex)["price_comparison"] == Obj(DataOf(PriceCall(input, ex)))
    ensures Plan(input, ex)["errors"] == StrList([])
  {
    assert ItineraryAgent.Ready(input);
    PriceInputFacts(input);
    SuccessIff(input, ex);
    PlanSections(input, ex);
  }

  /** A complete input that renders reaches the model four times; a request missing a required field, at most twice. */
  lemma CallCount(input: Dict, ex: Executor, gen: Generator)
    requires RunsAgents(ex, gen, input)
    ensures TravelogueAgent.Ready(input) && FoodRecommendationAgent.Ready(FoodInput(input)) ==> |RunPrompts(input, ex)| == 4
    ensures !ValidateInput(input, Required) && FoodRecommendationAgent.Ready(FoodInput(input)) ==> |RunPrompts(input, ex)| == 2
  {
    PriceInputFacts(input);
    if TravelogueAgent.Ready(input) {
      assert ItineraryAgent.Ready(input);
    }
    if !ValidateInput(input, Required) {
      assert ValidateInput(input, TravelogueAgent.Required) == ValidateInput(input, Required);
      assert ValidateInput(input, ItineraryAgent.Required) == ValidateInput(input, Required);
    }
  }

  // ---------------------------------------------------------------------
  // ContentAnalysisWorkflow
  // ---------------------------------------------------------------------

  /**
   * A content stage: the agent runs only when its key is in the input; a
   * returned dictionary fills the slot, while an exception leaves the slot
   * as it was and records `str(e)` alone.
   */
  function ContentAttempt(input: Dict, key: string, agent: string, ex: Executor, slot: Dict): StageOutcome
  {
    if key !in input then StageOutcome(slot, [])
    else
      var c := ex(agent, input);
      if c.outcome.Raised? then StageOutcome(slot, [c.outcome.fault]) else StageOutcome(c.outcome.result, [])
  }

  /** The generate calls a content stage makes. */
  function ContentPrompts(input: Dict, key: string, agent: string, ex: Executor): seq<Prompt>
  {
    if key !in input then [] else ex(agent, input).prompts
  }

  /** `_extract_recommendations`' dictionary. */
  function Insights(xiaohongshu: Dict, video: Dict): Dict
  {
    map["xiaohongshu_insights" := Section(xiaohongshu), "video_insights" := Section(video)]
  }

  /** What `ContentAnalysisWorkflow.run` returns for an input. */
  function ContentResult(input: Dict, ex: Executor): (r: Dict)
    ensures r.Keys == {"status", "message", "data"} && r["status"] == Str("success")
    ensures r["data"].Obj? && r["data"].fields.Keys == {"xiaohongshu_insights", "video_insights"}
  {
    map["status" := Str("success"), "message" := Str("内容分析完成"),
        "data" := Obj(Insights(ContentAttempt(input, "note_content", "xiaohongshu", ex, map[]).slot,
                               ContentAttempt(input, "video_url", "video", ex, map[]).slot))]
  }

  /** `ContentAnalysisWorkflow`, with the agent manager it is constructed with. */
  class ContentAnalysisWorkflow {
    const execute: Executor

    constructor (agentManager: Executor)
      ensures execute == agentManager
    {
      execute := agentManager;
    }

    /** `_analyze_xiaohongshu` */
    method AnalyzeXiaohongshu(state: WorkflowState)
      modifies state`xiaohongshuResult, state`errors, state`prompts
      ensures state.xiaohongshuResult ==
        ContentAttempt(state.inputData, "note_content", "xiaohongshu", execute, old(state.xiaohongshuResult)).slot
      ensures state.errors == old(state.errors) +
        ContentAttempt(state.inputData, "note_content", "xiaohongshu", execute, old(state.xiaohongshuResult)).errors
      ensures state.prompts == old(state.prompts) + ContentPrompts(state.inputData, "note_content", "xiaohongshu", execute)
    {
      if "note_content" in state.inputData {
        var c := execute("xiaohongshu", state.inputData);
        state.prompts := state.prompts + c.prompts;
        if c.outcome.Raised? {
          state.errors := state.errors + [c.outcome.fault];
        } else {
          state.xiaohongshuResult := c.outcome.result;
        }
      }
    }

    /** `_analyze_video` */
    method AnalyzeVideo(state: WorkflowState)
      modifies state`videoResult, state`errors, state`prompts
      ensures state.videoResult == ContentAttempt(state.inputData, "video_url", "video", execute, old(state.videoResult)).slot
      ensures state.errors == old(state.errors) +
        ContentAttempt(state.inputData, "video_url", "video", execute, old(state.videoResult)).errors
      ensures state.prompts == old(state.prompts) + ContentPrompts(state.inputData, "video_url", "video", execute)
    {
      if "video_url" in state.inputData {
        var c := execute("video", state.inputData);
        state.prompts := state.prompts + c.prompts;
        if c.outcome.Raised? {
          state.errors := state.errors + [c.outcome.fault];
        } else {
          state.videoResult := c.outcome.result;
        }
      }
    }

    /** `_extract_recommendations` */
    method ExtractRecommendations(state: WorkflowState)
      modifies state`finalPlan
      ensures state.finalPlan == Insights(state.xiaohongshuResult, state.videoResult)
    {
      state.finalPlan := map["xiaohongshu_insights" := Section(state.xiaohongshuResult),
                             "video_insights" := Section(state.videoResult)];
    }

    /** `run`: always a success answer carrying the insights; recorded errors are not reported. */
    method Run(input: Dict) returns (r: Dict, ghost prompts: seq<Prompt>)
      ensures r == ContentResult(input, execute)
      ensures prompts == ContentPrompts(input, "note_content", "xiaohongshu", execute) + ContentPrompts(input, "video_url", "video", execute)
    {
      var state := new WorkflowState(input);
      AnalyzeXiaohongshu(state);
      AnalyzeVideo(state);
      ExtractRecommendations(state);
      r := map["status" := Str("success"), "message" := Str("内容分析完成"), "data" := Obj(state.finalPlan)];
      prompts := state.prompts;
    }
  }

  /**
   * The content analysis always answers success; an absent input key means
   * that agent is not called and its insights are empty, and a note that is
   * analysed yields the note and the analysis text.
   */
  lemma ContentAnalysisFacts(input: Dict, ex: Executor, gen: Generator)
    requires ex("xiaohongshu", input) == XiaoHongShuAgent.Execute(input, gen)
    ensures ContentResult(input, ex)["status"] == Str("success")
    ensures "note_content" !in input ==>
      ContentPrompts(input, "note_content", "xiaohongshu", ex) == [] &&
      ContentResult(input, ex)["data"].fields["xiaohongshu_insights"] == Obj(map[])
    ensures "video_url" !in input ==>
      ContentPrompts(input, "video_url", "video", ex) == [] &&
      ContentResult(input, ex)["data"].fields["video_insights"] == Obj(map[])
    ensures "note_content" in input && gen(XiaoHongShuAgent.Execute(input, gen).prompts[0]).Generated? ==>
      ContentResult(input, ex)["data"].fields["xiaohongshu_insights"] ==
        Obj(map["note_content" := input["note_content"],
                "analysis_result" := Str(gen(XiaoHongShuAgent.Execute(input, gen).prompts[0]).text)])
  {
    if "note_content" in input {
      assert ValidateInput(input, XiaoHongShuAgent.Required);
    }
  }
}
