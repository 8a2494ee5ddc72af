/**
 * The earlier linear travel pipeline (src/graphs/travel_workflow.py): five
 * stages in a fixed line — travel guide, itinerary, food, price, final plan
 * — each writing its own key of a shared `results` dictionary. Nothing is
 * caught: a fault in any stage ends the run.
 *
 * Its agent manager is the earlier one (`LegacyAgentManager`), whose agents
 * are the oracle `Runner`.
 */
module LegacyTravelWorkflow {
  import opened Values
  import LegacyAgentManager

  /** The `results` dictionary: a stage key to the dictionary stored under it. */
  type ResultTable = map<string, Dict>

  /** The keys a completed run leaves, one per stage. */
  const StageKeys: set<string> := {"travel_guide", "itinerary_planning", "food_recommendation", "price_comparison", "final_plan"}

  /** `results.get(key, {})` */
  function Slot(results: ResultTable, key: string): Dict
  {
    if key in results then results[key] else map[]
  }

  /**
   * The food agent's input: a copy of the request, plus the travel guide's
   * `attractions` (default `[]`) once the travel guide has run.
   */
  function FoodInput(input: Dict, results: ResultTable): Dict
  {
    if "travel_guide" in results then input["attractions" := GetOr(results["travel_guide"], "attractions", List([]))]
    else input
  }

  /** The food input adds at most `attractions` to the request and keeps every other entry. */
  lemma FoodInputFacts(input: Dict, results: ResultTable)
    ensures "travel_guide" !in results ==> FoodInput(input, results) == input
    ensures "travel_guide" in results ==>
      FoodInput(input, results).Keys == input.Keys + {"attractions"} &&
      FoodInput(input, results)["attractions"] == GetOr(results["travel_guide"], "attractions", List([]))
    ensures forall k :: k in input && k != "attractions" ==> k in FoodInput(input, results) && FoodInput(input, results)[k] == input[k]
  {
  }

  /**
   * `food_recommendations[0].get("name", "")` when the list is truthy:
   * None when it is falsy; for a non-empty list whose head is a dictionary,
   * that dictionary's "name"; anything else raises as Python does.
   */
  function FirstName(recs: Value): (r: Result<Option<Value>>)
    ensures r == Ok(None) <==> !Truthy(recs)
    ensures recs.List? && recs.items != [] && recs.items[0].Obj? ==>
      r == Ok(Some(GetOr(recs.items[0].fields, "name", Str(""))))
  {
    if !Truthy(recs) then Ok(None)
    else match recs
      case List(items) =>
        if items[0].Obj? then Ok(Some(GetOr(items[0].fields, "name", Str(""))))
        else Err("'" + TypeName(items[0]) + "' object has no attribute 'get'")
      case Str(_) => Err("'str' object has no attribute 'get'")
      case Obj(_) => Err("0")
      case _ => Err("'" + TypeName(recs) + "' object is not subscriptable")
  }

  /**
   * The price agent's input: a copy of the request, plus `product_name`
   * from the first food recommendation once the food agent has run and
   * recommended something.
   */
  function PriceInput(input: Dict, results: ResultTable): (r: Result<Dict>)
    ensures "food_recommendation" !in results ==> r == Ok(input)
  {
    if "food_recommendation" !in results then Ok(input)
    else
      var name := FirstName(GetOr(results["food_recommendation"], "food_recommendations", List([])));
      if name.Err? then Err(name.error)
      else if name.value.None? then Ok(input)
      else Ok(input["product_name" := name.value.value])
  }

  /** The price input is the request, with `product_name` set exactly when there was a first recommendation. */
  lemma PriceInputFacts(input: Dict, results: ResultTable)
    requires "food_recommendation" in results
    ensures var recs := GetOr(results["food_recommendation"], "food_recommendations", List([]));
      (!Truthy(recs) ==> PriceInput(input, results) == Ok(input)) &&
      (recs.List? && recs.items != [] && recs.items[0].Obj? ==>
        PriceInput(input, results) == Ok(input["product_name" := GetOr(recs.items[0].fields, "name", Str(""))]))
  {
  }

  /** `_generate_final_plan`'s dictionary: every field read with its default. */
  function FinalPlan(input: Dict, results: ResultTable): (plan: Dict)
    ensures plan.Keys == {"destination", "duration", "travel_notes", "itinerary", "attractions",
                          "food_recommendations", "price_comparison"}
  {
    map["destination" := GetOr(input, "destination", Str("")),
        "duration" := GetOr(input, "duration", Str("")),
        "travel_notes" := GetOr(Slot(results, "travel_guide"), "travel_notes", Str("")),
        "itinerary" := GetOr(Slot(results, "itinerary_planning"), "daily_itinerary", List([])),
        "attractions" := GetOr(Slot(results, "travel_guide"), "attractions", List([])),
        "food_recommendations" := GetOr(Slot(results, "food_recommendation"), "food_recommendations", List([])),
        "price_comparison" := GetOr(Slot(results, "price_comparison"), "price_comparison", Obj(map[]))]
  }

  /** A stage that has not run, or whose result lacks the field, leaves the plan's default. */
  lemma FinalPlanDefaults(input: Dict, results: ResultTable)
    ensures "destination" !in input ==> FinalPlan(input, results)["destination"] == Str("")
    ensures "duration" !in input ==> FinalPlan(input, results)["duration"] == Str("")
    ensures "travel_notes" !in Slot(results, "travel_guide") ==> FinalPlan(input, results)["travel_notes"] == Str("")
    ensures "daily_itinerary" !in Slot(results, "itinerary_planning") ==> FinalPlan(input, results)["itinerary"] == List([])
    ensures "attractions" !in Slot(results, "travel_guide") ==> FinalPlan(input, results)["attractions"] == List([])
    ensures "food_recommendations" !in Slot(results, "food_recommendation") ==>
      FinalPlan(input, results)["food_recommendations"] == List([])
    ensures "price_comparison" !in Slot(results, "price_comparison") ==>
      FinalPlan(input, results)["price_comparison"] == Obj(map[])
  {
  }

  /** A stage's effect on the table: the returned dictionary is stored under its key, a fault ends the run. */
  function Store(results: ResultTable, key: string, o: Outcome): (r: Result<ResultTable>)
    ensures o.Raised? ==> r == Err(o.fault)
    ensures o.Returned? ==> r.Ok? && r.value.Keys == results.Keys + {key} && r.value[key] == o.result
    ensures o.Returned? ==> forall k :: k in results && k != key ==> r.value[k] == results[k]
  {
    if o.Raised? then Err(o.fault) else Ok(results[key := o.result])
  }

  /** The table after the travel guide stage. */
  function AfterGuide(input: Dict, agents: LegacyAgentManager.Runner): Result<ResultTable>
  {
    Store(map[], "travel_guide", LegacyAgentManager.ExecuteAgent("travel_guide", input, agents))
  }

  /** The table after the itinerary stage. */
  function AfterItinerary(input: Dict, agents: LegacyAgentManager.Runner): Result<ResultTable>
  {
    var r := AfterGuide(input, agents);
    if r.Err? then r
    else Store(r.value, "itinerary_planning", LegacyAgentManager.ExecuteAgent("itinerary_planning", input, agents))
  }

  /** The table after the food stage. */
  function AfterFood(input: Dict, agents: LegacyAgentManager.Runner): Result<ResultTable>
  {
    var r := AfterItinerary(input, agents);
    if r.Err? then r
    else Store(r.value, "food_recommendation",
               LegacyAgentManager.ExecuteAgent("food_recommendation", FoodInput(input, r.value), agents))
  }

  /** The table after the price stage. */
  function AfterPrice(input: Dict, agents: LegacyAgentManager.Runner): Result<ResultTable>
  {
    var r := AfterFood(input, agents);
    if r.Err? then r
    else
      var priceInput := PriceInput(input, r.value);
      if priceInput.Err? then Err(priceInput.error)
      else Store(r.value, "price_comparison", LegacyAgentManager.ExecuteAgent("price_comparison", priceInput.value, agents))
  }

  /** What `run` returns, or the fault it raises. */
  function Pipeline(input: Dict, agents: LegacyAgentManager.Runner): (r: Result<ResultTable>)
    // a failed travel-guide stage is the run's failure, whatever the later agents would do
    ensures AfterGuide(input, agents).Err? ==> r == AfterGuide(input, agents)
    // so does a failed itinerary, food or price stage, including a fault building the price input
    ensures AfterItinerary(input, agents).Err? ==> r == AfterItinerary(input, agents)
    ensures AfterFood(input, agents).Err? ==> r == AfterFood(input, agents)
    ensures AfterPrice(input, agents).Err? ==> r == AfterPrice(input, agents)
    // and a run that fails fails in one of its stages
    ensures r.Err? ==> AfterPrice(input, agents).Err?
  {
    var r := AfterPrice(input, agents);
    if r.Err? then r else Ok(r.value["final_plan" := FinalPlan(input, r.value)])
  }

  /** `TravelWorkflowState`: the message list (never used by the stages), the request and the results. */
  class WorkflowState {
    var messages: seq<Value>
    var inputData: Dict
    var results: ResultTable

    constructor ()
      ensures messages == [] && inputData == map[] && results == map[]
    {
      messages := [];
      inputData := map[];
      results := map[];
    }
  }

  /** `TravelWorkflow`, over the earlier agent manager's agents. */
  class TravelWorkflow {
    const agents: LegacyAgentManager.Runner

    constructor (agents: LegacyAgentManager.Runner)
      ensures this.agents == agents
    {
      this.agents := agents;
    }

    /** Stores `o` under `key`, or reports its fault. */
    method Record(state: WorkflowState, key: string, o: Outcome) returns (fault: Option<string>)
      modifies state`results
      ensures o.Raised? ==> fault == Some(o.fault) && state.results == old(state.results)
      ensures o.Returned? ==> fault == None && state.results == old(state.results)[key := o.result]
    {
      if o.Raised? {
        return Some(o.fault);
      }
      state.results := state.results[key := o.result];
      fault := None;
    }

    /** `_call_travel_guide` */
    method CallTravelGuide(state: WorkflowState) returns (fault: Option<string>)
      modifies state`results
      ensures var o := LegacyAgentManager.ExecuteAgent("travel_guide", state.inputData, agents);
        Store(old(state.results), "travel_guide", o) == if fault.Some? then Err(fault.value) else Ok(state.results)
    {
      var result := LegacyAgentManager.ExecuteAgent("travel_guide", state.inputData, agents);
      fault := Record(state, "travel_guide", result);
    }

    /** `_call_itinerary_planning` */
    method CallItineraryPlanning(state: WorkflowState) returns (fault: Option<string>)
      modifies state`results
      ensures var o := LegacyAgentManager.ExecuteAgent("itinerary_planning", state.inputData, agents);
        Store(old(state.results), "itinerary_planning", o) == if fault.Some? then Err(fault.value) else Ok(state.results)
    {
      var result := LegacyAgentManager.ExecuteAgent("itinerary_planning", state.inputData, agents);
      fault := Record(state, "itinerary_planning", result);
    }

    /** `_call_food_recommendation`: the request is copied, never changed. */
    method CallFoodRecommendation(state: WorkflowState) returns (fault: Option<string>)
      modifies state`results
      ensures var o := LegacyAgentManager.ExecuteAgent("food_recommendation", FoodInput(state.inputData, old(state.results)), agents);
        Store(old(state.results), "food_recommendation", o) == if fault.Some? then Err(fault.value) else Ok(state.results)
    {
      var foodInput := state.inputData;
      if "travel_guide" in state.results {
        foodInput := foodInput["attractions" := GetOr(state.results["travel_guide"], "attractions", List([]))];
      }
      var result := LegacyAgentManager.ExecuteAgent("food_recommendation", foodInput, agents);
      fault := Record(state, "food_recommendation", result);
    }

    /** `_call_price_comparison`: the request is copied, never changed. */
    method CallPriceComparison(state: WorkflowState) returns (fault: Option<string>)
      modifies state`results
      ensures var p := PriceInput(state.inputData, old(state.results));
        p.Err? ==> fault == Some(p.error) && state.results == old(state.results)
      ensures var p := PriceInput(state.inputData, old(state.results));
        p.Ok? ==>
          var o := LegacyAgentManager.ExecuteAgent("price_comparison", p.value, agents);
          Store(old(state.results), "price_comparison", o) == if fault.Some? then Err(fault.value) else Ok(state.results)
    {
      var priceInput := state.inputData;
      if "food_recommendation" in state.results {
        var recs := GetOr(state.results["food_recommendation"], "food_recommendations", List([]));
        if Truthy(recs) {
          var name := FirstName(recs);
          if name.Err? {
            return Some(name.error);
          }
          priceInput := priceInput["product_name" := name.value.value];
        }
      }
      var result := LegacyAgentManager.ExecuteAgent("price_comparison", priceInput, agents);
      fault := Record(state, "price_comparison", result);
    }

    /** `_generate_final_plan` */
    method GenerateFinalPlan(state: WorkflowState)
      modifies state`results
      ensures state.results == old(state.results)["final_plan" := FinalPlan(state.inputData, old(state.results))]
    {
      var plan := map[
        "destination" := GetOr(state.inputData, "destination", Str("")),
        "duration" := GetOr(state.inputData, "duration", Str("")),
        "travel_notes" := GetOr(Slot(state.results, "travel_guide"), "travel_notes", Str("")),
        "itinerary" := GetOr(Slot(state.results, "itinerary_planning"), "daily_itinerary", List([])),
        "attractions" := GetOr(Slot(state.results, "travel_guide"), "attractions", List([])),
        "food_recommendations" := GetOr(Slot(state.results, "food_recommendation"), "food_recommendations", List([])),
        "price_comparison" := GetOr(Slot(state.results, "price_comparison"), "price_comparison", Obj(map[]))];
      state.results := state.results["final_plan" := plan];
    }

    /** `run`: a fresh state holding the request, the five stages in line; the first fault ends the run. */
    method Run(input: Dict) returns (r: Result<ResultTable>)
      ensures r == Pipeline(input, agents)
    {
      var state := new WorkflowState();
      state.inputData := input;
      var fault := CallTravelGuide(state);
      if fault.Some? {
        return Err(fault.value);
      }
      assert Ok(state.results) == AfterGuide(input, agents);
      fault := CallItineraryPlanning(state);
      if fault.Some? {
        return Err(fault.value);
      }
      assert Ok(state.results) == AfterItinerary(input, agents);
      fault := CallFoodRecommendation(state);
      if fault.Some? {
        return Err(fault.value);
      }
      assert Ok(state.results) == AfterFood(input, agents);
      fault := CallPriceComparison(state);
      if fault.Some? {
        return Err(fault.value);
      }
      assert Ok(state.results) == AfterPrice(input, agents);
      GenerateFinalPlan(state);
      r := Ok(state.results);
    }
  }

  /** The tables of a completed run after each stage: all exist, each with one key more. */
  lemma StagesComplete(input: Dict, agents: LegacyAgentManager.Runner)
    requires Pipeline(input, agents).Ok?
    ensures AfterGuide(input, agents).Ok? && AfterGuide(input, agents).value.Keys == {"travel_guide"}
    ensures AfterItinerary(input, agents).Ok? &&
      AfterItinerary(input, agents).value.Keys == {"travel_guide", "itinerary_planning"}
    ensures AfterFood(input, agents).Ok? &&
      AfterFood(input, agents).value.Keys == {"travel_guide", "itinerary_planning", "food_recommendation"}
    ensures AfterPrice(input, agents).Ok? &&
      AfterPrice(input, agents).value.Keys == {"travel_guide", "itinerary_planning", "food_recommendation", "price_comparison"}
  {
  }

  /** A completed run is the price stage's table plus the final plan built from it. */
  lemma RunEnds(input: Dict, agents: LegacyAgentManager.Runner)
    requires Pipeline(input, agents).Ok?
    ensures AfterPrice(input, agents).Ok?
    ensures Pipeline(input, agents).value ==
      AfterPrice(input, agents).value["final_plan" := FinalPlan(input, AfterPrice(input, agents).value)]
  {
  }

  /** Adding a new key and removing it again gives back the table. */
  lemma AddRemove(t: ResultTable, k: string, v: Dict)
    requires k !in t
    ensures t[k := v] - {k} == t
  {
    assert (t[k := v] - {k}).Keys == t.Keys;
  }

  /** A completed run holds exactly the five stage keys, and its final plan is built from the other four. */
  lemma RunKeys(input: Dict, agents: LegacyAgentManager.Runner)
    requires Pipeline(input, agents).Ok?
    ensures Pipeline(input, agents).value.Keys == StageKeys
    ensures Pipeline(input, agents).value["final_plan"] == FinalPlan(input, Pipeline(input, agents).value - {"final_plan"})
  {
    StagesComplete(input, agents);
    RunEnds(input, agents);
    var p := AfterPrice(input, agents).value;
    AddRemove(p, "final_plan", FinalPlan(input, p));
  }

  /**
   * In a completed run the travel guide and itinerary agents saw the
   * request, and the food agent the request plus the guide's attractions.
   */
  lemma RunInputs(input: Dict, agents: LegacyAgentManager.Runner)
    requires Pipeline(input, agents).Ok?
    ensures var results := Pipeline(input, agents).value;
      "travel_guide" in results && "itinerary_planning" in results && "food_recommendation" in results &&
      LegacyAgentManager.ExecuteAgent("travel_guide", input, agents) == Returned(results["travel_guide"]) &&
      LegacyAgentManager.ExecuteAgent("itinerary_planning", input, agents) == Returned(results["itinerary_planning"]) &&
      LegacyAgentManager.ExecuteAgent("food_recommendation",
        input["attractions" := GetOr(results["travel_guide"], "attractions", List([]))], agents) ==
        Returned(results["food_recommendation"])
  {
    StagesComplete(input, agents);
    var g := AfterGuide(input, agents).value;
    var it := AfterItinerary(input, agents).value;
    var f := AfterFood(input, agents).value;
    var p := AfterPrice(input, agents).value;
    var results := Pipeline(input, agents).value;
    assert results["travel_guide"] == p["travel_guide"] == f["travel_guide"] == it["travel_guide"] == g["travel_guide"];
    assert results["itinerary_planning"] == p["itinerary_planning"] == f["itinerary_planning"] == it["itinerary_planning"];
    assert results["food_recommendation"] == p["food_recommendation"] == f["food_recommendation"];
  }

  /** A fault in the travel guide ends the run with that fault, whatever the later agents would do. */
  lemma GuideFaultEndsRun(input: Dict, agents: LegacyAgentManager.Runner)
    requires LegacyAgentManager.ExecuteAgent("travel_guide", input, agents).Raised?
    ensures Pipeline(input, agents) == Err(LegacyAgentManager.ExecuteAgent("travel_guide", input, agents).fault)
  {
  }
}
