/**
 * The earlier agent manager (src/agents/agent_manager.py): seven agents
 * under fixed keys, dispatch by key with a not-found dictionary that has no
 * "status", a batch runner over a task list, and the name/description table.
 *
 * The seven agent classes it imports are not part of this model: their
 * `execute` is an oracle `Runner` from registry key and input to what the
 * call returns or raises, and their names and descriptions are given as a
 * sequence parallel to the keys.
 */
module LegacyAgentManager {
  import opened Values
  import opened BaseAgent
  import AgentManager

  /** The registry keys, in the order the constructor lists them. */
  const AgentNames: seq<string> := [
    "travel_guide", "itinerary_planning", "food_recommendation", "price_comparison",
    "xiaohongshu_note", "video_recognition", "topic_recommendation"]

  /** What each registered agent's `execute` returns or raises on an input. */
  type Runner = (string, Dict) -> Outcome

  /** `{"error": f"Agent {name} not found"}` */
  function NotFound(name: string): (r: Dict)
    ensures r.Keys == {"error"} && r["error"] == Str("Agent " + name + " not found")
  {
    map["error" := Str("Agent " + name + " not found")]
  }

  /**
   * `execute_agent`: a registered key runs its agent and passes on whatever
   * it returns or raises; any other key yields the not-found dictionary,
   * which carries no "status".
   */
  function ExecuteAgent(name: string, input: Dict, run: Runner): (r: Outcome)
    ensures name in AgentNames ==> r == run(name, input)
    ensures name !in AgentNames ==> r.Returned? && "status" !in r.result && r.result == NotFound(name)
  {
    if name in AgentNames then run(name, input) else Returned(NotFound(name))
  }

  /**
   * One task of `execute_multiple_agents`: its "agent_name" and its
   * "input_data", each possibly absent.
   */
  datatype Task = Task(agentName: Option<string>, inputData: Option<Dict>)

  /** `if agent_name:` — present and non-empty. */
  predicate Named(t: Task)
  {
    t.agentName.Some? && t.agentName.value != ""
  }

  /** `task.get("input_data", {})` */
  function InputOf(t: Task): Dict
  {
    if t.inputData.Some? then t.inputData.value else map[]
  }

  /** The call a named task makes. */
  function TaskCall(t: Task, run: Runner): Outcome
    requires Named(t)
  {
    ExecuteAgent(t.agentName.value, InputOf(t), run)
  }

  /** One iteration of the loop: an unnamed task is skipped, a named one stores its result under its name. */
  function Step(results: Dict, t: Task, run: Runner): (r: Outcome)
    ensures !Named(t) ==> r == Returned(results)
    ensures Named(t) && TaskCall(t, run).Raised? ==> r == Raised(TaskCall(t, run).fault)
    ensures Named(t) && TaskCall(t, run).Returned? ==>
      r == Returned(results[t.agentName.value := Obj(TaskCall(t, run).result)])
  {
    if !Named(t) then Returned(results)
    else
      var c := TaskCall(t, run);
      if c.Raised? then Raised(c.fault) else Returned(results[t.agentName.value := Obj(c.result)])
  }

  /** Every named task among the first `n` returns. */
  predicate AllReturn(tasks: seq<Task>, n: int, run: Runner)
    requires n <= |tasks|
  {
    forall j :: 0 <= j < n && Named(tasks[j]) ==> TaskCall(tasks[j], run).Returned?
  }

  /** Task `i` is named and its call raises, while every named task before it returns. */
  predicate FirstRaising(tasks: seq<Task>, i: int, run: Runner)
  {
    0 <= i < |tasks| && Named(tasks[i]) && TaskCall(tasks[i], run).Raised? && AllReturn(tasks, i, run)
  }

  /** What `execute_multiple_agents` returns or raises for a task list, processed front to back. */
  function Results(tasks: seq<Task>, run: Runner): (r: Outcome)
    // a fault that ends the batch is the fault of the first named task whose call raises
    ensures r.Raised? ==> exists i :: FirstRaising(tasks, i, run) && TaskCall(tasks[i], run) == r
    // a batch that returns had every named call return
    ensures r.Returned? ==> AllReturn(tasks, |tasks|, run)
  {
    if tasks == [] then Returned(map[])
    else
      var before := Results(tasks[..|tasks| - 1], run);
      if before.Raised? then
        FirstStays(tasks, tasks[..|tasks| - 1], before, run);
        before
      else
        LastExtends(tasks, run);
        Step(before.result, tasks[|tasks| - 1], run)
  }

  /** The first raising task of all but the last task is the first raising task of them all. */
  lemma FirstStays(tasks: seq<Task>, init: seq<Task>, o: Outcome, run: Runner)
    requires tasks != [] && init == tasks[..|tasks| - 1]
    requires exists i :: FirstRaising(init, i, run) && TaskCall(init[i], run) == o
    ensures exists i :: FirstRaising(tasks, i, run) && TaskCall(tasks[i], run) == o
  {
    var i :| FirstRaising(init, i, run) && TaskCall(init[i], run) == o;
    assert forall j :: 0 <= j < i ==> tasks[j] == init[j];
    assert FirstRaising(tasks, i, run);
  }

  /** When all but the last task return, the last decides: it is the first to raise, or all return. */
  lemma LastExtends(tasks: seq<Task>, run: Runner)
    requires tasks != [] && AllReturn(tasks[..|tasks| - 1], |tasks| - 1, run)
    ensures var last := |tasks| - 1;
      Named(tasks[last]) && TaskCall(tasks[last], run).Raised? ==> FirstRaising(tasks, last, run)
    ensures var last := |tasks| - 1;
      !(Named(tasks[last]) && TaskCall(tasks[last], run).Raised?) ==> AllReturn(tasks, |tasks|, run)
  {
    var init := tasks[..|tasks| - 1];
    assert forall j :: 0 <= j < |init| ==> tasks[j] == init[j];
  }

  /** `execute_multiple_agents`: the loop over the tasks; the first fault ends it. */
  method ExecuteMultipleAgents(tasks: seq<Task>, run: Runner) returns (r: Outcome)
    ensures r == Results(tasks, run)
  {
    var results: Dict := map[];
    var i := 0;
    while i < |tasks|
      invariant 0 <= i <= |tasks|
      invariant Results(tasks[..i], run) == Returned(results)
    {
      assert tasks[..i + 1][..i] == tasks[..i];
      var t := tasks[i];
      if t.agentName.Some? && t.agentName.value != "" {
        var result := ExecuteAgent(t.agentName.value, InputOf(t), run);
        if result.Raised? {
          RaisedStays(tasks, i + 1, run);
          assert tasks[..|tasks|] == tasks;
          return result;
        }
        results := results[t.agentName.value := Obj(result.result)];
      }
      i := i + 1;
    }
    assert tasks[..|tasks|] == tasks;
    r := Returned(results);
  }

  /** Once a prefix has raised, the whole list raises the same fault. */
  lemma {:induction false} RaisedStays(tasks: seq<Task>, i: nat, run: Runner)
    requires i <= |tasks|
    requires Results(tasks[..i], run).Raised?
    ensures Results(tasks, run) == Results(tasks[..i], run)
    decreases |tasks| - i
  {
    if i < |tasks| {
      assert tasks[..i + 1][..i] == tasks[..i];
      RaisedStays(tasks, i + 1, run);
    } else {
      assert tasks[..i] == tasks;
    }
  }

  /** The batch raises exactly when some named task's call raises. */
  lemma {:induction false} RaisesIff(tasks: seq<Task>, run: Runner)
    ensures Results(tasks, run).Raised? <==>
      exists i :: 0 <= i < |tasks| && Named(tasks[i]) && TaskCall(tasks[i], run).Raised?
  {
    if tasks != [] {
      var init := tasks[..|tasks| - 1];
      RaisesIff(init, run);
      if exists i :: 0 <= i < |init| && Named(init[i]) && TaskCall(init[i], run).Raised? {
        var i :| 0 <= i < |init| && Named(init[i]) && TaskCall(init[i], run).Raised?;
        assert tasks[i] == init[i];
      }
      if exists i :: 0 <= i < |tasks| && Named(tasks[i]) && TaskCall(tasks[i], run).Raised? {
        var i :| 0 <= i < |tasks| && Named(tasks[i]) && TaskCall(tasks[i], run).Raised?;
        if i < |init| {
          assert init[i] == tasks[i];
        }
      }
    }
  }

  /** The task is named `n`. */
  predicate NamedAs(t: Task, n: string)
  {
    Named(t) && t.agentName.value == n
  }

  /** Task `i` is named and no later task has its name. */
  predicate LastOfItsName(tasks: seq<Task>, i: int)
  {
    0 <= i < |tasks| && Named(tasks[i]) &&
    forall j :: i < j < |tasks| ==> !NamedAs(tasks[j], tasks[i].agentName.value)
  }

  /** When the batch returns, its keys are exactly the names of the named tasks. */
  lemma {:induction false} ResultKeys(tasks: seq<Task>, run: Runner)
    requires Results(tasks, run).Returned?
    ensures forall n :: n in Results(tasks, run).result <==> exists i :: 0 <= i < |tasks| && NamedAs(tasks[i], n)
  {
    if tasks != [] {
      var init := tasks[..|tasks| - 1];
      var last := tasks[|tasks| - 1];
      ResultKeys(init, run);
      var before := Results(init, run).result;
      var after := Results(tasks, run).result;
      forall n
        ensures n in after <==> exists i :: 0 <= i < |tasks| && NamedAs(tasks[i], n)
      {
        if n in after && n !in before {
          assert NamedAs(tasks[|tasks| - 1], n);
        }
        if n in before {
          var i :| 0 <= i < |init| && NamedAs(init[i], n);
          assert tasks[i] == init[i];
        }
        if exists i :: 0 <= i < |tasks| && NamedAs(tasks[i], n) {
          var i :| 0 <= i < |tasks| && NamedAs(tasks[i], n);
          if i < |init| {
            assert init[i] == tasks[i];
          }
        }
      }
    }
  }

  /** When the batch returns, each name holds the result of the LAST task with that name. */
  lemma {:induction false} LastWins(tasks: seq<Task>, run: Runner)
    requires Results(tasks, run).Returned?
    ensures forall i :: LastOfItsName(tasks, i) ==>
      TaskCall(tasks[i], run).Returned? && tasks[i].agentName.value in Results(tasks, run).result &&
      Results(tasks, run).result[tasks[i].agentName.value] == Obj(TaskCall(tasks[i], run).result)
  {
    if tasks != [] {
      var init := tasks[..|tasks| - 1];
      LastWins(init, run);
      forall i | LastOfItsName(tasks, i)
        ensures TaskCall(tasks[i], run).Returned? && tasks[i].agentName.value in Results(tasks, run).result &&
          Results(tasks, run).result[tasks[i].agentName.value] == Obj(TaskCall(tasks[i], run).result)
      {
        if i < |init| {
          assert init[i] == tasks[i];
          assert LastOfItsName(init, i) by {
            forall j | i < j < |init| ensures !NamedAs(init[j], init[i].agentName.value) {
              assert init[j] == tasks[j];
            }
          }
        } else {
          RaisesIff(tasks, run);
        }
      }
    }
  }

  /** A task list without any named task runs no agent and returns an empty dictionary. */
  lemma {:induction false} UnnamedSkipped(tasks: seq<Task>, run: Runner)
    requires forall i :: 0 <= i < |tasks| ==> !Named(tasks[i])
    ensures Results(tasks, run) == Returned(map[])
  {
    if tasks != [] {
      UnnamedSkipped(tasks[..|tasks| - 1], run);
    }
  }

  /** The registry keys are pairwise different. */
  lemma NamesDistinct()
    ensures forall i, j :: 0 <= i < j < |AgentNames| ==> AgentNames[i] != AgentNames[j]
  {
  }

  /**
   * `get_all_agents`: each registry key mapped to the name and description
   * of the agent under it, given at the same position of `agents`.
   */
  method GetAllAgents(agents: seq<AgentInfo>) returns (info: Dict)
    requires |agents| == |AgentNames|
    ensures forall n :: n in info <==> n in AgentNames
    ensures forall i :: 0 <= i < |AgentNames| ==>
      info[AgentNames[i]] == Obj(map["name" := Str(agents[i].name), "description" := Str(agents[i].description)])
  {
    NamesDistinct();
    info := AgentManager.InfoTable(AgentNames, agents);
  }
}
