# whereeatai agent coordination, modelled in Dafny

whereeatai is a travel-planning service built from chat-model "agents". Each
agent checks its required input fields and renders a prompt. It then calls the
language model once and returns a status dictionary that echoes some of its
inputs and adds the generated text. Coordination happens in five places, and
this project models each of them:

- the **agent-to-agent protocol** (`A2AProtocol`): a registry of agents with
  capabilities and status, plus a message log;
- the **agent manager** (`AgentManager`): eight agents under fixed keys,
  dispatch by key, and a two-agent "travel_plan" workflow;
- the **graph workflows** (`TravelWorkflow`): the travel workflow has stages
  for input analysis, travelogue, itinerary, food, prices and final plan, and
  answers "success" or "partial_success". The content-analysis workflow runs
  the note and video agents;
- the **rate limiter** (`RequestMiddleware`): a per-client sliding window that
  answers 429 with `Retry-After`;
- the earlier generation of the code under `src/`: a seven-agent manager with
  a batch runner (`LegacyAgentManager`) and a five-stage pipeline (four agent
  stages, then the final plan) whose first fault ends the run (`LegacyTravelWorkflow`).

The language model is an oracle. A `Generator` maps a `Prompt` to
`Generated(text)` or `Failed(fault)`. A prompt is the agent that built it
together with the field values it substitutes into its template. Every agent
call is a `Call`: the prompts it sent, in order, and its outcome. The outcome is
either the dictionary it returned or the fault it raised.

Python dictionaries are `map<string, Value>`. Dafny models several Python
behaviours explicitly: `dict.get` defaults, truthiness, `KeyError` texts, and
the `TypeError` of `', '.join` over non-strings.

Where the agent manager dispatches, the workflows take an `Executor`, which is
a function from agent key and input to `Call`. `TravelWorkflow.ManagerRunsAgents`
proves that the real manager is such an executor and runs the agents' own
`execute`.

Mutable state is modelled as Dafny classes:

- the protocol registry;
- the workflow states;
- the workflow objects, each of which holds its executor;
- the limiter's request log.

Each method is proved against a specification function of the old state.

## Model

| member | source | states |
|---|---|---|
| BaseAgent.InitAsWritten | whereeatai/agents/base_agent.py:9-18 | construction succeeds exactly when no `agent_id` is passed; otherwise the error is the TypeError for the unexpected keyword |
| BaseAgent.Init | whereeatai/agents/base_agent.py:9-18 | the corrected constructor keeps the optional id, and `get_info` of the result reports exactly the given name and description |
| BaseAgent.ValidateInput | whereeatai/agents/base_agent.py:45-59 | the early-return loop accepts exactly when every required field is a key of the input |
| BaseAgent.ValidateEmpty | whereeatai/agents/base_agent.py:45-59 | an empty requirement list accepts every input |
| BaseAgent.ValidateMonotone | whereeatai/agents/base_agent.py:45-59 | adding keys never turns acceptance into rejection |
| BaseAgent.ValidateSetOnly | whereeatai/agents/base_agent.py:45-59 | only the set of required fields matters, not their order or repetition |
| BaseAgent.GetInfo | whereeatai/agents/base_agent.py:33-43 | the info dictionary has exactly the keys name and description, holding the constructor's values |
| BaseAgent.Reject | whereeatai/agents/travelogue_agent.py:29-34 | a validation failure makes no model call and returns an error dictionary naming the required list |
| BaseAgent.Respond | whereeatai/agents/travelogue_agent.py:59-71 | exactly one model call with the prompt; its fault propagates; its text is added to the echoed data under the agent's output key with status success |
| TravelogueAgent.Execute | whereeatai/agents/travelogue_agent.py:18-71 | missing field gives the recovered error with no call; non-string interests raise before any call; otherwise one call whose prompt sees the three inputs and `travel_style` (default ""), and success data echoing them plus the travelogue |
| ItineraryAgent.Execute | whereeatai/agents/itinerary_agent.py:15-61 | the same three cases; the prompt also sees budget, travel_dates and travel_style with "" defaults; the data holds the inputs plus the itinerary |
| TravelPlanAgent.Execute | whereeatai/agents/travel_plan_agent.py:15-66 | the same three cases; the prompt also sees group_size; the data holds the inputs plus the travel plan |
| TopicRecommendationAgent.Execute | whereeatai/agents/topic_recommendation_agent.py:15-57 | requires topic and interests; only a list of interests can fail to join; the prompt's three optional fields default to ""; the data is topic plus the recommendation |
| FoodRecommendationAgent.Capabilities | whereeatai/agents/food_recommendation_agent.py:17-40 | one capability, recommend_restaurants, 15 seconds, whose schema's required list is exactly the fields `execute` validates |
| FoodRecommendationAgent.Execute | whereeatai/agents/food_recommendation_agent.py:42-83 | requires location and cuisine_type; a list cuisine_type or dietary_restrictions with a non-string raises; the prompt sees budget ("" default) and dietary_restrictions ([] default); the data is location, cuisine type and recommendations |
| PriceComparisonAgent.Capabilities | whereeatai/agents/price_comparison_agent.py:17-33 | one capability, compare_prices, 12 seconds, whose required list is exactly the validated fields |
| PriceComparisonAgent.Execute | whereeatai/agents/price_comparison_agent.py:35-73 | requires product and platforms; a platforms list with a non-string raises; the prompt sees location ("" default); the data is product, platforms and comparison result |
| XiaoHongShuAgent.Capabilities | whereeatai/agents/xiaohongshu_agent.py:17-32 | one capability, analyze_xiaohongshu, 10 seconds, whose required list is exactly the validated fields |
| XiaoHongShuAgent.Execute | whereeatai/agents/xiaohongshu_agent.py:34-74 | requires note_content; otherwise exactly one call whose prompt sees note_images and note_tags ([] defaults); the data is the note plus the analysis |
| VideoAgent.Capabilities | whereeatai/agents/video_agent.py:17-32 | one capability, analyze_video, 15 seconds, whose required list is exactly the validated fields |
| VideoAgent.Execute | whereeatai/agents/video_agent.py:34-74 | requires video_url; otherwise one call whose prompt sees video_summary ("") and video_frames ([]); the data is the URL plus the analysis |
| AgentManager.ConstructAll | whereeatai/agents/agent_manager.py:16-27 | building the agent table succeeds exactly when every constructor succeeds, keeping each result in order; otherwise it fails with the first failing constructor's error |
| AgentManager.ConstructAsWritten | whereeatai/agents/agent_manager.py:16-27 | the manager as written is built exactly when every agent constructor succeeds, and its only possible failure is the unexpected-keyword TypeError |
| AgentManager.ConstructionFailsAsWritten | whereeatai/agents/agent_manager.py:16-27 | as written, constructing the manager raises the unexpected-keyword TypeError |
| AgentManager.ConstructionSucceeds | whereeatai/agents/agent_manager.py:16-27 | with the corrected base constructor, all eight agents exist, each reports its own name and description, and the four protocol agents keep their ids |
| AgentManager.GetAgent | whereeatai/agents/agent_manager.py:29-39 | an agent is found exactly for the eight registry keys, and it is the agent under that key |
| AgentManager.NamesDistinct | whereeatai/agents/agent_manager.py:16-27 | the eight registry keys are pairwise different |
| AgentManager.InfoTable | whereeatai/agents/agent_manager.py:41-51 | the loop builds a table whose keys are exactly the given names, each mapped to its agent's info |
| AgentManager.GetAllAgents | whereeatai/agents/agent_manager.py:41-51 | the keys are exactly the eight registry keys, each holding `get_info` of its agent |
| AgentManager.ExecuteAgent | whereeatai/agents/agent_manager.py:53-71 | an unknown key makes no call and answers "Agent … not found"; each known key is exactly that agent's `execute` |
| AgentManager.Path | whereeatai/agents/agent_manager.py:114-115 | a nested subscript succeeds exactly when both keys are present in nested dictionaries, and a missing outer key fails with the quoted-key KeyError text |
| AgentManager.MergePlan | whereeatai/agents/agent_manager.py:109-125 | the merge succeeds exactly when both agents returned their text under "data" and the input has destination, duration and interests; it then holds exactly those five values; missing "data" gives the "'data'" failure message |
| AgentManager.TravelPlanWorkflow | whereeatai/agents/agent_manager.py:92-125 | always returns a status dictionary; a travelogue fault stops before the itinerary agent; success exactly when both agents generated their text; a missing field gives no model call and the "'data'" failure |
| AgentManager.ExecuteWorkflow | whereeatai/agents/agent_manager.py:73-90 | only "travel_plan" runs the workflow; any other name answers "Workflow … not found" |
| A2AProtocol.MakeMetadata | whereeatai/protocols/a2a_protocol.py:44-50 | metadata exists exactly when the timeout is within 1..300, with the given priority, 3 retries, no correlation id and no tags |
| A2AProtocol.ValuesIn | whereeatai/protocols/a2a_protocol.py:159-172 | the registrations for a list of ids, in the ids' order |
| A2AProtocol.Protocol.constructor | whereeatai/protocols/a2a_protocol.py:100-104 | the registry, its order and the message log start empty |
| A2AProtocol.Protocol.Registered | whereeatai/protocols/a2a_protocol.py:159-172 | the registrations in insertion order: one per registered id, each stored under its own id, none twice |
| A2AProtocol.Protocol.RegisterAgent | whereeatai/protocols/a2a_protocol.py:106-123 | always succeeds; the registration replaces any earlier one under its id, and only a new id is appended to the order |
| A2AProtocol.Protocol.UnregisterAgent | whereeatai/protocols/a2a_protocol.py:125-145 | succeeds exactly when the id was registered; the id leaves both the map and the order, and everything else is kept |
| A2AProtocol.Protocol.GetAgentInfo | whereeatai/protocols/a2a_protocol.py:147-157 | found exactly for registered ids, and then it is that id's registration |
| A2AProtocol.Protocol.ListAgents | whereeatai/protocols/a2a_protocol.py:159-172 | exactly the registrations with the requested status, without duplicates, in registration order; with no filter, all of them |
| A2AProtocol.Protocol.FindAgentByCapability | whereeatai/protocols/a2a_protocol.py:174-190 | the registrations offering a capability of that name, in insertion order |
| A2AProtocol.Offers | whereeatai/protocols/a2a_protocol.py:186-189 | the inner loop finds a capability exactly when the agent offers one with that name |
| A2AProtocol.WithCapability | whereeatai/protocols/a2a_protocol.py:184-190 | the outer loop keeps exactly the agents offering the capability, in order |
| A2AProtocol.Protocol.RegisteredFilter | whereeatai/protocols/a2a_protocol.py:174-190 | a filtered registry holds exactly the registered agents meeting the condition, none twice |
| A2AProtocol.Protocol.CreateMessage | whereeatai/protocols/a2a_protocol.py:192-238 | a message is created exactly when the timeout is within 1..300; it gets the next id, the clock's time and the given fields; it is appended to the log, and nothing else changes |
| A2AProtocol.Protocol.SendMessage | whereeatai/protocols/a2a_protocol.py:240-279 | success exactly when the receiver is registered and not offline; an unknown receiver and an offline receiver each get their own error |
| A2AProtocol.Protocol.SendDependsOnReceiverOnly | whereeatai/protocols/a2a_protocol.py:240-279 | the answer depends only on the receiver, the message id and the timestamp |
| A2AProtocol.Protocol.UpdateAgentStatus | whereeatai/protocols/a2a_protocol.py:281-295 | an unknown id changes nothing; a known one gets the new status, heartbeat and, if given, load, and every other agent is unchanged |
| A2AProtocol.Protocol.GetMessageHistory | whereeatai/protocols/a2a_protocol.py:297-311 | a suffix of the selected messages: the last `limit` for a positive limit, all for 0, and Python's `[-n:]` meaning for a negative one |
| A2AProtocol.Protocol.HistoryMembers | whereeatai/protocols/a2a_protocol.py:297-311 | every message returned is in the log; with an agent id each involves that agent as sender or receiver |
| A2AProtocol.RemoveKeepsOthers | whereeatai/protocols/a2a_protocol.py:136-139 | removing an id from a duplicate-free order keeps it duplicate-free and in step with the map's keys |
| A2AProtocol.UnregisterKeepsValid | whereeatai/protocols/a2a_protocol.py:125-145 | removing an id keeps the order duplicate-free, in step with the remaining keys, and each registration under its own id; removing an unregistered id leaves the order unchanged |
| A2AProtocol.DistinctCard | whereeatai/protocols/a2a_protocol.py:100-104 | a duplicate-free order that lists exactly the keys has as many entries as there are keys |
| A2AProtocol.RegisterTwice | whereeatai/protocols/a2a_protocol.py:106-123 | registering the same id twice keeps the last registration and grows the order by at most one |
| A2AProtocol.CreateAndSend | whereeatai/protocols/a2a_protocol.py:192-279 | a message sent to an unregistered receiver is logged and answered with an error |
| A2AProtocol.UnregisterThenSend | whereeatai/protocols/a2a_protocol.py:125-145 | once its receiver is unregistered, a message gets the "receiver does not exist" error |
| TravelWorkflow.MissingFields | whereeatai/graphs/travel_workflow.py:85-86 | the missing list is empty exactly when validation passes, and it holds only required fields absent from the input |
| TravelWorkflow.MissingFieldsComplete | whereeatai/graphs/travel_workflow.py:85-86 | every required field absent from the input is listed, and the list keeps the order of `required_fields` |
| TravelWorkflow.AnalyzeErrors | whereeatai/graphs/travel_workflow.py:70-99 | no error exactly when the input is complete; otherwise one error listing the missing fields |
| TravelWorkflow.FoodInputFacts | whereeatai/graphs/travel_workflow.py:159-161 | the food input always passes the food agent's validation: location from destination (default ""), cuisine type from interests (default ["中餐"]), every other entry unchanged |
| TravelWorkflow.PriceInputFacts | whereeatai/graphs/travel_workflow.py:191-195 | the price input is ready for the price agent: a package product named after the destination, the four fixed platforms (携程, 美团, 飞猪, 去哪儿), and the location |
| TravelWorkflow.Attempt | whereeatai/graphs/travel_workflow.py:111-121 | a stage records an error exactly when its agent raised; a returned dictionary fills the slot; a fault adds one prefixed error and leaves no "data" for the plan |
| TravelWorkflow.FinalPlan | whereeatai/graphs/travel_workflow.py:221-230 | the final plan has exactly the eight fields and lists the recorded errors |
| TravelWorkflow.Answer | whereeatai/graphs/travel_workflow.py:275-288 | the answer carries the plan as data; it is success, without an errors entry, exactly when no error was recorded, and otherwise partial_success listing them |
| TravelWorkflow.RunResult | whereeatai/graphs/travel_workflow.py:241-288 | a run answers with its final plan as data, and succeeds exactly when it recorded no error |
| TravelWorkflow.ManagerRunsAgents | whereeatai/graphs/travel_workflow.py:30 | the agent manager used as executor runs each stage's agent on that stage's input |
| TravelWorkflow.WorkflowState.constructor | whereeatai/graphs/travel_workflow.py:12-24 | a state starts with the input, no errors and empty slots |
| TravelWorkflow.TravelWorkflow.constructor | whereeatai/graphs/travel_workflow.py:30 | the workflow keeps the agent manager it is given |
| TravelWorkflow.TravelWorkflow.AnalyzeInput | whereeatai/graphs/travel_workflow.py:70-99 | appends the input-analysis errors |
| TravelWorkflow.TravelWorkflow.GenerateTravelogue | whereeatai/graphs/travel_workflow.py:101-121 | stores the agent's data on success; a fault becomes a prefixed error with an empty slot |
| TravelWorkflow.TravelWorkflow.PlanItinerary | whereeatai/graphs/travel_workflow.py:123-143 | the same contract for the itinerary stage |
| TravelWorkflow.TravelWorkflow.RecommendFood | whereeatai/graphs/travel_workflow.py:145-175 | the same contract for the food stage, called with the derived food input |
| TravelWorkflow.TravelWorkflow.ComparePrices | whereeatai/graphs/travel_workflow.py:177-205 | the same contract for the price stage, called with the derived price input |
| TravelWorkflow.TravelWorkflow.GenerateFinalPlan | whereeatai/graphs/travel_workflow.py:207-239 | the final plan built from the input, the four slots and the errors |
| TravelWorkflow.TravelWorkflow.RunStages | whereeatai/graphs/travel_workflow.py:59-66 | from a fresh state, the stages in graph order leave exactly the run's errors, prompts and four slots |
| TravelWorkflow.TravelWorkflow.Run | whereeatai/graphs/travel_workflow.py:241-296 | the answer and model calls of a run are those of the specification |
| TravelWorkflow.SuccessIff | whereeatai/graphs/travel_workflow.py:275-288 | success exactly when the input is complete and no agent raised; otherwise partial_success listing the errors |
| TravelWorkflow.ErrorsEmpty | whereeatai/graphs/travel_workflow.py:70-205 | no error is recorded exactly when the input is complete and none of the four calls raised |
| TravelWorkflow.PlanSections | whereeatai/graphs/travel_workflow.py:221-230 | each plan section is the "data" entry of its stage's stored result, `{}` when that entry is absent (so after a fault), and the plan lists the errors |
| TravelWorkflow.RejectSection | whereeatai/graphs/travel_workflow.py:101-121 | a recovered validation error leaves its plan section empty and records no workflow error |
| TravelWorkflow.FoodPrompts | whereeatai/agents/food_recommendation_agent.py:42-83 | the food agent makes at most one model call |
| TravelWorkflow.MissingFieldPartial | whereeatai/graphs/travel_workflow.py:70-99 | with a missing field the run is partial_success, the first error names the missing fields, the two first agents make no call, and at most two calls happen |
| TravelWorkflow.FoodFaultPartial | whereeatai/graphs/travel_workflow.py:171-175 | a food fault yields partial_success, an empty food section and the prefixed fault among the errors |
| TravelWorkflow.HappyPath | whereeatai/graphs/travel_workflow.py:241-296 | with complete renderable input and a model that always answers, the run succeeds with four calls and every section holds its agent's data |
| TravelWorkflow.CallCount | whereeatai/graphs/travel_workflow.py:241-296 | four model calls with complete input, two when a required field is missing |
| TravelWorkflow.ContentAnalysisWorkflow.constructor | whereeatai/graphs/travel_workflow.py:301 | the workflow keeps the agent manager it is given |
| TravelWorkflow.ContentAnalysisWorkflow.AnalyzeXiaohongshu | whereeatai/graphs/travel_workflow.py:335-347 | runs the note agent only when note_content is present, storing its data or recording its fault |
| TravelWorkflow.ContentAnalysisWorkflow.AnalyzeVideo | whereeatai/graphs/travel_workflow.py:349-361 | runs the video agent only when video_url is present, storing its data or recording its fault |
| TravelWorkflow.ContentAnalysisWorkflow.ExtractRecommendations | whereeatai/graphs/travel_workflow.py:363-379 | the insights are the two stored results |
| TravelWorkflow.ContentAnalysisWorkflow.Run | whereeatai/graphs/travel_workflow.py:381-413 | the answer and model calls are those of the specification |
| TravelWorkflow.ContentResult | whereeatai/graphs/travel_workflow.py:381-406 | the content analysis answers success with status, message and data, the data holding exactly the two insight entries |
| TravelWorkflow.ContentAnalysisFacts | whereeatai/graphs/travel_workflow.py:381-413 | always success; an absent key means no call and empty insights; an analysed note yields the note and the analysis text |
| RequestMiddleware.Cleaned | whereeatai/middleware/request_middleware.py:75-80 | only the requesting client's log is pruned to the window; all clients are kept |
| RequestMiddleware.Decide | whereeatai/middleware/request_middleware.py:82-89 | a request is refused exactly when the limit check holds; a refusal is 429 "Too many requests" with `Retry-After` the window length; an unknown client is never refused |
| RequestMiddleware.Next | whereeatai/middleware/request_middleware.py:75-94 | the log keeps every client and adds the requester; other clients' logs are unchanged; the requester keeps its recent times in order and gains at most this request; a request let through is appended to the pruned list, which is created if absent |
| RequestMiddleware.RateLimitMiddleware.constructor | whereeatai/middleware/request_middleware.py:56-68 | keeps the limit and window, with no recorded requests |
| RequestMiddleware.RateLimitMiddleware.WithDefaults | whereeatai/middleware/request_middleware.py:56-68 | without arguments the limiter allows 100 requests per 60-second window, with no recorded requests |
| RequestMiddleware.RateLimitMiddleware.Dispatch | whereeatai/middleware/request_middleware.py:70-98 | the decision and new log are those of the specification, and with a limit of at least 1 no client ever holds more than `calls` times |
| RequestMiddleware.PruneKeepsRecent | whereeatai/middleware/request_middleware.py:76-80 | pruning keeps exactly the log's times inside the window |
| RequestMiddleware.BoundKept | whereeatai/middleware/request_middleware.py:83-94 | with a limit of at least 1, a dispatch keeps every client's log within the limit |
| RequestMiddleware.FirstRequestForwarded | whereeatai/middleware/request_middleware.py:91-94 | a client's first request is always passed on and recorded alone |
| RequestMiddleware.OnlyOwnLog | whereeatai/middleware/request_middleware.py:70-98 | a refusal is 429 with `Retry-After` and records nothing, and a forwarded request is recorded last |
| RequestMiddleware.LogStaysInWindow | whereeatai/middleware/request_middleware.py:76-94 | with a positive window, the client's log afterwards holds only times inside the window |
| RequestMiddleware.RefusedIff | whereeatai/middleware/request_middleware.py:83-89 | a known client is refused exactly when it already has `calls` times in the window |
| LegacyAgentManager.NotFound | src/agents/agent_manager.py:50-52 | the not-found answer has only an "error" entry naming the agent |
| LegacyAgentManager.ExecuteAgent | src/agents/agent_manager.py:39-54 | a registered key passes on its agent's result or fault; any other key gives the not-found dictionary without "status" |
| LegacyAgentManager.Step | src/agents/agent_manager.py:68-74 | an unnamed task is skipped, a fault ends the batch, and a result is stored under the task's name |
| LegacyAgentManager.Results | src/agents/agent_manager.py:56-76 | a fault that ends the batch is the fault of the first named task whose call raises, every earlier named task having returned; a returned batch had every named call return |
| LegacyAgentManager.ExecuteMultipleAgents | src/agents/agent_manager.py:56-76 | the loop computes the specification's results |
| LegacyAgentManager.RaisedStays | src/agents/agent_manager.py:56-76 | once a prefix raised, the whole batch raises the same fault |
| LegacyAgentManager.RaisesIff | src/agents/agent_manager.py:56-76 | the batch raises exactly when some named task's call raises |
| LegacyAgentManager.ResultKeys | src/agents/agent_manager.py:56-76 | a returned batch's keys are exactly the names of the named tasks |
| LegacyAgentManager.LastWins | src/agents/agent_manager.py:56-76 | each name holds the result of the last task with that name |
| LegacyAgentManager.UnnamedSkipped | src/agents/agent_manager.py:66-76 | a batch without named tasks calls nothing and returns an empty dictionary |
| LegacyAgentManager.NamesDistinct | src/agents/agent_manager.py:17-25 | the seven registry keys are pairwise different |
| LegacyAgentManager.GetAllAgents | src/agents/agent_manager.py:78-93 | the keys are exactly the seven registry keys, each holding its agent's name and description |
| LegacyTravelWorkflow.FoodInputFacts | src/graphs/travel_workflow.py:81-98 | the food input is the request plus, once the guide has run, its attractions (default []); every other entry unchanged |
| LegacyTravelWorkflow.FirstName | src/graphs/travel_workflow.py:114-117 | nothing for a falsy list; the first recommendation's name (default "") when it is a dictionary; otherwise Python's fault |
| LegacyTravelWorkflow.PriceInput | src/graphs/travel_workflow.py:100-121 | before the food stage the input is the request unchanged |
| LegacyTravelWorkflow.PriceInputFacts | src/graphs/travel_workflow.py:100-121 | product_name is set exactly when there is a first recommendation, and then to its name |
| LegacyTravelWorkflow.FinalPlan | src/graphs/travel_workflow.py:123-145 | the plan has exactly the seven fields |
| LegacyTravelWorkflow.FinalPlanDefaults | src/graphs/travel_workflow.py:123-145 | every field falls back to its default when the stage or field is absent |
| LegacyTravelWorkflow.Store | src/graphs/travel_workflow.py:53-65 | a fault ends the run; a result is stored under its key and nothing else changes |
| LegacyTravelWorkflow.Pipeline | src/graphs/travel_workflow.py:147-161 | the first stage that fails (travel guide, itinerary, food, or price including building its input) is the run's failure, whatever the later agents would do; a run fails only through a failed stage |
| LegacyTravelWorkflow.WorkflowState.constructor | src/graphs/travel_workflow.py:9-15 | a state starts with no messages, input or results |
| LegacyTravelWorkflow.TravelWorkflow.constructor | src/graphs/travel_workflow.py:21-24 | the workflow keeps the agent manager it is given |
| LegacyTravelWorkflow.TravelWorkflow.Record | src/graphs/travel_workflow.py:53-65 | stores a returned result under its key, or reports the fault with the results unchanged |
| LegacyTravelWorkflow.TravelWorkflow.CallTravelGuide | src/graphs/travel_workflow.py:53-65 | runs the travel guide agent on the request and records its outcome |
| LegacyTravelWorkflow.TravelWorkflow.CallItineraryPlanning | src/graphs/travel_workflow.py:67-79 | runs the itinerary agent on the request and records its outcome |
| LegacyTravelWorkflow.TravelWorkflow.CallFoodRecommendation | src/graphs/travel_workflow.py:81-98 | runs the food agent on the food input and records its outcome |
| LegacyTravelWorkflow.TravelWorkflow.CallPriceComparison | src/graphs/travel_workflow.py:100-121 | a fault building the price input ends the stage; otherwise runs the price agent and records its outcome |
| LegacyTravelWorkflow.TravelWorkflow.GenerateFinalPlan | src/graphs/travel_workflow.py:123-145 | adds the final plan built from the stored results |
| LegacyTravelWorkflow.TravelWorkflow.Run | src/graphs/travel_workflow.py:147-161 | the run's results or fault are those of the specification pipeline |
| LegacyTravelWorkflow.StagesComplete | src/graphs/travel_workflow.py:44-49 | in a completed run each stage adds exactly its own key |
| LegacyTravelWorkflow.RunEnds | src/graphs/travel_workflow.py:123-161 | a completed run is the price stage's table plus the final plan built from it |
| LegacyTravelWorkflow.RunKeys | src/graphs/travel_workflow.py:147-161 | a completed run holds exactly the five stage keys, and its final plan is built from the other four |
| LegacyTravelWorkflow.RunInputs | src/graphs/travel_workflow.py:53-98 | in a completed run the guide and itinerary agents saw the request, and the food agent saw the request plus the guide's attractions |
| LegacyTravelWorkflow.GuideFaultEndsRun | src/graphs/travel_workflow.py:53-65 | a travel-guide fault ends the run with that fault, whatever the later agents would do |

## Left out

- Prompt wording. Only the values an agent substitutes into its template are modelled, and every agent's `', '.join` fault is kept.
- The language model is a pure oracle. Identical prompts get identical answers, and retries, latency and the HTTP client are not modelled.
- Concurrency: langgraph's parallel supersteps and its state-merging reducers are not modelled. The graph workflows run their stages sequentially in the topological order of their edges.
- The outer `except` in the graph workflows' `run`. Every stage already catches its agent's faults, so in the model nothing reaches it.
- Identity: `uuid4` message ids become a counter. `datetime.now` and `time.time` become integer `now` parameters, and timestamps are those integers rather than ISO strings.
- Pydantic:
  - the validation-error text is not modelled;
  - A2AProtocol.Protocol.CreateMessage: a timeout outside 1..300 yields an error and logs nothing, instead of raising pydantic's ValidationError;
  - A2AProtocol.Protocol.UpdateAgentStatus: `load` is a `real` and is not re-validated against 0..1.
- `retry_count` bounds are not modelled.
- `str()` of containers is a placeholder text. Only `str` of strings and integers (the `Retry-After` header) is exact.
- Aliasing: registrations and messages are values, so a caller that mutates a returned registration in place is not modelled.
- I/O and glue:
  - logging;
  - the FastAPI routes;
  - configuration loading;
  - `RequestLoggingMiddleware`;
  - the response of `call_next`, which the limiter simply passes on (`Forwarded`).
- The agent classes of the earlier generation under `src/agents/` other than its manager are not part of this model. Their `execute` is an oracle from registry key and input to a result or fault, and their names and descriptions are a parameter.
- LegacyAgentManager.ExecuteMultipleAgents: task names that are not strings, and task lists that are not lists, are not modelled. An explicit `"input_data": None` entry, which the source passes to `execute` as `None`, is modelled like an absent one, as `{}`.
- TravelWorkflow.WorkflowState.constructor: the `messages` field of the state, which no stage reads or writes, is not modelled.
- LegacyTravelWorkflow.WorkflowState.constructor: the unused `messages` field is kept only as an empty sequence.
- TravelWorkflow.ContentAnalysisWorkflow.Run: errors recorded by the two stages are kept in the state but, as in the source, not reported in the answer.
- The agents never register themselves with the protocol registry. The model does not invent that link.

## Findings

| source | as written | input that shows it | evidently intended | confidence | as-written member | corrected member |
|---|---|---|---|---|---|---|
| whereeatai/agents/food_recommendation_agent.py:9-15 with whereeatai/agents/base_agent.py:9 | the food, price, note and video agents pass `agent_id=` to `BaseAgent.__init__`, which takes only a name and a description, so each raises a TypeError and the agent manager cannot be constructed | `AgentManager()` | the base constructor accepts an optional agent id, and every agent is constructed with its name, description and id | not executed | AgentManager.ConstructionFailsAsWritten | AgentManager.ConstructionSucceeds |
