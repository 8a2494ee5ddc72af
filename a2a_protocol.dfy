/**
 * The agent-to-agent protocol (whereeatai/protocols/a2a_protocol.py): the
 * message and registration records and the `A2AProtocol` registry, which
 * keeps the registered agents in a dictionary and every created message in
 * an append-only history.
 *
 * Message ids (uuid4) are drawn from a counter, and the clock is a `now`
 * parameter of the operations that read it.
 */
module A2AProtocol {
  import opened Values
  import opened Seqs

  datatype MessageType = Request | Response | Notification | Error

  datatype Priority = High | Medium | Low

  datatype ActionType = Execute | Query | Update | Cancel

  datatype AgentStatus = Active | Busy | Idle | Error | Offline

  /** `A2AMessageMetadata` */
  datatype Metadata = Metadata(priority: Priority, timeout: int, retryCount: int,
                               correlationId: Option<string>, tags: seq<string>)

  /** The field bounds pydantic enforces when a `Metadata` is built. */
  predicate ValidMetadata(m: Metadata)
  {
    1 <= m.timeout <= 300 && 0 <= m.retryCount <= 10
  }

  const DefaultTimeout := 30
  const DefaultRetryCount := 3

  /**
   * `A2AMessageMetadata(priority=priority, timeout=timeout)`: the remaining
   * fields take their defaults, and a timeout outside 1..300 is a
   * ValidationError.
   */
  function MakeMetadata(priority: Priority, timeout: int): (r: Result<Metadata>)
    ensures r.Ok? <==> 1 <= timeout <= 300
    ensures r.Ok? ==> ValidMetadata(r.value) && r.value.priority == priority && r.value.timeout == timeout
    ensures r.Ok? ==> r.value.retryCount == 3 && r.value.correlationId.None? && r.value.tags == []
  {
    if timeout < 1 then Err("timeout: Input should be greater than or equal to 1")
    else if timeout > 300 then Err("timeout: Input should be less than or equal to 300")
    else Ok(Metadata(priority, timeout, DefaultRetryCount, None, []))
  }

  /** `A2AMessagePayload` */
  datatype Payload = Payload(action: ActionType, data: Dict, context: Dict)

  /** `A2AMessage`, with its uuid replaced by a number. */
  datatype Message = Message(messageId: nat, sender: string, receiver: string, timestamp: int,
                             messageType: MessageType, payload: Payload, metadata: Metadata)

  /** `AgentCapability` */
  datatype Capability = Capability(name: string, description: string, inputSchema: Dict,
                                   outputSchema: Dict, estimatedDuration: int)

  /** `AgentRegistration` */
  datatype Registration = Registration(agentId: string, agentName: string, description: string,
                                       capabilities: seq<Capability>, status: AgentStatus,
                                       load: real, lastHeartbeat: int, metadata: Dict)

  function IdOf(r: Registration): string
  {
    r.agentId
  }

  function Ident(s: string): string
  {
    s
  }

  predicate Differs(x: string, y: string)
  {
    x != y
  }

  predicate HasStatus(r: Registration, s: AgentStatus)
  {
    r.status == s
  }

  /** Some capability of the agent has this name. */
  predicate HasCapability(r: Registration, name: string)
  {
    exists k :: 0 <= k < |r.capabilities| && r.capabilities[k].name == name
  }

  /** Any two registrations of `rs` have their ids at increasing positions of `ids`. */
  ghost predicate InIdOrder(rs: seq<Registration>, ids: seq<string>)
  {
    forall i, j :: 0 <= i < j < |rs| ==> Precedes(ids, rs[i].agentId, rs[j].agentId)
  }

  /** The message is from or to the agent. */
  predicate Involves(m: Message, agentId: string)
  {
    m.sender == agentId || m.receiver == agentId
  }

  /** The registrations of `ids`, in that order. */
  function ValuesIn(ids: seq<string>, agents: map<string, Registration>): (rs: seq<Registration>)
    requires forall i :: 0 <= i < |ids| ==> ids[i] in agents
    ensures |rs| == |ids|
    ensures forall i :: 0 <= i < |ids| ==> rs[i] == agents[ids[i]]
  {
    seq(|ids|, i requires 0 <= i < |ids| => agents[ids[i]])
  }

  /** `context or {}` */
  function ContextOr(context: Option<Dict>): Dict
  {
    if context.Some? then context.value else map[]
  }

  /** `A2AProtocol` */
  class Protocol {
    /** The keys of `registered_agents` in insertion order. */
    var order: seq<string>
    /** `registered_agents` */
    var agents: map<string, Registration>
    /** `message_history` */
    var history: seq<Message>
    /** The next message id to hand out. */
    var nextId: nat

    ghost predicate Valid()
      reads this
    {
      DistinctBy(order, Ident) &&
      (forall id :: id in agents <==> id in order) &&
      (forall id :: id in agents ==> agents[id].agentId == id) &&
      (forall i :: 0 <= i < |history| ==> history[i].messageId < nextId) &&
      (forall i, j :: 0 <= i < j < |history| ==> history[i].messageId < history[j].messageId)
    }

    constructor ()
      ensures Valid()
      ensures order == [] && agents == map[] && history == [] && nextId == 0
    {
      order := [];
      agents := map[];
      history := [];
      nextId := 0;
    }

    /** `list(registered_agents.values())`: every registration once, in registration order. */
    function Registered(): (rs: seq<Registration>)
      reads this
      requires Valid()
      ensures |rs| == |order| == |agents|
      ensures forall i :: 0 <= i < |rs| ==> rs[i] == agents[order[i]] && rs[i].agentId == order[i]
      ensures forall id :: id in agents ==> agents[id] in rs
      ensures DistinctBy(rs, IdOf)
    {
      DistinctCard(order, agents.Keys);
      var rs := ValuesIn(order, agents);
      assert forall id :: id in agents ==> agents[id] in rs by {
        forall id | id in agents ensures agents[id] in rs {
          var i :| 0 <= i < |order| && order[i] == id;
          assert rs[i] == agents[id];
        }
      }
      rs
    }

    /**
     * `register_agent`: stores the registration under its id, replacing an
     * earlier one with that id in place, and always reports success.
     */
    method RegisterAgent(registration: Registration) returns (ok: bool)
      requires Valid()
      modifies this
      ensures Valid() && ok
      ensures agents == old(agents)[registration.agentId := registration]
      ensures order == if registration.agentId in old(agents) then old(order) else old(order) + [registration.agentId]
      ensures history == old(history) && nextId == old(nextId)
    {
      var id := registration.agentId;
      if id !in agents {
        order := order + [id];
      }
      agents := agents[id := registration];
      ok := true;
    }

    /** `unregister_agent`: removes the id if it is registered and says whether it was. */
    method UnregisterAgent(agentId: string) returns (ok: bool)
      requires Valid()
      modifies this
      ensures Valid()
      ensures ok <==> agentId in old(agents)
      ensures agents == old(agents) - {agentId}
      ensures order == Filter(old(order), Differs, agentId)
      ensures history == old(history) && nextId == old(nextId)
    {
      ok := agentId in agents;
      UnregisterKeepsValid(order, agents, agentId);
      if ok {
        order := Filter(order, Differs, agentId);
        agents := agents - {agentId};
      }
    }

    /** `get_agent_info`: the registration stored under the id, if any. */
    function GetAgentInfo(agentId: string): (r: Option<Registration>)
      reads this
      requires Valid()
      ensures r.Some? <==> agentId in agents
      ensures r.Some? ==> r.value == agents[agentId] && r.value.agentId == agentId
    {
      if agentId in agents then Some(agents[agentId]) else None
    }

    /**
     * `list_agents`: every registration in registration order, or only those
     * with the given status (every status is truthy, so only `None` disables
     * the filter).
     */
    function ListAgents(status: Option<AgentStatus>): (rs: seq<Registration>)
      reads this
      requires Valid()
      ensures forall i :: 0 <= i < |rs| ==> rs[i] in Registered() && (status.Some? ==> rs[i].status == status.value)
      ensures forall id :: id in agents && (status.None? || agents[id].status == status.value) ==> agents[id] in rs
      ensures DistinctBy(rs, IdOf)
      // the registrations come back in registration order
      ensures InIdOrder(rs, order)
      ensures status.None? ==> rs == Registered()
    {
      if status.None? then
        AllInIdOrder(order, Registered());
        Registered()
      else
        FilterIdsOrder(order, Registered(), HasStatus, status.value);
        RegisteredFilter(HasStatus, status.value);
        Filter(Registered(), HasStatus, status.value)
    }

    /**
     * `find_agent_by_capability`: the agents, in registration order, having
     * a capability of that name; an agent with several such capabilities is
     * listed once.
     */
    method FindAgentByCapability(capabilityName: string) returns (result: seq<Registration>)
      requires Valid()
      ensures result == Filter(Registered(), HasCapability, capabilityName)
    {
      result := WithCapability(Registered(), capabilityName);
    }

    /**
     * Filtering the registrations by any condition yields registered agents
     * meeting it, every registered agent meeting it, and no agent twice.
     */
    lemma RegisteredFilter<A>(p: (Registration, A) -> bool, a: A)
      requires Valid()
      ensures forall i :: 0 <= i < |Filter(Registered(), p, a)| ==>
        Filter(Registered(), p, a)[i] in Registered() && p(Filter(Registered(), p, a)[i], a)
      ensures forall id :: id in agents && p(agents[id], a) ==> agents[id] in Filter(Registered(), p, a)
      ensures DistinctBy(Filter(Registered(), p, a), IdOf)
    {
      var all := Registered();
      FilterDistinct(all, p, a, IdOf);
      FilterMembers(all, p, a);
      forall id | id in agents && p(agents[id], a) ensures agents[id] in Filter(all, p, a) {
        var i :| 0 <= i < |all| && all[i] == agents[id];
      }
    }

    /**
     * `create_message`: builds the message with a fresh id and the current
     * time and appends it to the history. An out-of-range timeout makes the
     * metadata constructor raise before anything is recorded.
     */
    method CreateMessage(sender: string, receiver: string, messageType: MessageType, action: ActionType,
                         data: Dict, context: Option<Dict>, priority: Priority, timeout: int, now: int)
      returns (r: Result<Message>)
      requires Valid()
      modifies this
      ensures Valid()
      ensures order == old(order) && agents == old(agents)
      ensures r.Ok? <==> 1 <= timeout <= 300
      ensures r.Ok? ==> r.value == Message(old(nextId), sender, receiver, now, messageType,
                                            Payload(action, data, ContextOr(context)),
                                            Metadata(priority, timeout, DefaultRetryCount, None, []))
      ensures r.Ok? ==> history == old(history) + [r.value] && nextId == old(nextId) + 1
      ensures r.Err? ==> history == old(history) && nextId == old(nextId)
    {
      var metadata := MakeMetadata(priority, timeout);
      if metadata.Err? {
        return Err(metadata.error);
      }
      var message := Message(nextId, sender, receiver, now, messageType,
                             Payload(action, data, ContextOr(context)), metadata.value);
      history := history + [message];
      nextId := nextId + 1;
      r := Ok(message);
    }

    /**
     * `send_message`: a simulated delivery that only checks the receiver is
     * registered and not offline; it records nothing.
     */
    function SendMessage(m: Message): (r: Dict)
      reads this
      ensures "status" in r
      ensures r["status"] == Str("success") <==> m.receiver in agents && agents[m.receiver].status != AgentStatus.Offline
      ensures m.receiver !in agents ==> r == map["status" := Str("error"), "message" := Str("接收者Agent不存在: " + m.receiver)]
      ensures m.receiver in agents && agents[m.receiver].status == AgentStatus.Offline ==>
        r == map["status" := Str("error"), "message" := Str("接收者Agent离线: " + m.receiver)]
      ensures r["status"] == Str("success") ==>
        r == map["status" := Str("success"), "message_id" := Int(m.messageId), "timestamp" := Int(m.timestamp)]
    {
      if m.receiver !in agents then
        map["status" := Str("error"), "message" := Str("接收者Agent不存在: " + m.receiver)]
      else if agents[m.receiver].status == AgentStatus.Offline then
        map["status" := Str("error"), "message" := Str("接收者Agent离线: " + m.receiver)]
      else
        map["status" := Str("success"), "message_id" := Int(m.messageId), "timestamp" := Int(m.timestamp)]
    }

    /** Delivery depends on the receiver only: not on the sender, type, payload or metadata. */
    lemma SendDependsOnReceiverOnly(m: Message, other: Message)
      requires other.receiver == m.receiver && other.messageId == m.messageId && other.timestamp == m.timestamp
      ensures SendMessage(other) == SendMessage(m)
    {
    }

    /**
     * `update_agent_status`: a registered agent gets the new status, a fresh
     * heartbeat and, when one is given, the new load (assignment is not
     * validated, so the load is not range-checked); an unknown id changes
     * nothing.
     */
    method UpdateAgentStatus(agentId: string, status: AgentStatus, load: Option<real>, now: int)
      requires Valid()
      modifies this
      ensures Valid()
      ensures agentId !in old(agents) ==> agents == old(agents)
      ensures agentId in old(agents) ==>
        agents == old(agents)[agentId := old(agents)[agentId].(status := status, lastHeartbeat := now,
                                  load := if load.Some? then load.value else old(agents)[agentId].load)]
      ensures order == old(order) && history == old(history) && nextId == old(nextId)
    {
      if agentId in agents {
        var reg := agents[agentId];
        reg := reg.(status := status, lastHeartbeat := now);
        if load.Some? {
          reg := reg.(load := load.value);
        }
        agents := agents[agentId := reg];
      }
    }

    /** The messages `get_message_history` selects before cutting: those from or to a truthy id, else all. */
    function Selected(agentId: Option<string>): seq<Message>
      reads this
    {
      if agentId.Some? && agentId.value != "" then Filter(history, Involves, agentId.value) else history
    }

    /** `get_message_history`: the selected messages cut to `messages[-limit:]`. */
    function GetMessageHistory(agentId: Option<string>, limit: int): (ms: seq<Message>)
      reads this
      ensures IsSuffix(ms, Selected(agentId))
      ensures limit > 0 ==> |ms| == Min(limit, |Selected(agentId)|)
      ensures limit == 0 ==> ms == Selected(agentId)
      ensures limit < 0 ==> |ms| == |Selected(agentId)| - Min(-limit, |Selected(agentId)|)
    {
      TailSlice(Selected(agentId), limit)
    }

    /**
     * The history query returns logged messages only, and with a truthy id
     * only messages from or to that agent; without one, the newest `limit`.
     */
    lemma HistoryMembers(agentId: Option<string>, limit: int)
      ensures forall i :: 0 <= i < |GetMessageHistory(agentId, limit)| ==> GetMessageHistory(agentId, limit)[i] in history
      ensures agentId.Some? && agentId.value != "" ==>
        forall i :: 0 <= i < |GetMessageHistory(agentId, limit)| ==> Involves(GetMessageHistory(agentId, limit)[i], agentId.value)
      ensures (agentId.None? || agentId.value == "") && limit > 0 ==>
        GetMessageHistory(agentId, limit) == history[|history| - Min(limit, |history|)..]
    {
      var sel := Selected(agentId);
      var ms := GetMessageHistory(agentId, limit);
      FilterMembers(history, Involves, if agentId.Some? then agentId.value else "");
      forall i | 0 <= i < |ms| ensures ms[i] in history && (agentId.Some? && agentId.value != "" ==> Involves(ms[i], agentId.value)) {
        assert ms[i] == sel[|sel| - |ms| + i];
      }
    }
  }

  /** Whether one of the agent's capabilities has the name: the inner loop of the capability search. */
  method Offers(agent: Registration, capabilityName: string) returns (found: bool)
    ensures found == HasCapability(agent, capabilityName)
  {
    found := false;
    var j := 0;
    while j < |agent.capabilities|
      invariant 0 <= j <= |agent.capabilities|
      invariant forall k :: 0 <= k < j ==> agent.capabilities[k].name != capabilityName
    {
      if agent.capabilities[j].name == capabilityName {
        found := true;
        break;
      }
      j := j + 1;
    }
  }

  /** The agents with a capability of that name, in their order, each once: the outer loop of the capability search. */
  method WithCapability(all: seq<Registration>, capabilityName: string) returns (result: seq<Registration>)
    ensures result == Filter(all, HasCapability, capabilityName)
  {
    result := [];
    var i := 0;
    while i < |all|
      invariant 0 <= i <= |all|
      invariant result == Filter(all[..i], HasCapability, capabilityName)
    {
      var found := Offers(all[i], capabilityName);
      if found {
        result := result + [all[i]];
      }
      FilterSingleton(all[i], HasCapability, capabilityName);
      FilterAppend(all[..i], [all[i]], HasCapability, capabilityName);
      assert all[..i + 1] == all[..i] + [all[i]];
      i := i + 1;
    }
    assert all[..|all|] == all;
  }

  /**
   * Filtering registrations listed in the order of `ids` keeps that order:
   * any two kept registrations have their ids at increasing positions.
   */
  lemma FilterIdsOrder<A>(ids: seq<string>, all: seq<Registration>, p: (Registration, A) -> bool, a: A)
    requires |all| == |ids| && forall k :: 0 <= k < |all| ==> all[k].agentId == ids[k]
    ensures InIdOrder(Filter(all, p, a), ids)
  {
    var r := Filter(all, p, a);
    FilterOrder(all, p, a);
    forall i, j | 0 <= i < j < |r|
      ensures Precedes(ids, r[i].agentId, r[j].agentId)
    {
      var ri, rj := r[i], r[j];
      assert Precedes(all, ri, rj);
      var x, y :| 0 <= x < y < |all| && all[x] == ri && all[y] == rj;
      assert ids[x] == r[i].agentId && ids[y] == r[j].agentId;
    }
  }

  /** Registrations listed in the order of `ids` are in that order. */
  lemma AllInIdOrder(ids: seq<string>, all: seq<Registration>)
    requires |all| == |ids| && forall k :: 0 <= k < |all| ==> all[k].agentId == ids[k]
    ensures InIdOrder(all, ids)
  {
    forall i, j | 0 <= i < j < |all|
      ensures Precedes(ids, all[i].agentId, all[j].agentId)
    {
      assert ids[i] == all[i].agentId && ids[j] == all[j].agentId;
    }
  }

  /** Filtering one id out of a repeat-free list of a set's elements lists the rest of the set. */
  lemma RemoveKeepsOthers(s: seq<string>, keys: set<string>, x: string)
    requires DistinctBy(s, Ident)
    requires forall y :: y in keys <==> y in s
    ensures DistinctBy(Filter(s, Differs, x), Ident)
    ensures forall y :: y in keys - {x} <==> y in Filter(s, Differs, x)
  {
    FilterDistinct(s, Differs, x, Ident);
    FilterMembers(s, Differs, x);
    var rest := Filter(s, Differs, x);
    forall y ensures y in keys - {x} <==> y in rest {
      if y in rest {
        var i :| 0 <= i < |rest| && rest[i] == y;
      }
      if y in keys - {x} {
        var i :| 0 <= i < |s| && s[i] == y;
        assert Differs(s[i], x);
      }
    }
  }

  /**
   * Removing an id from a registry whose order lists its keys without
   * repeats keeps that so, and removing an id that is not registered
   * changes nothing.
   */
  lemma UnregisterKeepsValid(order: seq<string>, agents: map<string, Registration>, x: string)
    requires DistinctBy(order, Ident)
    requires forall id :: id in agents <==> id in order
    requires forall id :: id in agents ==> agents[id].agentId == id
    ensures DistinctBy(Filter(order, Differs, x), Ident)
    ensures forall id :: id in agents - {x} <==> id in Filter(order, Differs, x)
    ensures forall id :: id in agents - {x} ==> (agents - {x})[id].agentId == id
    ensures x !in agents ==> Filter(order, Differs, x) == order
  {
    RemoveKeepsOthers(order, agents.Keys, x);
    if x !in agents {
      FilterAll(order, Differs, x);
    }
  }

  /** A sequence without repeats whose elements are exactly a set's has the set's size. */
  lemma {:induction false} DistinctCard(s: seq<string>, keys: set<string>)
    requires DistinctBy(s, Ident)
    requires forall x :: x in keys <==> x in s
    ensures |s| == |keys|
  {
    if s != [] {
      var rest := s[1..];
      assert DistinctBy(rest, Ident) by {
        forall i, j | 0 <= i < j < |rest| ensures Ident(rest[i]) != Ident(rest[j]) {
          assert rest[i] == s[i + 1] && rest[j] == s[j + 1];
        }
      }
      forall x ensures x in keys - {s[0]} <==> x in rest {
        if x in rest {
          var k :| 0 <= k < |rest| && rest[k] == x;
          assert s[k + 1] == x;
          assert Ident(s[0]) != Ident(s[k + 1]);
        }
        if x in keys - {s[0]} {
          var k :| 0 <= k < |s| && s[k] == x;
          assert k != 0;
          assert rest[k - 1] == x;
        }
      }
      DistinctCard(rest, keys - {s[0]});
    }
  }

  /** Registering two registrations under one id keeps one entry, holding the second. */
  method RegisterTwice(p: Protocol, first: Registration, second: Registration)
    requires p.Valid() && first.agentId == second.agentId
    modifies p
    ensures p.Valid()
    ensures p.agents == old(p.agents)[second.agentId := second]
    ensures |p.order| == |old(p.order)| + (if second.agentId in old(p.agents) then 0 else 1)
  {
    var ok1 := p.RegisterAgent(first);
    var ok2 := p.RegisterAgent(second);
  }

  /**
   * Sending to an agent that is not registered fails, yet the message has
   * already entered the history when it was created.
   */
  method CreateAndSend(p: Protocol, sender: string, receiver: string, data: Dict, now: int)
    returns (sent: Option<Dict>)
    requires p.Valid()
    modifies p
    ensures p.Valid()
    ensures sent.Some? && "status" in sent.value
    ensures receiver !in p.agents ==> sent.value["status"] == Str("error")
    ensures |p.history| == |old(p.history)| + 1 && p.history[|p.history| - 1].receiver == receiver
  {
    var m := p.CreateMessage(sender, receiver, MessageType.Request, ActionType.Execute, data, None,
                             Priority.Medium, DefaultTimeout, now);
    sent := Some(p.SendMessage(m.value));
  }

  /** After an agent is unregistered, messages to it are refused as unknown. */
  method UnregisterThenSend(p: Protocol, m: Message) returns (sent: Dict)
    requires p.Valid()
    modifies p
    ensures p.Valid()
    ensures sent == map["status" := Str("error"), "message" := Str("接收者Agent不存在: " + m.receiver)]
  {
    var ok := p.UnregisterAgent(m.receiver);
    sent := p.SendMessage(m);
  }
}
