/**
 * The controller's session registry: `connected_agents` maps an agent's
 * identifier to the Socket.IO session it registered from. Registration
 * binds (last writer wins); a disconnect finds the agent by a reverse lookup
 * on the session and unbinds it.
 *
 * The agent repository and the broadcast are not modelled as effects: how
 * `upsert_agent` and `sio.emit` ended are parameters, and the notice the
 * handler emits is part of its result.
 */
module AgentEvents {
  import opened Wrappers
  import opened Dicts
  import opened Helper

  /** The fields of an `on_agent_registration` payload that the controller reads. */
  datatype Registration = Registration(
    agentId: Option<string>,
    conversationId: Option<string>,
    createdBy: Option<string>,
    clientInfo: Option<ClientInfo>,
    status: Option<string>)

  /** How a call to `agent_repository.upsert_agent` or to `sio.emit` ended. */
  datatype CallOutcome =
    | Returned
    | RaisedValueError(message: string)  // caught and logged by the handler
    | RaisedOther(message: string)       // any other exception: it escapes the handler

  /** The `{"agent_id", "status"}` notice a disconnect broadcasts. */
  datatype StatusNotice = StatusNotice(agentId: string, status: string)

  /** What `handle_agent_registration` did, and what it broadcast. */
  datatype RegistrationResult =
    | MissingAgentId                    // logged; nothing else happens
    | ValidationFailed                  // `AgentModel(**data)` raised; it escapes the handler
    | StoreRejected(message: string)    // upsert raised `ValueError`
    | StoreCrashed(message: string)     // upsert raised something else; it escapes the handler
    | Registered(notice: Registration)  // bound, then the validated agent went out on
                                        // `handle_agent_to_conversation_connection`
    | BroadcastRejected(message: string)  // bound; the emit raised `ValueError`
    | BroadcastCrashed(message: string)   // bound; the emit raised something else; it escapes

  /** What `handle_client_disconnect` did, and what it broadcast. */
  datatype DisconnectResult =
    | NoAgentForSid                     // logged as a warning; nothing else happens
    | MarkedOffline(notice: StatusNotice)                 // unbound, stored offline, notice broadcast
    | OfflineNotStored(agentId: string, message: string)  // unbound; upsert raised `ValueError`
    | OfflineCrashed(agentId: string, message: string)    // unbound; upsert raised something else
    | OfflineNotBroadcast(agentId: string, message: string)     // unbound, stored; the emit raised `ValueError`
    | OfflineBroadcastCrashed(agentId: string, message: string) // unbound, stored; the emit raised something else

  /** The status a disconnect writes for the agent and broadcasts. */
  const OfflineStatus: string := "offline"

  /** The module-level `connected_agents` dictionary. */
  class Registry {
    var agents: Dict

    /** A dictionary (keys unique) whose keys are the non-empty identifiers that registered. */
    ghost predicate Valid()
      reads this
    {
      UniqueKeys(agents) && forall k :: 0 <= k < |agents| ==> agents[k].0 != ""
    }

    /** `connected_agents = {}`. */
    constructor ()
      ensures Valid() && agents == []
    {
      agents := [];
    }

    /**
     * `handle_agent_registration`: an absent or empty `agent_id` is refused before
     * anything else; the binding `agent_id -> sid` is written only after validation
     * and the upsert succeeded, and it replaces any earlier session of that agent.
     * The broadcast comes after the binding, so the binding stays however it ends.
     */
    method HandleAgentRegistration(sid: string, data: Registration, validates: bool,
                                   store: CallOutcome, broadcast: CallOutcome)
      returns (r: RegistrationResult)
      requires Valid()
      modifies this
      ensures Valid()
      ensures !Truthy(data.agentId) ==> r == MissingAgentId && agents == old(agents)
      ensures Truthy(data.agentId) && !validates ==> r == ValidationFailed && agents == old(agents)
      ensures Truthy(data.agentId) && validates && store.RaisedValueError? ==>
        r == StoreRejected(store.message) && agents == old(agents)
      ensures Truthy(data.agentId) && validates && store.RaisedOther? ==>
        r == StoreCrashed(store.message) && agents == old(agents)
      ensures Truthy(data.agentId) && validates && store.Returned? ==>
        && agents == Put(old(agents), data.agentId.value, sid)
        && r == match broadcast
                case Returned => Registered(data)
                case RaisedValueError(m) => BroadcastRejected(m)
                case RaisedOther(m) => BroadcastCrashed(m)
    {
      if !Truthy(data.agentId) {
        return MissingAgentId;
      }
      var agentId := data.agentId.value;
      if !validates {
        return ValidationFailed;
      }
      match store
      case RaisedValueError(message) =>
        r := StoreRejected(message);
      case RaisedOther(message) =>
        r := StoreCrashed(message);
      case Returned =>
        PutUnique(agents, agentId, sid);
        PutKeysNonEmpty(agents, agentId, sid);
        agents := Put(agents, agentId, sid);
        match broadcast
        case Returned =>
          r := Registered(data);
        case RaisedValueError(m) =>
          r := BroadcastRejected(m);
        case RaisedOther(m) =>
          r := BroadcastCrashed(m);
    }

    /**
     * `handle_client_disconnect`: the first agent (in insertion order) bound to
     * `sid` is unbound before its offline status is stored; the offline notice
     * is attempted only when the store succeeded, and how it ended is reported.
     * A session bound to no agent changes nothing.
     */
    method HandleClientDisconnect(sid: string, store: CallOutcome, broadcast: CallOutcome)
      returns (r: DisconnectResult)
      requires Valid()
      modifies this
      ensures Valid()
      ensures KeyOf(old(agents), sid).None? ==> r == NoAgentForSid && agents == old(agents)
      ensures KeyOf(old(agents), sid).Some? ==>
        var agentId := KeyOf(old(agents), sid).value;
        && agents == Remove(old(agents), agentId)
        && r == match store
                case RaisedValueError(m) => OfflineNotStored(agentId, m)
                case RaisedOther(m) => OfflineCrashed(agentId, m)
                case Returned =>
                  match broadcast
                  case Returned => MarkedOffline(StatusNotice(agentId, OfflineStatus))
                  case RaisedValueError(m) => OfflineNotBroadcast(agentId, m)
                  case RaisedOther(m) => OfflineBroadcastCrashed(agentId, m)
    {
      var agentId := KeyOf(agents, sid);
      if agentId.Some? && agentId.value != "" {
        RemoveUnique(agents, agentId.value);
        RemoveKeysNonEmpty(agents, agentId.value);
        agents := Remove(agents, agentId.value);
        match store
        case RaisedValueError(m) =>
          r := OfflineNotStored(agentId.value, m);
        case RaisedOther(m) =>
          r := OfflineCrashed(agentId.value, m);
        case Returned =>
          match broadcast
          case Returned =>
            r := MarkedOffline(StatusNotice(agentId.value, OfflineStatus));
          case RaisedValueError(m) =>
            r := OfflineNotBroadcast(agentId.value, m);
          case RaisedOther(m) =>
            r := OfflineBroadcastCrashed(agentId.value, m);
      } else {
        r := NoAgentForSid;
      }
    }
  }

  /** Binding a non-empty identifier keeps every key non-empty. */
  lemma {:induction false} PutKeysNonEmpty(d: Dict, k: string, v: string)
    requires k != "" && forall i :: 0 <= i < |d| ==> d[i].0 != ""
    ensures forall i :: 0 <= i < |Put(d, k, v)| ==> Put(d, k, v)[i].0 != ""
    decreases |d|
  {
    if d != [] && d[0].0 != k {
      PutKeysNonEmpty(d[1..], k, v);
    }
  }

  /** Unbinding keeps every key non-empty. */
  lemma {:induction false} RemoveKeysNonEmpty(d: Dict, k: string)
    requires forall i :: 0 <= i < |d| ==> d[i].0 != ""
    ensures forall i :: 0 <= i < |Remove(d, k)| ==> Remove(d, k)[i].0 != ""
    decreases |d|
  {
    if d != [] && d[0].0 != k {
      RemoveKeysNonEmpty(d[1..], k);
    }
  }

  /**
   * Last writer wins: after two registrations of the same agent from two
   * sessions the agent resolves to the later one, and the agent keeps the
   * position it had in the dictionary.
   */
  lemma LastRegistrationWins(d: Dict, agentId: string, first: string, second: string)
    ensures Get(Put(Put(d, agentId, first), agentId, second), agentId) == Some(second)
    ensures Keys(Put(Put(d, agentId, first), agentId, second)) == Keys(Put(d, agentId, first))
  {
    GetPut(Put(d, agentId, first), agentId, second, agentId);
    KeysPut(Put(d, agentId, first), agentId, second);
    GetPut(d, agentId, first, agentId);
  }

  /**
   * A disconnect unbinds exactly the first entry (in insertion order) whose
   * session is `sid`; every other entry stays, in its order.
   */
  lemma DisconnectRemovesFirstMatch(d: Dict, sid: string, i: nat)
    requires UniqueKeys(d)
    requires i < |d| && d[i].1 == sid && forall j :: 0 <= j < i ==> d[j].1 != sid
    ensures KeyOf(d, sid) == Some(d[i].0)
    ensures Remove(d, d[i].0) == d[..i] + d[i + 1..]
  {
    KeyOfFirst(d, sid, i);
    RemoveAt(d, d[i].0, i);
  }

  /**
   * A stale disconnect: once an agent has re-registered from a new session, the
   * late disconnect of its old session leaves the new binding in place.
   */
  lemma StaleDisconnectKeepsNewBinding(d: Dict, agentId: string, oldSid: string, newSid: string)
    requires UniqueKeys(d) && oldSid != newSid
    ensures var bound := Put(d, agentId, newSid);
      var gone := KeyOf(bound, oldSid);
      && (gone.Some? ==> gone.value != agentId)
      && Get(if gone.Some? then Remove(bound, gone.value) else bound, agentId) == Some(newSid)
  {
    var bound := Put(d, agentId, newSid);
    PutUnique(d, agentId, newSid);
    GetPut(d, agentId, newSid, agentId);
    var gone := KeyOf(bound, oldSid);
    if gone.Some? {
      var i :| 0 <= i < |bound| && bound[i] == (gone.value, oldSid) && forall j :: 0 <= j < i ==> bound[j].1 != oldSid;
      if gone.value == agentId {
        GetAt(bound, i);
      }
      GetRemove(bound, gone.value, agentId);
    }
  }

  /** On unique keys, the entry at position `i` is what its key resolves to. */
  lemma {:induction false} GetAt(d: Dict, i: nat)
    requires UniqueKeys(d) && i < |d|
    ensures Get(d, d[i].0) == Some(d[i].1)
    decreases |d|
  {
    if i > 0 {
      assert UniqueKeys(d[1..]);
      assert d[0].0 != d[i].0;
      GetAt(d[1..], i - 1);
    }
  }
}
