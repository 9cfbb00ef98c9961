/**
 * The headless agent (`backend/agent/main.py`): it registers once per process
 * with the controller and runs every bundle it receives through the execution
 * engine, classifying a step by the exit status of its process.
 *
 * The Socket.IO client is not modelled: an emit is described by whether it
 * raised, and the emitted payload is part of the method's result. The platform
 * probes (`get_client_info`, `get_agent_id`) and the processes a bundle starts
 * are parameters.
 */
module AgentMain {
  import opened Wrappers
  import opened Task
  import opened Helper
  import opened Engine

  /** What running a command did, given its ordinal in the bundle and its text. */
  type ProcessOracle = (nat, string) -> ProcessResult

  /** The step runner of this agent: every kind of step goes through script mode. */
  function ScriptRunner(proc: ProcessOracle): StepRunner {
    (kind: StepKind, i: nat, command: string) =>
      var r := RunCommandInScriptMode(proc(i, command));
      StepResult(r.0, r.1)
  }

  /** The `client_data` of `on_agent_registration`, without the timestamp. */
  datatype ClientData = ClientData(
    agentId: string,
    conversationId: string,
    createdBy: string,
    clientInfo: ClientInfo,
    status: string)

  /** How `register_agent` ended. */
  datatype RegisterResult =
    | AlreadyRegistered               // the guard returned at once
    | IdUnavailable                   // `get_agent_id` reported an error or no identifier
    | EmitRaised(message: string)     // the emit raised; caught and logged
    | Emitted(data: ClientData)       // the registration went out

  /** The `on_command_response` payload, without the timestamps and the duration. */
  datatype MainResponse = MainResponse(
    agentId: Option<string>,
    conversationId: string,
    agentName: Option<string>,
    status: Status,
    outputs: seq<Entry>,
    priority: string,
    createdBy: string)

  /** The status an agent announces when it registers. */
  const OnlineStatus: string := "online"

  class Agent {
    const userId: string
    const conversationId: string
    var isRegistered: bool
    var agentId: Option<string>
    var clientInfo: Option<ClientInfo>

    /** A registered agent has a non-empty identifier and its client information. */
    ghost predicate Valid()
      reads this
    {
      isRegistered ==> Truthy(agentId) && clientInfo.Some?
    }

    /** `Agent.__init__`: unregistered, with neither identifier nor client information yet. */
    constructor (userId: string, conversationId: string)
      ensures Valid()
      ensures this.userId == userId && this.conversationId == conversationId
      ensures !isRegistered && agentId == None && clientInfo == None
    {
      this.userId := userId;
      this.conversationId := conversationId;
      isRegistered := false;
      agentId := None;
      clientInfo := None;
    }

    /**
     * `register_agent`: a registered agent does nothing. Otherwise the client
     * information and the identifier are stored first, whatever the probe said;
     * an error or a missing identifier ends the attempt, and the agent counts as
     * registered only once the emit went out.
     */
    method RegisterAgent(info: ClientInfo, probe: AgentIdProbe, emitError: Option<string>)
      returns (r: RegisterResult)
      requires Valid()
      modifies this
      ensures Valid()
      ensures old(isRegistered) ==>
        r == AlreadyRegistered && isRegistered && agentId == old(agentId) && clientInfo == old(clientInfo)
      ensures !old(isRegistered) ==> clientInfo == Some(info) && agentId == probe.agentId
      ensures !old(isRegistered) && (Truthy(probe.error) || !Truthy(probe.agentId)) ==>
        r == IdUnavailable && !isRegistered
      ensures !old(isRegistered) && !Truthy(probe.error) && Truthy(probe.agentId) && emitError.None? ==>
        r == Emitted(ClientData(probe.agentId.value, conversationId, userId, info, OnlineStatus)) && isRegistered
      ensures !old(isRegistered) && !Truthy(probe.error) && Truthy(probe.agentId) && emitError.Some? ==>
        r == EmitRaised(emitError.value) && !isRegistered
    {
      if isRegistered {
        return AlreadyRegistered;
      }
      clientInfo := Some(info);
      agentId := probe.agentId;
      if Truthy(probe.error) || !Truthy(agentId) {
        return IdUnavailable;
      }
      var data := ClientData(agentId.value, conversationId, userId, info, OnlineStatus);
      match emitError
      case None =>
        isRegistered := true;
        r := Emitted(data);
      case Some(message) =>
        r := EmitRaised(message);
    }

    /**
     * `handle_command`: the bundle runs through the engine with every step in
     * script mode; the response names this agent, its conversation and its host.
     * Before any registration attempt there is no client information and building
     * the response raises, so nothing is sent; a registered agent always answers.
     */
    method HandleCommand(data: Bundle, proc: ProcessOracle) returns (r: Option<MainResponse>)
      requires Valid()
      ensures r.None? <==> clientInfo.None?
      ensures isRegistered ==> r.Some?
      ensures r.Some? ==>
        var e := Execute(data, ScriptRunner(proc));
        r.value == MainResponse(agentId, conversationId, clientInfo.value.hostname,
                                e.status, e.outputs, e.priority, userId)
    {
      var e := RunBundle(data, ScriptRunner(proc));
      if clientInfo.None? {
        return None;
      }
      r := Some(MainResponse(agentId, conversationId, clientInfo.value.hostname,
                             e.status, e.outputs, e.priority, userId));
    }
  }

  /**
   * Under script mode an entry's status is "success" exactly when its process
   * exited with status 0, and its output is what script mode reported for that
   * process: stripped standard output, stripped standard error, the fixed
   * sentinel, or the exception text.
   */
  lemma ScriptEntries(b: Bundle, proc: ProcessOracle)
    ensures var e := Execute(b, ScriptRunner(proc));
      forall k :: 0 <= k < |e.outputs| ==>
        var p := proc(k, e.outputs[k].command);
        && (e.outputs[k].status == Success <==> p.Completed? && p.returnCode == 0)
        && e.outputs[k].output == RunCommandInScriptMode(p).1
  {
    var e := Execute(b, ScriptRunner(proc));
    ExecuteFaithful(b, ScriptRunner(proc));
    forall k | 0 <= k < |e.outputs|
      ensures var p := proc(k, e.outputs[k].command);
        && (e.outputs[k].status == Success <==> p.Completed? && p.returnCode == 0)
        && e.outputs[k].output == RunCommandInScriptMode(p).1
    {
      var x := e.outputs[k];
      assert x == Record(x.kind, x.command, ScriptRunner(proc)(x.kind, k, x.command));
    }
  }

  /**
   * The run fails exactly when some process other than a precondition test did
   * not exit with status 0.
   */
  lemma ScriptStatus(b: Bundle, proc: ProcessOracle)
    ensures var e := Execute(b, ScriptRunner(proc));
      e.status == Failure <==>
        exists k :: 0 <= k < |e.outputs| && e.outputs[k].kind != PreconditionTest &&
          !(proc(k, e.outputs[k].command).Completed? && proc(k, e.outputs[k].command).returnCode == 0)
  {
    ExecuteStatus(b, ScriptRunner(proc));
    ScriptEntries(b, proc);
  }
}
