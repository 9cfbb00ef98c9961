/**
 * The desktop agent (`backend/agent/agent_ui_app.py`): a window holding an
 * `agent_details` dictionary, buttons to connect and disconnect, and the same
 * three-phase handler for bundles as the headless agent, except that a step is
 * classified by words in its output rather than by its exit status.
 *
 * The Socket.IO client and the Qt widgets are not modelled: a connect,
 * disconnect or emit is described by whether (and how) it raised, a message box
 * or a log line is not represented, and the text a step printed is a parameter.
 */
module AgentUi {
  import opened Wrappers
  import opened Text
  import opened Dicts
  import opened Task
  import opened Helper
  import opened Engine

  /** The text a step printed, given its ordinal in the bundle and its command. */
  type OutputOracle = (nat, string) -> string

  /**
   * The step runner of this agent: a solve succeeds only when its output mentions
   * "success"; any other step fails only when its output mentions "failure"
   * (both ignoring case).
   */
  function UiRunner(out: OutputOracle): StepRunner {
    (kind: StepKind, i: nat, command: string) =>
      var o := out(i, command);
      StepResult(if kind == PreconditionSolve then Contains(Lower(o), "success")
                 else !Contains(Lower(o), "failure"), o)
  }

  /** How a call into the Socket.IO client ended. */
  datatype CallOutcome =
    | CallOk
    | RequestError(message: string)  // a `requests.exceptions.RequestException`
    | OtherError(message: string)    // any other exception

  datatype ConnectResult = AlreadyConnected | ConnectFailed | Connected
  datatype DisconnectResult = NotConnected | DisconnectFailed | Disconnected

  /** The `client_data` of `on_agent_registration`, without the timestamp. */
  datatype ClientData = ClientData(
    agentId: string,
    conversationId: Option<string>,
    createdBy: Option<string>,
    clientInfo: ClientInfo,
    status: string)

  /** How `register_agent` ended. */
  datatype RegisterResult =
    | AlreadyRegistered
    | IdUnavailable(error: Option<string>)  // shown in the error box
    | Registered(data: ClientData)          // the registration went out
    | SendFailed(message: string)           // a request exception, caught and shown
    | SendCrashed(message: string)          // any other exception escapes the handler

  /** The `on_command_response` payload, without the timestamps and the duration. */
  datatype UiResponse = UiResponse(
    agentId: Option<string>,
    conversationId: string,
    status: Status,
    outputs: seq<Entry>,
    priority: string,
    createdBy: string)

  /** Some step of the bundle runs: a precondition with a non-empty test, a command or a cleanup. */
  predicate RunsAStep(b: Bundle) {
    || (exists k :: 0 <= k < |b.preconditions| && Truthy(b.preconditions[k].test))
    || b.commands != []
    || b.cleanups != []
  }

  const SocketUrlKey: string := "Socket URL"
  const StatusKey: string := "Status"
  const AgentIdKey: string := "Agent ID"
  const ConversationIdKey: string := "Conversation ID"
  const UserIdKey: string := "User ID"
  const OnlineStatus: string := "online"

  /** The agent window's state. */
  class AgentApp {
    var details: Dict
    var connected: bool
    var isRegistered: bool

    /** `AgentApp.__init__`: not connected and not registered. */
    constructor (details: Dict)
      ensures this.details == details && !connected && !isRegistered
    {
      this.details := details;
      connected := false;
      isRegistered := false;
    }

    /**
     * `connect_to_socket`: refused when already connected; otherwise the socket
     * URL is looked up and the client connects inside one `try`, so a missing URL
     * fails like a refused connection, leaving everything as it was. Only a
     * successful connect marks the window connected and its status "Online".
     */
    method ConnectToSocket(connect: CallOutcome) returns (r: ConnectResult)
      modifies this
      ensures old(connected) ==> r == AlreadyConnected && unchanged(this)
      ensures !old(connected) && (SocketUrlKey !in Keys(old(details)) || !connect.CallOk?) ==>
        r == ConnectFailed && unchanged(this)
      ensures !old(connected) && SocketUrlKey in Keys(old(details)) && connect.CallOk? ==>
        && r == Connected && connected
        && details == Put(old(details), StatusKey, "Online")
        && isRegistered == old(isRegistered)
    {
      if connected {
        return AlreadyConnected;
      }
      var url := Get(details, SocketUrlKey);
      if url.None? || !connect.CallOk? {
        return ConnectFailed;
      }
      connected := true;
      details := Put(details, StatusKey, "Online");
      r := Connected;
    }

    /**
     * `disconnect_socket`: refused when not connected; a disconnect that raised
     * changes nothing; otherwise the window is disconnected and "Offline".
     */
    method DisconnectSocket(disconnect: CallOutcome) returns (r: DisconnectResult)
      modifies this
      ensures !old(connected) ==> r == NotConnected && unchanged(this)
      ensures old(connected) && !disconnect.CallOk? ==> r == DisconnectFailed && unchanged(this)
      ensures old(connected) && disconnect.CallOk? ==>
        && r == Disconnected && !connected
        && details == Put(old(details), StatusKey, "Offline")
        && isRegistered == old(isRegistered)
    {
      if !connected {
        return NotConnected;
      }
      if !disconnect.CallOk? {
        return DisconnectFailed;
      }
      connected := false;
      details := Put(details, StatusKey, "Offline");
      r := Disconnected;
    }

    /**
     * `register_agent`: after the guard the identifier is probed; an error or a
     * missing identifier changes nothing. Otherwise the identifier is written to
     * the details before the emit, and the window is marked unregistered whatever
     * the emit does, so the guard never trips on a later connect.
     */
    method RegisterAgent(info: ClientInfo, probe: AgentIdProbe, emit: CallOutcome) returns (r: RegisterResult)
      modifies this
      ensures old(isRegistered) ==> r == AlreadyRegistered && unchanged(this)
      ensures !old(isRegistered) ==> !isRegistered && connected == old(connected)
      ensures !old(isRegistered) && (Truthy(probe.error) || !Truthy(probe.agentId)) ==>
        r == IdUnavailable(probe.error) && details == old(details)
      ensures !old(isRegistered) && !Truthy(probe.error) && Truthy(probe.agentId) ==>
        var id := probe.agentId.value;
        && details == Put(old(details), AgentIdKey, id)
        && r == match emit
                case CallOk => Registered(ClientData(id, Get(old(details), ConversationIdKey),
                                                     Get(old(details), UserIdKey), info, OnlineStatus))
                case RequestError(m) => SendFailed(m)
                case OtherError(m) => SendCrashed(m)
    {
      if isRegistered {
        return AlreadyRegistered;
      }
      if Truthy(probe.error) || !Truthy(probe.agentId) {
        return IdUnavailable(probe.error);
      }
      var id := probe.agentId.value;
      GetPut(details, AgentIdKey, id, ConversationIdKey);
      GetPut(details, AgentIdKey, id, UserIdKey);
      details := Put(details, AgentIdKey, id);
      var data := ClientData(id, Get(details, ConversationIdKey), Get(details, UserIdKey), info, OnlineStatus);
      isRegistered := false;
      match emit
      case CallOk =>
        r := Registered(data);
      case RequestError(m) =>
        r := SendFailed(m);
      case OtherError(m) =>
        r := SendCrashed(m);
    }

    /**
     * `on_execute_command` as written: script mode returns a `(bool, str)` pair
     * and the handler calls `.lower()` on it, which raises `AttributeError` at the
     * first step that runs, before any response is built. Only a bundle in which
     * no step runs is answered, with no entries and status "success".
     */
    method OnExecuteCommandAsWritten(data: Bundle) returns (r: Option<UiResponse>)
      ensures r.None? <==> RunsAStep(data) || ConversationIdKey !in Keys(details) || UserIdKey !in Keys(details)
      ensures r.Some? ==>
        r.value == UiResponse(data.agentId, Get(details, ConversationIdKey).value, Success,
                              [], PriorityOf(data.metadata), Get(details, UserIdKey).value)
    {
      if RunsAStep(data) {
        return None;
      }
      var conversationId := Get(details, ConversationIdKey);
      var userId := Get(details, UserIdKey);
      if conversationId.None? || userId.None? {
        return None;
      }
      r := Some(UiResponse(data.agentId, conversationId.value, Success, [], PriorityOf(data.metadata), userId.value));
    }

    /**
     * `on_execute_command`: the bundle runs through the engine with steps
     * classified by their output; the response carries the bundle's own agent
     * identifier and the conversation and user from the details, and it cannot be
     * built (the lookup raises) when either of those two is missing.
     */
    method OnExecuteCommand(data: Bundle, out: OutputOracle) returns (r: Option<UiResponse>)
      ensures r.None? <==> ConversationIdKey !in Keys(details) || UserIdKey !in Keys(details)
      ensures r.Some? ==>
        var e := Execute(data, UiRunner(out));
        r.value == UiResponse(data.agentId, Get(details, ConversationIdKey).value, e.status,
                              e.outputs, e.priority, Get(details, UserIdKey).value)
    {
      var e := RunBundle(data, UiRunner(out));
      var conversationId := Get(details, ConversationIdKey);
      var userId := Get(details, UserIdKey);
      if conversationId.None? || userId.None? {
        return None;
      }
      r := Some(UiResponse(data.agentId, conversationId.value, e.status, e.outputs, e.priority, userId.value));
    }
  }

  /**
   * Every entry's output is the text its step printed; a solve is "success"
   * exactly when that text mentions "success", and any other step is "failure"
   * exactly when it mentions "failure", ignoring case. A step that prints
   * neither word therefore passes as a test, command or cleanup but fails as a
   * solve.
   */
  lemma UiEntries(b: Bundle, out: OutputOracle)
    ensures var e := Execute(b, UiRunner(out));
      forall k :: 0 <= k < |e.outputs| ==>
        var x := e.outputs[k];
        && x.output == out(k, x.command)
        && (x.kind == PreconditionSolve ==> (x.status == Success <==> Contains(Lower(x.output), "success")))
        && (x.kind != PreconditionSolve ==> (x.status == Failure <==> Contains(Lower(x.output), "failure")))
  {
    var e := Execute(b, UiRunner(out));
    ExecuteFaithful(b, UiRunner(out));
    forall k | 0 <= k < |e.outputs|
      ensures var x := e.outputs[k];
        && x.output == out(k, x.command)
        && (x.kind == PreconditionSolve ==> (x.status == Success <==> Contains(Lower(x.output), "success")))
        && (x.kind != PreconditionSolve ==> (x.status == Failure <==> Contains(Lower(x.output), "failure")))
    {
      var x := e.outputs[k];
      assert x == Record(x.kind, x.command, UiRunner(out)(x.kind, k, x.command));
    }
  }

  /**
   * The run fails exactly when a solve's output does not mention "success" or a
   * command's or cleanup's output mentions "failure"; what a test prints never
   * decides the run by itself.
   */
  lemma UiStatus(b: Bundle, out: OutputOracle)
    ensures var e := Execute(b, UiRunner(out));
      e.status == Failure <==>
        exists k :: 0 <= k < |e.outputs| &&
          ((e.outputs[k].kind == PreconditionSolve && !Contains(Lower(e.outputs[k].output), "success")) ||
           ((e.outputs[k].kind == Command || e.outputs[k].kind == Cleanup) &&
              Contains(Lower(e.outputs[k].output), "failure")))
  {
    ExecuteStatus(b, UiRunner(out));
    UiEntries(b, out);
  }

  /**
   * A step that printed nothing passes as a test, a command or a cleanup but
   * fails as a solve.
   */
  lemma SilentStep(out: OutputOracle, i: nat, command: string)
    requires out(i, command) == ""
    ensures UiRunner(out)(PreconditionTest, i, command).success
    ensures UiRunner(out)(Command, i, command).success
    ensures UiRunner(out)(Cleanup, i, command).success
    ensures !UiRunner(out)(PreconditionSolve, i, command).success
  {
    assert Lower("") == "";
    assert !StartsWith("", "failure") && !StartsWith("", "success");
    assert !Contains("", "failure") && !Contains("", "success");
  }

  /**
   * The handler as written answers exactly the bundles whose intended run records
   * no entry, and on those its answer agrees with the intended one: every bundle
   * in which a step runs goes unanswered.
   */
  lemma AsWrittenAnswersOnlyEmptyRuns(b: Bundle, step: StepRunner)
    ensures RunsAStep(b) <==> Execute(b, step).outputs != []
    ensures !RunsAStep(b) ==> Execute(b, step) == Execution([], Success, PriorityOf(b.metadata))
  {
    PreconditionsRunIffTest(b.preconditions, step, []);
    ExecuteLayout(b, step);
  }

  /** A bundle of one command, as written, gets no answer; the intended handler records that command. */
  lemma OneCommandUnanswered(out: OutputOracle)
    ensures var b := Bundle(None, None, [], ["ls"], []);
      && RunsAStep(b)
      && Execute(b, UiRunner(out)).outputs == [Record(Command, "ls", UiRunner(out)(Command, 0, "ls"))]
  {
  }
}
