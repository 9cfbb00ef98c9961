/**
 * The Socket.IO `send_command` handler: resolve the target agent and forward
 * the caller's data to its session unchanged, then acknowledge to the caller.
 * Unlike the HTTP dispatch it rewrites no placeholder and accepts an empty
 * command list.
 *
 * Emits are results: the handler answers the emits that went out, in order.
 * Whether the forward and the acknowledgement raise is a parameter; an error
 * notice to the caller is taken to go out.
 */
module SocketServer {
  import opened Wrappers
  import opened Dicts
  import opened Engine

  /** The body of an emitted event. */
  datatype Body = ErrorBody(error: string) | MessageBody(message: string) | CommandBody(data: Bundle)

  /** One emitted event and the session it went to. */
  datatype Emit = Emit(event: string, to: string, body: Body)

  const CommandError: string := "command_error"
  const CommandSuccess: string := "command_success"
  const ExecuteEvent: string := "on_execute_command"

  /** The answer to a caller whose agent is not connected. */
  function NotConnected(agentId: string): string {
    "Agent '" + agentId + "' not connected."
  }

  /**
   * `send_command_to_agent`: a caller naming no agent, or an agent without a
   * session, gets one error and no agent hears anything; otherwise the data goes
   * to the agent's session, and the caller gets the success notice only once
   * both emits went out, or the generic failure notice when one of them raised.
   */
  function SendCommandToAgent(sid: string, data: Bundle, agents: Dict, forwardOk: bool, ackOk: bool): (r: seq<Emit>)
    ensures forall k :: 0 <= k < |r| && r[k].event != ExecuteEvent ==> r[k].to == sid
    ensures forall k :: 0 <= k < |r| && r[k].event == ExecuteEvent ==>
      && Truthy(data.agentId) && Truthy(Get(agents, data.agentId.value))
      && r[k] == Emit(ExecuteEvent, Get(agents, data.agentId.value).value, CommandBody(data))
    ensures (exists k :: 0 <= k < |r| && r[k].event == CommandSuccess) <==>
      Truthy(data.agentId) && Truthy(Get(agents, data.agentId.value)) && forwardOk && ackOk
    ensures !Truthy(data.agentId) ==> r == [Emit(CommandError, sid, ErrorBody("Missing 'agent_id'."))]
    ensures Truthy(data.agentId) && !Truthy(Get(agents, data.agentId.value)) ==>
      r == [Emit(CommandError, sid, ErrorBody(NotConnected(data.agentId.value)))]
  {
    if !Truthy(data.agentId) then
      [Emit(CommandError, sid, ErrorBody("Missing 'agent_id'."))]
    else
      var target := Get(agents, data.agentId.value);
      if !Truthy(target) then
        [Emit(CommandError, sid, ErrorBody(NotConnected(data.agentId.value)))]
      else
        var failed := Emit(CommandError, sid, ErrorBody("Failed to send command."));
        var forward := Emit(ExecuteEvent, target.value, CommandBody(data));
        if !forwardOk then [failed]
        else if !ackOk then [forward, failed]
        else
          var sent := [forward, Emit(CommandSuccess, sid, MessageBody("Command sent successfully."))];
          assert sent[1].event == CommandSuccess;
          sent
  }

  /**
   * A resolved agent receives the caller's data exactly once, as it came, even
   * with an empty command list, and it receives it before the caller hears of
   * success.
   */
  lemma ForwardedOnceBeforeSuccess(sid: string, data: Bundle, agents: Dict, ackOk: bool)
    requires Truthy(data.agentId) && Truthy(Get(agents, data.agentId.value))
    ensures var r := SendCommandToAgent(sid, data, agents, true, ackOk);
      && |r| == 2
      && r[0] == Emit(ExecuteEvent, Get(agents, data.agentId.value).value, CommandBody(data))
      && r[1].to == sid && r[1].event != ExecuteEvent
      && (r[1].event == CommandSuccess <==> ackOk)
  {
  }
}
