/**
 * The agent's process helpers. The subprocess itself is not modelled: a run is
 * described by its result (exit status and captured streams, or the exception
 * it raised), and the helpers map that result to what the agent reports.
 */
module Helper {
  import opened Wrappers
  import opened Text

  /** What `subprocess.run(command, shell=True, text=True, capture_output=True, check=True)` did. */
  datatype ProcessResult =
    | Completed(returnCode: int, stdout: string, stderr: string)
    | Raised(message: string)  // any exception other than a non-zero exit, as `str(e)`

  /** The fixed output of a failed command that wrote nothing to standard error. */
  const CouldNotExecute: string := "command could not be executed"

  /**
   * `run_command_in_script_mode`: the success flag holds exactly for exit status 0;
   * the output is the stripped standard output on success, the stripped standard
   * error on failure (the fixed sentinel when that is blank), or the exception text.
   * A completed process never reports surrounding whitespace, and a failed one never
   * reports an empty output.
   */
  function RunCommandInScriptMode(p: ProcessResult): (r: (bool, string))
    ensures r.0 <==> p.Completed? && p.returnCode == 0
    ensures p.Completed? && p.returnCode == 0 ==> r.1 == Strip(p.stdout)
    ensures p.Completed? && p.returnCode != 0 && !IsBlank(p.stderr) ==> r.1 == Strip(p.stderr)
    ensures p.Completed? && p.returnCode != 0 && IsBlank(p.stderr) ==> r.1 == CouldNotExecute
    ensures p.Raised? ==> r.1 == p.message
    ensures p.Completed? ==> Strip(r.1) == r.1
    ensures p.Completed? && !r.0 ==> r.1 != []
  {
    match p
    case Completed(code, out, err) =>
      if code == 0 then
        StripIdempotent(out);
        (true, Strip(out))
      else if Strip(err) != [] then
        StripEmptyIffBlank(err);
        StripIdempotent(err);
        (false, Strip(err))
      else
        StripEmptyIffBlank(err);
        assert TrimStart(CouldNotExecute) == CouldNotExecute;
        assert TrimEnd(CouldNotExecute) == CouldNotExecute;
        (false, CouldNotExecute)
    case Raised(message) =>
      (false, message)
  }

  /** What `run_command` hands back: a dict, or an exception that escapes it. */
  datatype Reply = Returned(fields: map<string, string>) | Escaped(message: string)

  /**
   * `run_command`: status "success" with key `output` on exit 0, otherwise status
   * "error" with key `error` and no `output` key; only a non-zero exit is caught,
   * every other exception propagates to the caller.
   */
  function RunCommand(p: ProcessResult): (r: Reply)
    ensures r.Returned? <==> p.Completed?
    ensures p.Completed? && p.returnCode == 0 ==>
      r.fields.Keys == {"status", "output"} && r.fields["status"] == "success"
      && r.fields["output"] == Strip(p.stdout)
    ensures p.Completed? && p.returnCode != 0 ==>
      r.fields.Keys == {"status", "error"} && r.fields["status"] == "error"
      && r.fields["error"] == Strip(p.stderr)
  {
    match p
    case Completed(code, out, err) =>
      if code == 0 then Returned(map["status" := "success", "output" := Strip(out)])
      else Returned(map["status" := "error", "error" := Strip(err)])
    case Raised(message) => Escaped(message)
  }

  /**
   * The two helpers agree: script mode succeeds exactly when `run_command` reports
   * "success", with the same output; on failure script mode reports `run_command`'s
   * error text whenever that text is not empty.
   */
  lemma ScriptModeAgreesWithRunCommand(p: ProcessResult)
    requires p.Completed?
    ensures var r := RunCommand(p); var s := RunCommandInScriptMode(p);
      && (s.0 <==> r.fields["status"] == "success")
      && (s.0 ==> s.1 == r.fields["output"])
      && (!s.0 && r.fields["error"] != [] ==> s.1 == r.fields["error"])
      && (!s.0 && r.fields["error"] == [] ==> s.1 == CouldNotExecute)
  {
    StripEmptyIffBlank(p.stderr);
  }

  /** One network interface as `get_network_interfaces` lists it. */
  datatype NetInterface = NetInterface(name: string, ips: seq<string>)

  /** `osinfo`: every field may be absent from the dict; values are kept as rendered text. */
  datatype OsInfo = OsInfo(cpus: Option<string>, kernel: Option<string>, core: Option<string>,
                           platform: Option<string>, os: Option<string>)

  /** `client_info`, as gathered by `get_client_info` and relayed to the controller. */
  datatype ClientInfo = ClientInfo(
    processId: Option<string>,
    ipAddress: Option<string>,
    netInterfaces: Option<seq<NetInterface>>,
    osInfo: Option<OsInfo>,
    codename: Option<string>,
    hostname: Option<string>,
    username: Option<string>)

  /** `get_agent_id()`'s pair: the identifier, or the error text explaining why there is none. */
  datatype AgentIdProbe = AgentIdProbe(agentId: Option<string>, error: Option<string>)
}
