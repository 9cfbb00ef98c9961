/**
 * The controller's HTTP dispatch of a command bundle to a connected agent:
 * resolve the agent's session, refuse an empty command list, build the input
 * table, rewrite every `#{name}` placeholder in every test, solve, command and
 * cleanup, and emit the rewritten request to that session only.
 *
 * The emit is not performed: how it ended is a parameter, and the emission the
 * handler attempted is part of its result.
 */
module Dispatch {
  import opened Wrappers
  import opened Text
  import opened Dicts
  import Engine

  /** One entry of `inputs`; `description` and `type` travel along but are never read. */
  datatype InputField = InputField(name: string, description: string, fieldType: Option<string>, value: string)

  /** A precondition of the request: `test_cmd` is required, `solve_cmd` optional. */
  datatype RequestPrecondition = RequestPrecondition(description: string, test: string, solve: Option<string>)

  /** The validated request body; the optional lists are `None` when omitted. */
  datatype CommandRequest = CommandRequest(
    preconditions: Option<seq<RequestPrecondition>>,
    commands: seq<string>,
    inputs: Option<seq<InputField>>,
    cleanups: Option<seq<string>>)

  /** What goes out on `on_execute_command`: the request with its texts rewritten and the agent's id added. */
  datatype Payload = Payload(
    agentId: string,
    preconditions: seq<RequestPrecondition>,
    commands: seq<string>,
    inputs: Option<seq<InputField>>,
    cleanups: seq<string>)

  /** How `sio.emit` ended. */
  datatype EmitOutcome = EmitOk | EmitValueError(message: string) | EmitFailed(message: string)

  /** An emission to one session. */
  datatype Emission = Emission(event: string, to: string, payload: Payload)

  /** The HTTP answer: a JSON body, an `HTTPException`, or an uncaught exception (a server error). */
  datatype Reply = HttpOk(status: string, message: string) | HttpError(code: int, detail: string) | Crashed

  /** What `send_command` attempted to emit, and what it answered. */
  datatype Dispatched = Dispatched(attempted: Option<Emission>, reply: Reply)

  const ExecuteEvent: string := "on_execute_command"

  /** The text a placeholder for input `name` takes in a command: `#{name}`. */
  function Placeholder(name: string): string {
    "#{" + name + "}"
  }

  /** The dictionary comprehension over `inputs or []`: name -> value, a later name overriding an earlier one. */
  function InputTable(inputs: Option<seq<InputField>>): Dict {
    Table(inputs.GetOr([]))
  }

  function Table(fields: seq<InputField>): Dict
    decreases |fields|
  {
    if fields == [] then []
    else Put(Table(fields[..|fields| - 1]), fields[|fields| - 1].name, fields[|fields| - 1].value)
  }

  /** Substitution: a left fold of `str.replace` over the table, in its iteration order. */
  function Substitute(s: string, table: Dict): string
    decreases |table|
  {
    if table == [] then s
    else Substitute(Replace(s, Placeholder(table[0].0), table[0].1), table[1..])
  }

  /** `replace_placeholders`: rewrites `value` input by input. */
  method ReplacePlaceholders(value: string, table: Dict) returns (r: string)
    ensures r == Substitute(value, table)
    ensures forall parts: seq<string> {:trigger Join(Placeholder(table[0].0), parts)} ::
      (|table| == 1 && (forall k :: 0 <= k < |parts| ==> '#' !in parts[k]) &&
       value == Join(Placeholder(table[0].0), parts)) ==> r == Join(table[0].1, parts)
  {
    forall parts: seq<string> | |table| == 1 && (forall k :: 0 <= k < |parts| ==> '#' !in parts[k]) &&
      value == Join(Placeholder(table[0].0), parts)
      ensures Substitute(value, table) == Join(table[0].1, parts)
    {
      assert table == [(table[0].0, table[0].1)];
      SubstituteEveryOccurrence(parts, table[0].0, table[0].1);
    }
    r := value;
    for i := 0 to |table|
      invariant Substitute(value, table) == Substitute(r, table[i..])
    {
      assert table[i..][1..] == table[i + 1..];
      r := Replace(r, Placeholder(table[i].0), table[i].1);
    }
  }

  /** A precondition with its texts rewritten; an absent solve stays absent. */
  function RewritePrecondition(p: RequestPrecondition, table: Dict): RequestPrecondition {
    RequestPrecondition(p.description, Substitute(p.test, table),
                        if p.solve.Some? then Some(Substitute(p.solve.value, table)) else None)
  }

  /** The texts of a list, each rewritten, in order. */
  function RewriteAll(texts: seq<string>, table: Dict): (r: seq<string>)
    ensures |r| == |texts| && forall k :: 0 <= k < |r| ==> r[k] == Substitute(texts[k], table)
  {
    seq(|texts|, k requires 0 <= k < |texts| => Substitute(texts[k], table))
  }

  /** Without inputs, a list of texts is left as it is. */
  lemma RewriteAllEmpty(texts: seq<string>)
    ensures RewriteAll(texts, []) == texts
  {
  }

  /** Rewriting a list is rewriting each part of it: the comprehension keeps the order. */
  lemma RewriteAllAppend(a: seq<string>, b: seq<string>, table: Dict)
    ensures RewriteAll(a + b, table) == RewriteAll(a, table) + RewriteAll(b, table)
  {
  }

  /**
   * The request fails with an uncaught exception before anything is emitted:
   * iterating an omitted precondition or cleanup list (`None`), or calling
   * `replace` on an absent `solve_cmd` while there is at least one input.
   */
  predicate Crashes(req: CommandRequest) {
    || req.preconditions.None?
    || req.cleanups.None?
    || (InputTable(req.inputs) != []
        && exists k :: 0 <= k < |req.preconditions.value| && req.preconditions.value[k].solve.None?)
  }

  /** The payload built from a request that does not crash. */
  function Rewritten(agentId: string, req: CommandRequest): Payload
    requires !Crashes(req)
  {
    var table := InputTable(req.inputs);
    var pres := req.preconditions.value;
    Payload(agentId,
            seq(|pres|, k requires 0 <= k < |pres| => RewritePrecondition(pres[k], table)),
            RewriteAll(req.commands, table),
            req.inputs,
            RewriteAll(req.cleanups.value, table))
  }

  /**
   * `send_command`: an agent without a session is refused with 404 before the
   * command list is looked at; an empty command list is refused with 400; in
   * both cases, and when the rewriting crashes, nothing is emitted. Otherwise
   * the rewritten request goes to the agent's session only, and the emit's
   * outcome decides the answer.
   */
  method SendCommand(agentId: string, req: CommandRequest, agents: Dict, emit: EmitOutcome) returns (d: Dispatched)
    ensures !Truthy(Get(agents, agentId)) ==> d == Dispatched(None, HttpError(404, "Agent not connected"))
    ensures Truthy(Get(agents, agentId)) && req.commands == [] ==>
      d == Dispatched(None, HttpError(400, "No commands provided"))
    ensures Truthy(Get(agents, agentId)) && req.commands != [] && Crashes(req) ==> d == Dispatched(None, Crashed)
    ensures Truthy(Get(agents, agentId)) && req.commands != [] && !Crashes(req) ==>
      && d.attempted == Some(Emission(ExecuteEvent, Get(agents, agentId).value, Rewritten(agentId, req)))
      && d.reply == match emit
                    case EmitOk => HttpOk("success", "Command sent")
                    case EmitValueError(m) => HttpError(400, m)
                    case EmitFailed(_) => HttpError(500, "Failed to send command")
  {
    var sid := Get(agents, agentId);
    if !Truthy(sid) {
      return Dispatched(None, HttpError(404, "Agent not connected"));
    }
    if req.commands == [] {
      return Dispatched(None, HttpError(400, "No commands provided"));
    }
    var table := InputTable(req.inputs);

    if req.preconditions.None? {
      return Dispatched(None, Crashed);
    }
    var pres := req.preconditions.value;
    var rewritten: seq<RequestPrecondition> := [];
    for i := 0 to |pres|
      invariant |rewritten| == i
      invariant forall k :: 0 <= k < i ==> rewritten[k] == RewritePrecondition(pres[k], table)
      invariant table != [] ==> forall k :: 0 <= k < i ==> pres[k].solve.Some?
    {
      var p := pres[i];
      var test := ReplacePlaceholders(p.test, table);
      var solve := p.solve;
      if p.solve.Some? {
        var s := ReplacePlaceholders(p.solve.value, table);
        solve := Some(s);
      } else if table != [] {
        return Dispatched(None, Crashed);
      }
      rewritten := rewritten + [RequestPrecondition(p.description, test, solve)];
    }

    var commands: seq<string> := [];
    for i := 0 to |req.commands|
      invariant commands == RewriteAll(req.commands[..i], table)
    {
      var c := ReplacePlaceholders(req.commands[i], table);
      commands := commands + [c];
    }
    assert req.commands[..|req.commands|] == req.commands;

    if req.cleanups.None? {
      return Dispatched(None, Crashed);
    }
    var cleanups: seq<string> := [];
    for i := 0 to |req.cleanups.value|
      invariant cleanups == RewriteAll(req.cleanups.value[..i], table)
    {
      var c := ReplacePlaceholders(req.cleanups.value[i], table);
      cleanups := cleanups + [c];
    }
    assert req.cleanups.value[..|req.cleanups.value|] == req.cleanups.value;

    var payload := Payload(agentId, rewritten, commands, req.inputs, cleanups);
    assert payload == Rewritten(agentId, req);
    var emission := Emission(ExecuteEvent, sid.value, payload);
    match emit
    case EmitOk =>
      d := Dispatched(Some(emission), HttpOk("success", "Command sent"));
    case EmitValueError(m) =>
      d := Dispatched(Some(emission), HttpError(400, m));
    case EmitFailed(_) =>
      d := Dispatched(Some(emission), HttpError(500, "Failed to send command"));
  }

  /** Text holding none of the table's placeholders comes through verbatim. */
  lemma {:induction false} SubstituteUntouched(s: string, table: Dict)
    requires forall k :: 0 <= k < |table| ==> !Contains(s, Placeholder(table[k].0))
    ensures Substitute(s, table) == s
    decreases |table|
  {
    if table != [] {
      ReplaceAbsent(s, Placeholder(table[0].0), table[0].1);
      SubstituteUntouched(s, table[1..]);
    }
  }

  /** Substitution is a fold: running over one table and then another is running over both. */
  lemma {:induction false} SubstituteAppend(s: string, t1: Dict, t2: Dict)
    ensures Substitute(s, t1 + t2) == Substitute(Substitute(s, t1), t2)
    decreases |t1|
  {
    if t1 == [] {
      assert t1 + t2 == t2;
    } else {
      assert (t1 + t2)[0] == t1[0] && (t1 + t2)[1..] == t1[1..] + t2;
      SubstituteAppend(Replace(s, Placeholder(t1[0].0), t1[0].1), t1[1..], t2);
    }
  }

  /** The value of input `name` takes the place of `#{name}` after any text free of `#`. */
  lemma SubstituteAfterPlainText(prefix: string, name: string, value: string)
    requires '#' !in prefix
    ensures Substitute(prefix + Placeholder(name), [(name, value)]) == prefix + value
  {
    var p := Placeholder(name);
    assert p[0] == '#';
    ReplaceAfterPlain(prefix, p, p, value);
    ReplaceAtFront(p, value, "");
    assert p + "" == p;
    assert [(name, value)][1..] == [];
  }

  /**
   * Every occurrence of the first input's placeholder is rewritten at once: in a
   * text made of `#`-free pieces separated by that placeholder, the pieces come
   * to be separated by the input's value.
   */
  lemma SubstituteFirstEverywhere(parts: seq<string>, table: Dict)
    requires table != [] && forall k :: 0 <= k < |parts| ==> '#' !in parts[k]
    ensures Substitute(Join(Placeholder(table[0].0), parts), table) == Substitute(Join(table[0].1, parts), table[1..])
  {
    assert Placeholder(table[0].0)[0] == '#';
    ReplaceJoin(parts, Placeholder(table[0].0), table[0].1);
  }

  /** With one input, every occurrence of its placeholder becomes its value. */
  lemma SubstituteEveryOccurrence(parts: seq<string>, name: string, value: string)
    requires forall k :: 0 <= k < |parts| ==> '#' !in parts[k]
    ensures Substitute(Join(Placeholder(name), parts), [(name, value)]) == Join(value, parts)
  {
    SubstituteFirstEverywhere(parts, [(name, value)]);
    assert [(name, value)][1..] == [];
  }

  /** "echo #{n} #{n}" with n = x renders "echo x x". */
  lemma RepeatedPlaceholder()
    ensures Substitute("echo #{n} #{n}", [("n", "x")]) == "echo x x"
  {
    var parts := ["echo ", " ", ""];
    assert Join(Placeholder("n"), parts) == "echo #{n} #{n}";
    SubstituteEveryOccurrence(parts, "n", "x");
    assert Join("x", parts) == "echo x x";
  }

  /**
   * Substitution is sequential: a value inserted for one input is rewritten by
   * the placeholder of a later input, but not by that of an earlier one.
   */
  lemma SubstitutionIsOrdered()
    ensures Substitute("#{a}", [("a", "#{b}"), ("b", "X")]) == "X"
    ensures Substitute("#{a}", [("b", "X"), ("a", "#{b}")]) == "#{b}"
  {
    ReplaceAtFront("#{a}", "#{b}", "");
    ReplaceAtFront("#{b}", "X", "");
    assert "#{a}" == "#{a}" + "" && "#{b}" == "#{b}" + "";
    assert !StartsWith("#{a}", "#{b}") by { assert "#{a}"[2] != "#{b}"[2]; }
    ReplaceAbsent("#{a}", "#{b}", "X");
    var t1: Dict := [("a", "#{b}"), ("b", "X")];
    var t2: Dict := [("b", "X"), ("a", "#{b}")];
    assert t1[1..] == [("b", "X")] && t1[1..][1..] == [];
    assert t2[1..] == [("a", "#{b}")] && t2[1..][1..] == [];
  }

  /** The input table answers, for each name, the value of the last input with that name. */
  lemma {:induction false} TableLastWins(fields: seq<InputField>, i: nat)
    requires i < |fields| && forall j :: i < j < |fields| ==> fields[j].name != fields[i].name
    ensures Get(Table(fields), fields[i].name) == Some(fields[i].value)
    decreases |fields|
  {
    var last := fields[|fields| - 1];
    var init := fields[..|fields| - 1];
    GetPut(Table(init), last.name, last.value, fields[i].name);
    if i < |fields| - 1 {
      TableLastWins(init, i);
    }
  }

  /** A name no input carries is absent from the table, and the table has unique keys. */
  lemma {:induction false} TableKeys(fields: seq<InputField>, name: string)
    ensures UniqueKeys(Table(fields))
    ensures Get(Table(fields), name).None? <==> forall j :: 0 <= j < |fields| ==> fields[j].name != name
    decreases |fields|
  {
    if fields != [] {
      var last := fields[|fields| - 1];
      var init := fields[..|fields| - 1];
      TableKeys(init, name);
      PutUnique(Table(init), last.name, last.value);
      GetPut(Table(init), last.name, last.value, name);
      if Get(Table(fields), name).None? {
        forall j | 0 <= j < |fields| ensures fields[j].name != name {
          if j < |fields| - 1 { assert fields[j] == init[j]; }
        }
      }
    }
  }

  /** With no inputs, the emitted request carries exactly the texts that came in. */
  lemma NoInputsNoRewrite(agentId: string, req: CommandRequest)
    requires !Crashes(req) && (req.inputs.None? || req.inputs.value == [])
    ensures var p := Rewritten(agentId, req);
      && p.preconditions == req.preconditions.value
      && p.commands == req.commands
      && p.cleanups == req.cleanups.value
  {
    var p := Rewritten(agentId, req);
    assert InputTable(req.inputs) == [];
    assert p.commands == req.commands;
    assert p.cleanups == req.cleanups.value;
    assert p.preconditions == req.preconditions.value by {
      forall k | 0 <= k < |req.preconditions.value| ensures p.preconditions[k] == req.preconditions.value[k] {
        var q := req.preconditions.value[k];
        assert RewritePrecondition(q, []) == q;
      }
    }
  }

  /** The bundle the agent reads from the emitted payload; the request carries no `metadata`. */
  function ToBundle(p: Payload): Engine.Bundle {
    Engine.Bundle(
      Some(p.agentId),
      None,
      seq(|p.preconditions|, k requires 0 <= k < |p.preconditions| =>
        Engine.Precondition(Some(p.preconditions[k].test), p.preconditions[k].solve)),
      p.commands,
      p.cleanups)
  }

  /**
   * End to end: an agent running a dispatched bundle reports the default
   * priority, runs every rewritten cleanup in order, and, unless a solve failed,
   * every rewritten command in order.
   */
  lemma DispatchedBundleRunsRewrittenCommands(agentId: string, req: CommandRequest, step: Engine.StepRunner)
    requires !Crashes(req)
    ensures var b := ToBundle(Rewritten(agentId, req));
      var e := Engine.Execute(b, step);
      var pre := Engine.Preconditions(b.preconditions, step, []);
      var ran := if pre.1 then 0 else |req.commands|;
      var table := InputTable(req.inputs);
      && e.priority == "medium"
      && |e.outputs| == |pre.0| + ran + |req.cleanups.value|
      && (forall k :: 0 <= k < ran ==> e.outputs[|pre.0| + k].command == Substitute(req.commands[k], table))
      && (forall k :: 0 <= k < |req.cleanups.value| ==>
            e.outputs[|pre.0| + ran + k].command == Substitute(req.cleanups.value[k], table))
  {
    var b := ToBundle(Rewritten(agentId, req));
    Engine.ExecuteLayout(b, step);
    var pre := Engine.Preconditions(b.preconditions, step, []);
    var ran := if pre.1 then 0 else |req.commands|;
    var e := Engine.Execute(b, step);
    forall k | 0 <= k < ran ensures e.outputs[|pre.0| + k].command == Substitute(req.commands[k], InputTable(req.inputs)) {
      assert |pre.0| <= |pre.0| + k < |pre.0| + ran;
    }
    forall k | 0 <= k < |req.cleanups.value|
      ensures e.outputs[|pre.0| + ran + k].command == Substitute(req.cleanups.value[k], InputTable(req.inputs))
    {
      assert |pre.0| + ran <= |pre.0| + ran + k < |e.outputs|;
    }
  }
}
