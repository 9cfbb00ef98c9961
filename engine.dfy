/**
 * The agent's execution engine: a command bundle runs through preconditions
 * (test, then an optional solve), then commands, then cleanups, building the
 * ordered list of step entries and an overall status that starts at "success"
 * and can only move to "failure".
 *
 * Both agent front ends run this same pipeline; they differ only in how a step's
 * result is classified, so the engine takes the step runner as a parameter: it
 * maps a step's kind, its ordinal (how many processes ran before it in this
 * bundle) and its command text to a success flag and an output.
 */
module Engine {
  import opened Wrappers
  import opened Task

  /** A precondition as the agent reads it: `test_cmd` and `solve_cmd` may be absent. */
  datatype Precondition = Precondition(test: Option<string>, solve: Option<string>)

  /** The bundle's `metadata`; only `priority` is read. */
  datatype Metadata = Metadata(priority: Option<string>)

  /** The payload of `on_execute_command`, with absent lists read as empty. */
  datatype Bundle = Bundle(
    agentId: Option<string>,
    metadata: Option<Metadata>,
    preconditions: seq<Precondition>,
    commands: seq<string>,
    cleanups: seq<string>)

  /** The classified outcome of one step. */
  datatype StepResult = StepResult(success: bool, output: string)

  /** Runs one step: kind, ordinal of the process in this bundle, command text. */
  type StepRunner = (StepKind, nat, string) -> StepResult

  /** What a run produces: `outputs`, `status` and `priority` of the response. */
  datatype Execution = Execution(outputs: seq<Entry>, status: Status, priority: string)

  /** `data.get("metadata", {}).get("priority", "medium")`. */
  function PriorityOf(m: Option<Metadata>): string {
    if m.Some? && m.value.priority.Some? then m.value.priority.value else DefaultPriority
  }

  /** The entry appended for a step; its status is "success" exactly when the step succeeded. */
  function Record(kind: StepKind, command: string, r: StepResult): Entry {
    Entry(kind, command, r.output, if r.success then Success else Failure)
  }

  /** Every entry records what the runner reported for the process at its own position. */
  ghost predicate Faithful(outs: seq<Entry>, step: StepRunner) {
    forall k :: 0 <= k < |outs| ==>
      outs[k] == Record(outs[k].kind, outs[k].command, step(outs[k].kind, k, outs[k].command))
  }

  /**
   * The precondition loop over the remaining preconditions, appending to `outs`;
   * the flag tells whether it stopped on a failing solve.
   */
  function Preconditions(pres: seq<Precondition>, step: StepRunner, outs: seq<Entry>): (seq<Entry>, bool)
    decreases |pres|
  {
    if pres == [] then (outs, false)
    else if !Truthy(pres[0].test) then Preconditions(pres[1..], step, outs)
    else
      var test := pres[0].test.value;
      var t := step(PreconditionTest, |outs|, test);
      var o1 := outs + [Record(PreconditionTest, test, t)];
      if !t.success && Truthy(pres[0].solve) then
        var solve := pres[0].solve.value;
        var s := step(PreconditionSolve, |o1|, solve);
        var o2 := o1 + [Record(PreconditionSolve, solve, s)];
        if s.success then Preconditions(pres[1..], step, o2) else (o2, true)
      else
        Preconditions(pres[1..], step, o1)
  }

  /** The command or cleanup loop: every step runs, and any failure sets the status to failure. */
  function Steps(kind: StepKind, cmds: seq<string>, step: StepRunner, outs: seq<Entry>, status: Status): (seq<Entry>, Status)
    decreases |cmds|
  {
    if cmds == [] then (outs, status)
    else
      var r := step(kind, |outs|, cmds[0]);
      Steps(kind, cmds[1..], step, outs + [Record(kind, cmds[0], r)], if r.success then status else Failure)
  }

  /** The whole pipeline: preconditions, commands unless a solve failed, then cleanups always. */
  function Execute(b: Bundle, step: StepRunner): Execution {
    var (pre, stopped) := Preconditions(b.preconditions, step, []);
    var (afterCommands, status) := if stopped then (pre, Failure) else Steps(Command, b.commands, step, pre, Success);
    var (done, final) := Steps(Cleanup, b.cleanups, step, afterCommands, status);
    Execution(done, final, PriorityOf(b.metadata))
  }

  /** The three loops of the agent's command handler. */
  method RunBundle(b: Bundle, step: StepRunner) returns (e: Execution)
    ensures e == Execute(b, step)
  {
    var outputs: seq<Entry> := [];
    var status := Success;
    var priority := PriorityOf(b.metadata);

    var i := 0;
    while i < |b.preconditions|
      invariant 0 <= i <= |b.preconditions|
      invariant Preconditions(b.preconditions, step, []) == Preconditions(b.preconditions[i..], step, outputs)
      invariant status == Success
    {
      var p := b.preconditions[i];
      assert b.preconditions[i..][1..] == b.preconditions[i + 1..];
      if Truthy(p.test) {
        var t := step(PreconditionTest, |outputs|, p.test.value);
        var testStatus := if t.success then Success else Failure;
        outputs := outputs + [Entry(PreconditionTest, p.test.value, t.output, testStatus)];
        if testStatus == Failure && Truthy(p.solve) {
          var s := step(PreconditionSolve, |outputs|, p.solve.value);
          var solveStatus := if s.success then Success else Failure;
          outputs := outputs + [Entry(PreconditionSolve, p.solve.value, s.output, solveStatus)];
          if solveStatus == Failure {
            status := Failure;
            assert Preconditions(b.preconditions, step, []) == (outputs, true);
            break;
          }
        }
      }
      i := i + 1;
    }
    assert Preconditions(b.preconditions, step, []) == (outputs, status == Failure);

    if status == Success {
      ghost var pre := outputs;
      var j := 0;
      while j < |b.commands|
        invariant 0 <= j <= |b.commands|
        invariant Steps(Command, b.commands, step, pre, Success) == Steps(Command, b.commands[j..], step, outputs, status)
      {
        assert b.commands[j..][1..] == b.commands[j + 1..];
        var r := step(Command, |outputs|, b.commands[j]);
        var commandStatus := if r.success then Success else Failure;
        outputs := outputs + [Entry(Command, b.commands[j], r.output, commandStatus)];
        if commandStatus == Failure {
          status := Failure;
        }
        j := j + 1;
      }
    }

    ghost var beforeCleanups := (outputs, status);
    var k := 0;
    while k < |b.cleanups|
      invariant 0 <= k <= |b.cleanups|
      invariant Steps(Cleanup, b.cleanups, step, beforeCleanups.0, beforeCleanups.1)
        == Steps(Cleanup, b.cleanups[k..], step, outputs, status)
    {
      assert b.cleanups[k..][1..] == b.cleanups[k + 1..];
      var r := step(Cleanup, |outputs|, b.cleanups[k]);
      var cleanupStatus := if r.success then Success else Failure;
      outputs := outputs + [Entry(Cleanup, b.cleanups[k], r.output, cleanupStatus)];
      if cleanupStatus == Failure {
        status := Failure;
      }
      k := k + 1;
    }

    e := Execution(outputs, status, priority);
  }

  /**
   * The command and cleanup loops append exactly one entry per step, in order,
   * and each new entry records the runner's verdict on that step at its position.
   */
  lemma {:induction false} StepsEntries(kind: StepKind, cmds: seq<string>, step: StepRunner, outs: seq<Entry>, status: Status)
    ensures var o := Steps(kind, cmds, step, outs, status).0;
      && |o| == |outs| + |cmds| && o[..|outs|] == outs
      && forall k :: |outs| <= k < |o| ==> o[k] == Record(kind, cmds[k - |outs|], step(kind, k, cmds[k - |outs|]))
    decreases |cmds|
  {
    if cmds != [] {
      var r := step(kind, |outs|, cmds[0]);
      var outs' := outs + [Record(kind, cmds[0], r)];
      var status' := if r.success then status else Failure;
      StepsEntries(kind, cmds[1..], step, outs', status');
      var o := Steps(kind, cmds[1..], step, outs', status').0;
      assert Steps(kind, cmds, step, outs, status).0 == o;
      assert o[..|outs|] == outs by { assert o[..|outs|] == o[..|outs'|][..|outs|]; }
      forall k | |outs| <= k < |o|
        ensures o[k] == Record(kind, cmds[k - |outs|], step(kind, k, cmds[k - |outs|]))
      {
        if k == |outs| {
          assert o[k] == o[..|outs'|][k] == outs'[k];
        } else {
          assert cmds[1..][k - |outs'|] == cmds[k - |outs|];
        }
      }
    }
  }

  /**
   * The status after a command or cleanup loop is failure exactly when it was
   * failure before or one of the new entries failed: it is never reset.
   */
  lemma {:induction false} StepsStatus(kind: StepKind, cmds: seq<string>, step: StepRunner, outs: seq<Entry>, status: Status)
    ensures var (o, s) := Steps(kind, cmds, step, outs, status);
      s == Failure <==> status == Failure || exists k :: |outs| <= k < |o| && o[k].status == Failure
    decreases |cmds|
  {
    if cmds != [] {
      var r := step(kind, |outs|, cmds[0]);
      var outs' := outs + [Record(kind, cmds[0], r)];
      var status' := if r.success then status else Failure;
      StepsStatus(kind, cmds[1..], step, outs', status');
      StepsEntries(kind, cmds[1..], step, outs', status');
      var (o, s) := Steps(kind, cmds[1..], step, outs', status');
      assert Steps(kind, cmds, step, outs, status) == (o, s);
      assert o[|outs|] == o[..|outs'|][|outs|] == outs'[|outs|];
      if s == Failure && status != Failure && r.success {
        var k :| |outs'| <= k < |o| && o[k].status == Failure;
        assert |outs| <= k < |o|;
      }
      if exists k :: |outs| <= k < |o| && o[k].status == Failure {
        var k :| |outs| <= k < |o| && o[k].status == Failure;
        if k != |outs| {
          assert |outs'| <= k < |o|;
        }
      }
    }
  }

  /**
   * The precondition loop appends only precondition entries, and each records
   * the runner's verdict on the step at its position.
   */
  lemma {:induction false} PreconditionsEntries(pres: seq<Precondition>, step: StepRunner, outs: seq<Entry>)
    ensures var o := Preconditions(pres, step, outs).0;
      && |o| >= |outs| && o[..|outs|] == outs
      && forall k :: |outs| <= k < |o| ==>
           o[k].kind.IsPrecondition() && o[k] == Record(o[k].kind, o[k].command, step(o[k].kind, k, o[k].command))
    decreases |pres|
  {
    if pres != [] && Truthy(pres[0].test) {
      var test := pres[0].test.value;
      var t := step(PreconditionTest, |outs|, test);
      var o1 := outs + [Record(PreconditionTest, test, t)];
      if !t.success && Truthy(pres[0].solve) {
        var solve := pres[0].solve.value;
        var s := step(PreconditionSolve, |o1|, solve);
        var o2 := o1 + [Record(PreconditionSolve, solve, s)];
        if s.success {
          PreconditionsEntries(pres[1..], step, o2);
          var o := Preconditions(pres[1..], step, o2).0;
          assert o[..|outs|] == outs by { assert o[..|outs|] == o[..|o2|][..|outs|]; }
          forall k | |outs| <= k < |o2| ensures o[k] == o2[k] {
            assert o[k] == o[..|o2|][k];
          }
        }
      } else {
        PreconditionsEntries(pres[1..], step, o1);
        var o := Preconditions(pres[1..], step, o1).0;
        assert o[..|outs|] == outs by { assert o[..|outs|] == o[..|o1|][..|outs|]; }
        assert o[|outs|] == o[..|o1|][|outs|];
      }
    } else if pres != [] {
      PreconditionsEntries(pres[1..], step, outs);
    }
  }

  /** Some entry from position `from` on is a failing solve. */
  ghost predicate FailedSolveFrom(o: seq<Entry>, from: nat) {
    exists k :: from <= k < |o| && o[k].kind == PreconditionSolve && o[k].status == Failure
  }

  /** The precondition loop stops exactly when it has recorded a failing solve. */
  lemma {:induction false} PreconditionsStop(pres: seq<Precondition>, step: StepRunner, outs: seq<Entry>)
    ensures var (o, stopped) := Preconditions(pres, step, outs);
      stopped <==> FailedSolveFrom(o, |outs|)
    decreases |pres|, 0
  {
    if pres != [] && Truthy(pres[0].test) {
      var test := pres[0].test.value;
      var t := step(PreconditionTest, |outs|, test);
      var o1 := outs + [Record(PreconditionTest, test, t)];
      if !t.success && Truthy(pres[0].solve) {
        var solve := pres[0].solve.value;
        var s := step(PreconditionSolve, |o1|, solve);
        var o2 := o1 + [Record(PreconditionSolve, solve, s)];
        if s.success {
          assert Preconditions(pres, step, outs) == Preconditions(pres[1..], step, o2);
          PreconditionsSkipsKnown(pres[1..], step, o2, |outs|);
        } else {
          assert o2[|o2| - 1].kind == PreconditionSolve;
        }
      } else {
        assert Preconditions(pres, step, outs) == Preconditions(pres[1..], step, o1);
        PreconditionsSkipsKnown(pres[1..], step, o1, |outs|);
      }
    } else if pres != [] {
      PreconditionsStop(pres[1..], step, outs);
    }
  }

  /**
   * Continuing the loop after entries that hold no failing solve: it stops
   * exactly when a failing solve shows up among all those entries.
   */
  lemma {:induction false} PreconditionsSkipsKnown(pres: seq<Precondition>, step: StepRunner, outs: seq<Entry>, from: nat)
    requires from <= |outs| && !FailedSolveFrom(outs, from)
    ensures var (o, stopped) := Preconditions(pres, step, outs);
      stopped <==> FailedSolveFrom(o, from)
    decreases |pres|, 1
  {
    PreconditionsStop(pres, step, outs);
    PreconditionsEntries(pres, step, outs);
    var o := Preconditions(pres, step, outs).0;
    assert forall k :: 0 <= k < |outs| ==> o[k] == outs[k];
  }

  /** When the precondition loop stops, the failing solve is the last entry it appended. */
  lemma {:induction false} PreconditionsStopLast(pres: seq<Precondition>, step: StepRunner, outs: seq<Entry>)
    ensures var (o, stopped) := Preconditions(pres, step, outs);
      stopped ==> |o| > |outs| && o[|o| - 1].kind == PreconditionSolve && o[|o| - 1].status == Failure
    decreases |pres|
  {
    if pres != [] && Truthy(pres[0].test) {
      var test := pres[0].test.value;
      var t := step(PreconditionTest, |outs|, test);
      var o1 := outs + [Record(PreconditionTest, test, t)];
      if !t.success && Truthy(pres[0].solve) {
        var solve := pres[0].solve.value;
        var s := step(PreconditionSolve, |o1|, solve);
        var o2 := o1 + [Record(PreconditionSolve, solve, s)];
        if s.success {
          PreconditionsStopLast(pres[1..], step, o2);
        }
      } else {
        PreconditionsStopLast(pres[1..], step, o1);
      }
    } else if pres != [] {
      PreconditionsStopLast(pres[1..], step, outs);
    }
  }

  /**
   * The precondition loop records an entry exactly when some precondition has a
   * non-empty test; without one it records nothing and does not stop.
   */
  lemma {:induction false} PreconditionsRunIffTest(pres: seq<Precondition>, step: StepRunner, outs: seq<Entry>)
    ensures var (o, stopped) := Preconditions(pres, step, outs);
      && (|o| == |outs| <==> forall k :: 0 <= k < |pres| ==> !Truthy(pres[k].test))
      && (|o| == |outs| ==> !stopped)
    decreases |pres|
  {
    if pres != [] {
      if !Truthy(pres[0].test) {
        PreconditionsRunIffTest(pres[1..], step, outs);
        assert forall k :: 1 <= k < |pres| ==> pres[k] == pres[1..][k - 1];
      } else {
        var test := pres[0].test.value;
        var t := step(PreconditionTest, |outs|, test);
        var o1 := outs + [Record(PreconditionTest, test, t)];
        if !t.success && Truthy(pres[0].solve) {
          var s := step(PreconditionSolve, |o1|, pres[0].solve.value);
          var o2 := o1 + [Record(PreconditionSolve, pres[0].solve.value, s)];
          PreconditionsEntries(pres[1..], step, o2);
        } else {
          PreconditionsEntries(pres[1..], step, o1);
        }
      }
    }
  }

  /**
   * The layout of a run: first the precondition entries, then one entry per
   * command in order (none at all when a solve failed), then one entry per
   * cleanup in order.
   */
  lemma ExecuteLayout(b: Bundle, step: StepRunner)
    ensures var e := Execute(b, step);
      var pre := Preconditions(b.preconditions, step, []).0;
      var ran := if Preconditions(b.preconditions, step, []).1 then 0 else |b.commands|;
      && |e.outputs| == |pre| + ran + |b.cleanups|
      && e.outputs[..|pre|] == pre
      && (forall k :: 0 <= k < |pre| ==> pre[k].kind.IsPrecondition())
      && (forall k :: |pre| <= k < |pre| + ran ==>
            e.outputs[k].kind == Command && e.outputs[k].command == b.commands[k - |pre|])
      && (forall k :: |pre| + ran <= k < |e.outputs| ==>
            e.outputs[k].kind == Cleanup && e.outputs[k].command == b.cleanups[k - |pre| - ran])
  {
    var (pre, stopped) := Preconditions(b.preconditions, step, []);
    PreconditionsEntries(b.preconditions, step, []);
    var (o2, s2) := if stopped then (pre, Failure) else Steps(Command, b.commands, step, pre, Success);
    if !stopped {
      StepsEntries(Command, b.commands, step, pre, Success);
    }
    StepsEntries(Cleanup, b.cleanups, step, o2, s2);
    var e := Execute(b, step);
    assert e.outputs == Steps(Cleanup, b.cleanups, step, o2, s2).0;
    assert e.outputs[..|pre|] == pre by { assert e.outputs[..|pre|] == e.outputs[..|o2|][..|pre|]; }
    forall k | |pre| <= k < |o2| ensures e.outputs[k] == o2[k] {
      assert e.outputs[k] == e.outputs[..|o2|][k];
    }
  }

  /** Every entry of a run records the runner's verdict on the step at its position. */
  lemma ExecuteFaithful(b: Bundle, step: StepRunner)
    ensures Faithful(Execute(b, step).outputs, step)
  {
    var (pre, stopped) := Preconditions(b.preconditions, step, []);
    PreconditionsEntries(b.preconditions, step, []);
    var (o2, s2) := if stopped then (pre, Failure) else Steps(Command, b.commands, step, pre, Success);
    if !stopped {
      StepsEntries(Command, b.commands, step, pre, Success);
    }
    StepsEntries(Cleanup, b.cleanups, step, o2, s2);
    var outs := Execute(b, step).outputs;
    assert outs == Steps(Cleanup, b.cleanups, step, o2, s2).0;
    forall k | 0 <= k < |o2| ensures outs[k] == o2[k] {
      assert outs[k] == outs[..|o2|][k];
    }
    forall k | 0 <= k < |pre| ensures o2[k] == pre[k] {
      assert o2[k] == o2[..|pre|][k];
    }
  }

  /**
   * The overall status is failure exactly when some entry other than a
   * precondition test failed: a failing test alone never fails the run.
   */
  lemma ExecuteStatus(b: Bundle, step: StepRunner)
    ensures var e := Execute(b, step);
      e.status == Failure <==>
        exists k :: 0 <= k < |e.outputs| && e.outputs[k].kind != PreconditionTest && e.outputs[k].status == Failure
  {
    var e := Execute(b, step);
    var (pre, stopped) := Preconditions(b.preconditions, step, []);
    PreconditionsStop(b.preconditions, step, []);
    ExecuteLayout(b, step);
    var (o2, s2) := if stopped then (pre, Failure) else Steps(Command, b.commands, step, pre, Success);
    if !stopped {
      StepsStatus(Command, b.commands, step, pre, Success);
      StepsEntries(Command, b.commands, step, pre, Success);
    }
    StepsStatus(Cleanup, b.cleanups, step, o2, s2);
    StepsEntries(Cleanup, b.cleanups, step, o2, s2);
    assert e == Execution(Steps(Cleanup, b.cleanups, step, o2, s2).0, Steps(Cleanup, b.cleanups, step, o2, s2).1, PriorityOf(b.metadata));
    forall k | 0 <= k < |o2| ensures e.outputs[k] == o2[k] {
      assert e.outputs[k] == e.outputs[..|o2|][k];
    }
    forall k | 0 <= k < |pre| ensures o2[k] == pre[k] {
      assert o2[k] == o2[..|pre|][k];
    }
    if e.status == Failure {
      if s2 == Failure {
        if stopped {
          var k :| 0 <= k < |pre| && pre[k].kind == PreconditionSolve && pre[k].status == Failure;
          assert e.outputs[k] == pre[k];
        } else {
          var k :| |pre| <= k < |o2| && o2[k].status == Failure;
          assert e.outputs[k] == o2[k] && e.outputs[k].kind == Command;
        }
      } else {
        var k :| |o2| <= k < |e.outputs| && e.outputs[k].status == Failure;
        assert e.outputs[k].kind == Cleanup;
      }
    }
    if exists k :: 0 <= k < |e.outputs| && e.outputs[k].kind != PreconditionTest && e.outputs[k].status == Failure {
      var k :| 0 <= k < |e.outputs| && e.outputs[k].kind != PreconditionTest && e.outputs[k].status == Failure;
      if k < |pre| {
        assert e.outputs[k] == pre[k] && pre[k].kind == PreconditionSolve;
      } else if k < |o2| {
        assert !stopped && e.outputs[k] == o2[k];
      }
    }
  }

  /**
   * When a solve fails the run is a failure, the failing solve is the last
   * precondition entry, and no command entry appears at all.
   */
  lemma FailedSolveSkipsCommands(b: Bundle, step: StepRunner)
    requires Preconditions(b.preconditions, step, []).1
    ensures var e := Execute(b, step);
      var pre := Preconditions(b.preconditions, step, []).0;
      && e.status == Failure
      && pre != [] && pre[|pre| - 1].kind == PreconditionSolve && pre[|pre| - 1].status == Failure
      && forall k :: 0 <= k < |e.outputs| ==> e.outputs[k].kind != Command
  {
    var e := Execute(b, step);
    var pre := Preconditions(b.preconditions, step, []).0;
    PreconditionsStopLast(b.preconditions, step, []);
    ExecuteLayout(b, step);
    StepsStatus(Cleanup, b.cleanups, step, pre, Failure);
    forall k | 0 <= k < |e.outputs| ensures e.outputs[k].kind != Command {
      if k < |pre| {
        assert e.outputs[k] == e.outputs[..|pre|][k] == pre[k];
      }
    }
  }

  /**
   * Without any solve command the precondition loop never stops: every command
   * runs even when tests fail, and those failing tests leave the status alone.
   */
  lemma {:induction false} NoSolveNeverStops(pres: seq<Precondition>, step: StepRunner, outs: seq<Entry>)
    requires forall k :: 0 <= k < |pres| ==> !Truthy(pres[k].solve)
    ensures !Preconditions(pres, step, outs).1
    decreases |pres|
  {
    if pres != [] {
      var o1 := outs + [Record(PreconditionTest, pres[0].test.GetOr([]), step(PreconditionTest, |outs|, pres[0].test.GetOr([])))];
      NoSolveNeverStops(pres[1..], step, outs);
      NoSolveNeverStops(pres[1..], step, o1);
    }
  }

  /** A precondition whose test is absent or empty runs nothing and leaves no trace. */
  lemma {:induction false} EmptyTestIgnored(before: seq<Precondition>, p: Precondition, after: seq<Precondition>,
                                            step: StepRunner, outs: seq<Entry>)
    requires !Truthy(p.test)
    ensures Preconditions(before + [p] + after, step, outs) == Preconditions(before + after, step, outs)
    decreases |before|
  {
    if before == [] {
      assert ([p] + after)[1..] == after;
      assert before + [p] + after == [p] + after;
      assert before + after == after;
    } else {
      var q := before[0];
      assert (before + [p] + after)[0] == q && (before + after)[0] == q;
      assert (before + [p] + after)[1..] == before[1..] + [p] + after;
      assert (before + after)[1..] == before[1..] + after;
      if Truthy(q.test) {
        var t := step(PreconditionTest, |outs|, q.test.value);
        var o1 := outs + [Record(PreconditionTest, q.test.value, t)];
        EmptyTestIgnored(before[1..], p, after, step, o1);
        if !t.success && Truthy(q.solve) {
          var s := step(PreconditionSolve, |o1|, q.solve.value);
          EmptyTestIgnored(before[1..], p, after, step, o1 + [Record(PreconditionSolve, q.solve.value, s)]);
        }
      } else {
        EmptyTestIgnored(before[1..], p, after, step, outs);
      }
    }
  }

  /** So a run is the same with or without such a precondition anywhere in the bundle. */
  lemma EmptyTestIgnoredInRun(b: Bundle, before: seq<Precondition>, p: Precondition, after: seq<Precondition>, step: StepRunner)
    requires !Truthy(p.test) && b.preconditions == before + [p] + after
    ensures Execute(b, step) == Execute(b.(preconditions := before + after), step)
  {
    EmptyTestIgnored(before, p, after, step, []);
  }

  /**
   * A failing test whose solve succeeds: the two entries are the failed test and
   * the successful solve, the test is not re-run, and the loop goes on to the
   * next precondition with the status untouched.
   */
  lemma SolveIsTrusted(p: Precondition, rest: seq<Precondition>, step: StepRunner, outs: seq<Entry>)
    requires Truthy(p.test) && Truthy(p.solve)
    requires !step(PreconditionTest, |outs|, p.test.value).success
    requires step(PreconditionSolve, |outs| + 1, p.solve.value).success
    ensures var test := step(PreconditionTest, |outs|, p.test.value);
      var solve := step(PreconditionSolve, |outs| + 1, p.solve.value);
      Preconditions([p] + rest, step, outs)
        == Preconditions(rest, step, outs + [Entry(PreconditionTest, p.test.value, test.output, Failure),
                                            Entry(PreconditionSolve, p.solve.value, solve.output, Success)])
  {
    assert ([p] + rest)[1..] == rest;
    var o1 := outs + [Record(PreconditionTest, p.test.value, step(PreconditionTest, |outs|, p.test.value))];
    assert |o1| == |outs| + 1;
    assert o1 + [Record(PreconditionSolve, p.solve.value, step(PreconditionSolve, |outs| + 1, p.solve.value))]
      == outs + [Entry(PreconditionTest, p.test.value, step(PreconditionTest, |outs|, p.test.value).output, Failure),
                 Entry(PreconditionSolve, p.solve.value, step(PreconditionSolve, |outs| + 1, p.solve.value).output, Success)];
  }

  /** A failing test without a solve is recorded and the loop goes on with the next precondition. */
  lemma UnsolvedTestGoesOn(p: Precondition, rest: seq<Precondition>, step: StepRunner, outs: seq<Entry>)
    requires Truthy(p.test) && !Truthy(p.solve)
    ensures Preconditions([p] + rest, step, outs)
      == Preconditions(rest, step, outs + [Record(PreconditionTest, p.test.value, step(PreconditionTest, |outs|, p.test.value))])
  {
    assert ([p] + rest)[1..] == rest;
  }

  /**
   * A bundle whose only precondition fails its test and has no solve: the failed
   * test is the first entry, every command still runs after it, and the run fails
   * exactly when a later entry failed, not because of the test.
   */
  lemma UnsolvedTestRun(b: Bundle, step: StepRunner)
    requires |b.preconditions| == 1 && Truthy(b.preconditions[0].test) && !Truthy(b.preconditions[0].solve)
    requires !step(PreconditionTest, 0, b.preconditions[0].test.value).success
    ensures var e := Execute(b, step);
      var test := b.preconditions[0].test.value;
      && |e.outputs| == 1 + |b.commands| + |b.cleanups|
      && e.outputs[0] == Entry(PreconditionTest, test, step(PreconditionTest, 0, test).output, Failure)
      && (forall k :: 1 <= k <= |b.commands| ==> e.outputs[k].kind == Command)
      && (e.status == Failure <==> exists k :: 1 <= k < |e.outputs| && e.outputs[k].status == Failure)
  {
    var p := b.preconditions[0];
    assert b.preconditions == [p] + [];
    UnsolvedTestGoesOn(p, [], step, []);
    var pre := [Record(PreconditionTest, p.test.value, step(PreconditionTest, 0, p.test.value))];
    assert [] + pre == pre;
    assert Preconditions([], step, pre) == (pre, false);
    assert Preconditions(b.preconditions, step, []) == (pre, false);
    ExecuteLayout(b, step);
    ExecuteStatus(b, step);
    var e := Execute(b, step);
    assert e.outputs[0] == e.outputs[..1][0] == pre[0];
  }

  /**
   * A failing test whose solve succeeds, then two commands of which the first
   * fails: the entries are the failed test, the successful solve, the failed
   * command and the successful command, in that order, and the run fails
   * because of the command although the precondition was solved.
   */
  lemma SolvedThenMixedCommands(b: Bundle, step: StepRunner)
    requires |b.preconditions| == 1 && Truthy(b.preconditions[0].test) && Truthy(b.preconditions[0].solve)
    requires !step(PreconditionTest, 0, b.preconditions[0].test.value).success
    requires step(PreconditionSolve, 1, b.preconditions[0].solve.value).success
    requires |b.commands| == 2
    requires !step(Command, 2, b.commands[0]).success && step(Command, 3, b.commands[1]).success
    ensures var e := Execute(b, step);
      && |e.outputs| == 4 + |b.cleanups|
      && e.outputs[0].kind == PreconditionTest && e.outputs[0].status == Failure
      && e.outputs[1].kind == PreconditionSolve && e.outputs[1].status == Success
      && e.outputs[2] == Entry(Command, b.commands[0], step(Command, 2, b.commands[0]).output, Failure)
      && e.outputs[3] == Entry(Command, b.commands[1], step(Command, 3, b.commands[1]).output, Success)
      && e.status == Failure
  {
    var p := b.preconditions[0];
    assert b.preconditions == [p] + [];
    SolveIsTrusted(p, [], step, []);
    var pre := [Entry(PreconditionTest, p.test.value, step(PreconditionTest, 0, p.test.value).output, Failure),
                Entry(PreconditionSolve, p.solve.value, step(PreconditionSolve, 1, p.solve.value).output, Success)];
    assert [] + pre == pre;
    assert Preconditions([], step, pre) == (pre, false);
    assert Preconditions(b.preconditions, step, []) == (pre, false);
    ExecuteLayout(b, step);
    ExecuteFaithful(b, step);
    ExecuteStatus(b, step);
    var e := Execute(b, step);
    assert e.outputs[0] == e.outputs[..2][0] == pre[0];
    assert e.outputs[1] == e.outputs[..2][1] == pre[1];
    assert e.outputs[2].kind != PreconditionTest && e.outputs[2].status == Failure;
  }
}
