# Hexashield agent command protocol, in Dafny

This project models the command protocol between the Hexashield controller and its agents, and proves properties of the model.

- **Controller session registry.** The controller keeps `connected_agents`, an insertion-ordered dictionary from agent identifier to Socket.IO session. Registration binds an agent to a session, and the last writer wins. A disconnect finds the agent by a reverse lookup on the session and unbinds it.
- **Dispatch.** The HTTP `send_command` resolves the agent and refuses an empty command list. It rewrites `#{name}` placeholders and emits the bundle to the agent's session. The Socket.IO `send_command_to_agent` only resolves the agent and forwards the data.
- **Execution engine.** An agent runs a bundle in three phases:
  - preconditions: a test, then an optional solve;
  - commands;
  - cleanups.

  The engine builds an ordered list of step entries and an overall status. The status starts at "success" and can only move to "failure".
- **Agent variants.** There are two agents, and they share one engine:
  - the headless agent classifies a step by its process's exit status;
  - the desktop agent classifies a step by words in its output.
- **Renderer.** The controller renders an agent's client information as text.

## Layout

- `wrappers.dfy`: `Option` and Python truthiness of an optional string.
- `text.dfy`: the Python string operations the core uses:
  - `strip` over the `str.isspace` set;
  - ASCII `lower`;
  - substring test;
  - `replace`;
  - `join`, and `split` on one character.
- `dicts.dfy`: an insertion-ordered `dict[str, str]` as a sequence of pairs.
  - Assigning to an existing key keeps its position.
  - Deleting a key closes the gap.
  - A reverse lookup returns the first match in iteration order.
- `task.dfy`: step kinds, statuses, priorities and output entries (`backend/models/task.py`).
- `helper.dfy`: `run_command_in_script_mode` and `run_command` over a described process result, plus the client-information records.
- `engine.dfy`: the shared three-phase engine.
  - `Execute` is the specification.
  - `RunBundle` is the three loops, proved equal to it.
  - The lemmas state ordering, short-circuit and status laws.
- `agent_main.dfy`: `Agent` in `backend/agent/main.py`, with registration and the exit-status classifier.
- `agent_ui.dfy`: `AgentApp` in `backend/agent/agent_ui_app.py`, with connect, disconnect, registration and the word classifier.
- `agent_events.dfy`: the registry class and the registration and disconnect handlers.
- `event_utils.dfy`: the reverse lookup `get_agent_id_by_sid` and the renderer `format_agent_client_info`.
- `dispatch.dfy`: the HTTP `send_command`, covering placeholder substitution, the input table and the emitted payload.
- `socket_server.dfy`: the Socket.IO `send_command_to_agent`.

Effects are parameters or results throughout:
- **Processes.** A step's process is described by an oracle over its ordinal in the bundle and its command text.
- **Emits.** An emit is described by whether and how it raised, and the emitted payload is part of the result.
- **Repository.** A repository call is described by its outcome.

Where the behaviour of the code differs from the obvious reading, the model follows the code, with one exception: the desktop agent's step classifier follows the evidently intended reading, and the code as written is under "## Findings". The main cases where the model follows the code:
- A failing precondition test with no solve command does not stop the run and does not set the status to failure (`backend/agent/main.py:127`). The commands still run. `Engine.UnsolvedTestRun` states it.
- The desktop agent's `register_agent` sets `is_registered = False` even after a successful emit. Its "already registered" guard therefore never trips after a fresh start.

## Model

| member | source | states |
|---|---|---|
| Helper.RunCommandInScriptMode | backend/agent/helper.py:191-218 | The flag holds exactly for exit status 0. The output is the stripped stdout on exit 0, or the stripped stderr on a non-zero exit. It is "command could not be executed" when stderr is blank, and the exception text for any other exception. A failed completed process never reports an empty output. |
| Helper.RunCommand | backend/agent/helper.py:172-188 | Exit 0 gives exactly the keys status="success" and output (stripped stdout). A non-zero exit gives exactly status="error" and error (stripped stderr). Any other exception escapes. |
| Helper.ScriptModeAgreesWithRunCommand | backend/agent/helper.py:182-188 | Script mode succeeds exactly when `run_command` says "success", with the same output. On failure it reports `run_command`'s error text, or the sentinel when that text is empty. |
| Engine.RunBundle | backend/agent/main.py:94-169 | The three loops (with the `break` on a failing solve) produce exactly the outputs, status and priority of the specification `Execute`. |
| Engine.StepsEntries | backend/agent/main.py:142-169 | A command or cleanup loop appends one entry per step, in order, after the existing entries and without changing them. Each entry records that step's command and its result. |
| Engine.StepsStatus | backend/agent/main.py:153-169 | After a command or cleanup loop the status is failure exactly when it already was, or some appended step failed. Failure is never reset. |
| Engine.PreconditionsEntries | backend/agent/main.py:111-140 | The precondition loop only appends, every appended entry is a precondition entry, and each records the runner's verdict for its position. |
| Engine.PreconditionsStop | backend/agent/main.py:127-140 | The precondition loop stops exactly when one of its own entries is a failing solve. |
| Engine.PreconditionsSkipsKnown | backend/agent/main.py:111-140 | An entry list with no failing solve after a given position keeps that property through the loop, unless the loop stops. |
| Engine.PreconditionsStopLast | backend/agent/main.py:138-140 | When the loop stops, its last entry is the failing solve that stopped it (`break`). |
| Engine.ExecuteLayout | backend/agent/main.py:111-169 | Outputs are the precondition entries, then one entry per command in order (none when a solve failed), then one entry per cleanup in order. |
| Engine.ExecuteFaithful | backend/agent/main.py:116-124 | Every entry's status is "success" exactly when the runner reported success for that step at that position, and its output is the runner's output. |
| Engine.ExecuteStatus | backend/agent/main.py:101 | The overall status is failure exactly when some entry other than a precondition test failed. |
| Engine.FailedSolveSkipsCommands | backend/agent/main.py:138-142 | After a failing solve the run fails, the failing solve is the last precondition entry, and no command entry appears. Cleanups still run. |
| Engine.NoSolveNeverStops | backend/agent/main.py:127 | Without any solve command the precondition loop never stops, whatever the tests report. |
| Engine.EmptyTestIgnored | backend/agent/main.py:112-115 | A precondition whose test is absent or empty can be removed from the list without changing the loop's result. |
| Engine.EmptyTestIgnoredInRun | backend/agent/main.py:112-115 | The same holds for the whole run. |
| Engine.SolveIsTrusted | backend/agent/main.py:127-140 | A failing test whose solve succeeds contributes exactly a failed test entry and a successful solve entry. The test is not re-run, and the loop continues. |
| Engine.UnsolvedTestGoesOn | backend/agent/main.py:127 | A failing test without a solve contributes one entry and the loop continues. |
| Engine.UnsolvedTestRun | backend/agent/main.py:127-155 | With one precondition whose test fails and which has no solve: the failed test is the first entry, every command still runs, and the status depends only on the later entries. |
| Engine.SolvedThenMixedCommands | backend/agent/main.py:111-155 | A failed test, a successful solve, then a failing and a succeeding command give those four entries in order, and the run fails. |
| Engine.PriorityOf | backend/agent/main.py:104-105 | The priority is the metadata's `priority`, or "medium" when the metadata or its priority is absent. Stated through `Engine.DispatchedBundleRunsRewrittenCommands` and the response rows. |
| Engine.Preconditions | backend/agent/main.py:111-140 | The specification of the precondition loop: a test runs only when non-empty, a solve only after a failing test, and a failing solve stops the loop. Its laws are the `Preconditions…` lemmas. |
| Engine.Steps | backend/agent/main.py:142-169 | The specification of a command or cleanup loop. Its laws are `Engine.StepsEntries` and `Engine.StepsStatus`. |
| Engine.Execute | backend/agent/main.py:111-169 | The specification of a whole run: preconditions, commands unless a solve failed, then cleanups always. `Engine.RunBundle` is proved equal to it, and the `Execute…` lemmas state its layout and status. |
| Engine.PreconditionsRunIffTest | backend/agent/main.py:111-115 | The precondition loop records an entry exactly when some precondition has a non-empty test. Without one it records nothing and does not stop. |
| AgentMain.Agent.constructor | backend/agent/main.py:66-76 | Starts unregistered, with no identifier and no client information. |
| AgentMain.Agent.RegisterAgent | backend/agent/main.py:190-218 | A registered agent does nothing. Otherwise:<br>• the client information and identifier are stored first;<br>• an error or a missing identifier stops the attempt;<br>• the registration payload goes out with the agent's conversation and user, status "online";<br>• `is_registered` becomes true only when the emit did not raise.<br>A registered agent always has an identifier and client information. |
| AgentMain.Agent.HandleCommand | backend/agent/main.py:94-188 | The response is the engine's run under script mode, with `agent_id`, `conversation_id`, `agent_name` (the stored hostname) and `created_by` from the agent. No response is built when there is no client information. A registered agent always answers. |
| AgentMain.ScriptRunner | backend/agent/main.py:116-118 | Every kind of step runs through script mode, with its flag as the verdict. Its properties are `AgentMain.ScriptEntries` and `AgentMain.ScriptStatus`. |
| AgentMain.ScriptEntries | backend/agent/main.py:116-118 | Under script mode an entry is "success" exactly when its process exited with status 0, and its output is script mode's output for that process. |
| AgentMain.ScriptStatus | backend/agent/main.py:101-169 | A run fails exactly when some process other than a precondition test did not exit with status 0. |
| AgentUi.AgentApp.constructor | backend/agent/agent_ui_app.py:38-45 | Keeps the given details; not connected and not registered. |
| AgentUi.AgentApp.ConnectToSocket | backend/agent/agent_ui_app.py:109-126 | Refused when already connected. A missing "Socket URL" or a raising connect changes nothing. A successful connect sets `connected` and "Status" = "Online". |
| AgentUi.AgentApp.DisconnectSocket | backend/agent/agent_ui_app.py:128-144 | Refused when not connected. A raising disconnect changes nothing. Otherwise `connected` becomes false and "Status" = "Offline". |
| AgentUi.AgentApp.RegisterAgent | backend/agent/agent_ui_app.py:146-178 | A probe error or a missing identifier changes nothing. Otherwise "Agent ID" is written before the emit, and the payload carries the details' conversation and user. A request exception is caught, and any other exception escapes. `is_registered` is false afterwards in every case. |
| AgentUi.AgentApp.OnExecuteCommand | backend/agent/agent_ui_app.py:194-298 | The response is the engine's run under the word classifier. `agent_id` comes from the bundle, and conversation and user come from the details. There is no response when either detail is missing. |
| AgentUi.UiRunner | backend/agent/agent_ui_app.py:219-272 | A solve succeeds when its lowercased output contains "success", and any other step fails when its lowercased output contains "failure". Its properties are `AgentUi.UiEntries`, `AgentUi.UiStatus` and `AgentUi.SilentStep`. |
| AgentUi.UiEntries | backend/agent/agent_ui_app.py:219-281 | A solve entry is "success" exactly when its lowercased output contains "success". Any other entry is "failure" exactly when it contains "failure". |
| AgentUi.UiStatus | backend/agent/agent_ui_app.py:202-282 | The run fails exactly when a solve's output lacks "success", or a command's or cleanup's output contains "failure". |
| AgentUi.SilentStep | backend/agent/agent_ui_app.py:221-238 | An empty output passes as a test, command or cleanup and fails as a solve. |
| AgentUi.AgentApp.OnExecuteCommandAsWritten | backend/agent/agent_ui_app.py:214-282 | As written, `.lower()` is applied to the pair script mode returns and raises at the first step that runs. Only a bundle in which no step runs is answered, with no entries and status "success". |
| AgentUi.AsWrittenAnswersOnlyEmptyRuns | backend/agent/agent_ui_app.py:214-282 | A step runs exactly when the intended run records an entry. When none runs, the intended run is empty, so the as-written answer agrees with the intended one. |
| AgentUi.OneCommandUnanswered | backend/agent/agent_ui_app.py:252-264 | A bundle of the single command "ls" runs a step, so as written it goes unanswered, while the intended run records that command. |
| AgentEvents.Registry.constructor | backend/c2_server/events/agent_events.py:33 | The registry starts empty. |
| AgentEvents.Registry.HandleAgentRegistration | backend/c2_server/events/agent_events.py:75-108 | A missing or empty `agent_id`, a failed validation, or a raising upsert leaves the map unchanged (`ValueError` is caught, anything else escapes). A successful upsert binds agent to session, replacing an earlier session. The broadcast comes after the bind, so the binding stays whether the broadcast returns, raises a caught `ValueError`, or raises anything else (which escapes). Keys stay unique and non-empty. |
| AgentEvents.Registry.HandleClientDisconnect | backend/c2_server/events/agent_events.py:41-72 | A session bound to nothing changes nothing. Otherwise the first agent bound to it is removed before the offline status is stored. The offline notice `{agent_id, "offline"}` is attempted only when the store succeeded. A `ValueError` from the store or from the broadcast is caught, and anything else escapes; the agent is unbound in every case. |
| AgentEvents.PutKeysNonEmpty | backend/c2_server/events/agent_events.py:83-100 | Binding a non-empty identifier keeps every key of the map non-empty. |
| AgentEvents.RemoveKeysNonEmpty | backend/c2_server/events/agent_events.py:51 | Unbinding keeps every key of the map non-empty. |
| AgentEvents.LastRegistrationWins | backend/c2_server/events/agent_events.py:100 | After two registrations of one agent it resolves to the later session, at its original position. |
| AgentEvents.DisconnectRemovesFirstMatch | backend/c2_server/events/agent_events.py:46-51 | A disconnect removes exactly the first entry carrying the session, and every other entry stays in order. |
| AgentEvents.StaleDisconnectKeepsNewBinding | backend/c2_server/events/agent_events.py:46-51 | After re-registration under a new session, a late disconnect of the old session leaves the new binding. |
| AgentEvents.GetAt | backend/c2_server/events/agent_events.py:100 | With unique keys, each entry's key resolves to that entry's session. |
| EventUtils.GetAgentIdBySid | backend/c2_server/events/utils.py:11-16 | The loop returns the first agent in iteration order bound to the session, or None exactly when no entry carries it. This is the same lookup the disconnect handler uses. |
| EventUtils.FormatAgentClientInfo | backend/c2_server/events/utils.py:18-57 | The rendered text: the header, the labelled fields, then the interface and OS blocks. Every absent field reads "Unknown". Its line structure is `EventUtils.FormatLines`. |
| EventUtils.FormatLines | backend/c2_server/events/utils.py:18-57 | With single-line values, the rendering is the header "Client Info:", then process id and address, then the interface lines in order ("No IPs" for an empty list, a blank line for no interfaces), then the five OS lines, codename, hostname and username. Every absent field reads "Unknown". |
| EventUtils.OsDetailsLines | backend/c2_server/events/utils.py:33-39 | The OS block splits into its five lines. |
| EventUtils.InterfaceBlockLines | backend/c2_server/events/utils.py:26-29 | The interface block splits into its interface lines, one per interface in list order, or one blank line when there are none. |
| EventUtils.LayoutLines | backend/c2_server/events/utils.py:46-55 | The template splits into its labelled lines in fixed order, with the two blocks contributing their own lines. |
| Dispatch.InputTable | backend/c2_server/app.py:210-213 | The input table over `inputs or []`. Its laws are `Dispatch.TableLastWins` and `Dispatch.TableKeys`. |
| Dispatch.Table | backend/c2_server/app.py:210-213 | The dictionary comprehension: each input assigned in list order, a later name overriding an earlier one while keeping its position. |
| Dispatch.Substitute | backend/c2_server/app.py:221-223 | The left fold of `replace` over the table in iteration order. Its laws are the `Substitute…` lemmas and `Dispatch.SubstitutionIsOrdered`. |
| Dispatch.Crashes | backend/c2_server/app.py:229-243 | The rewriting raises exactly when the preconditions or cleanups are omitted, or, with at least one input, some precondition has no `solve_cmd`. Stated through `Dispatch.SendCommand`. |
| Dispatch.Rewritten | backend/c2_server/app.py:229-243 | The payload of a request that does not crash: every test, solve, command and cleanup substituted, in order, with the path's `agent_id`. Stated through `Dispatch.SendCommand` and `Dispatch.NoInputsNoRewrite`. |
| Dispatch.RewriteAllEmpty | backend/c2_server/app.py:236-243 | With an empty input table a list of texts is sent as it is. |
| Dispatch.RewriteAllAppend | backend/c2_server/app.py:236-243 | Rewriting a list is rewriting each part of it: the comprehension keeps the order. |
| Dispatch.SendCommand | backend/c2_server/app.py:190-264 | Outcomes, in order of checking:<br>• an agent without a session gets 404 "Agent not connected", before the command list is looked at;<br>• an empty command list gets 400 "No commands provided";<br>• a rewriting that raises gives a server error;<br>• otherwise the rewritten payload, with the path's `agent_id`, is emitted to exactly the resolved session.<br>After a successful emit the reply is {"status": "success", "message": "Command sent"}. A `ValueError` gives 400, and anything else gives 500 "Failed to send command". Nothing is emitted on the error paths. |
| Dispatch.ReplacePlaceholders | backend/c2_server/app.py:215-226 | The loop computes the left fold of `replace` over the input table. With one input, every occurrence of its placeholder between `#`-free pieces becomes the input's value. |
| Dispatch.Placeholder | backend/c2_server/app.py:222 | A placeholder is `#{name}`. |
| Dispatch.SubstituteUntouched | backend/c2_server/app.py:221-226 | Text holding none of the placeholders comes through verbatim, so an unmatched placeholder stays. |
| Dispatch.SubstituteAppend | backend/c2_server/app.py:221-223 | Substitution is a left fold: two tables in sequence are one concatenated table. |
| Dispatch.SubstituteAfterPlainText | backend/c2_server/app.py:221-223 | "echo #{name}" with name = v renders "echo v". |
| Dispatch.SubstituteFirstEverywhere | backend/c2_server/app.py:221-223 | Every occurrence of the first input's placeholder between `#`-free pieces is replaced in one step, before the later inputs are applied. |
| Dispatch.SubstituteEveryOccurrence | backend/c2_server/app.py:215-226 | With one input, every occurrence of its placeholder between `#`-free pieces becomes its value. |
| Dispatch.RepeatedPlaceholder | backend/c2_server/app.py:221-223 | "echo #{n} #{n}" with n = x renders "echo x x". |
| Dispatch.SubstitutionIsOrdered | backend/c2_server/app.py:221-223 | A value inserted for one input is rewritten by a later input's placeholder, but not by an earlier one's. |
| Dispatch.TableLastWins | backend/c2_server/app.py:210-213 | The input table gives each name the value of its last input. |
| Dispatch.TableKeys | backend/c2_server/app.py:210-213 | The table has unique keys, and a name is absent exactly when no input carries it. |
| Dispatch.NoInputsNoRewrite | backend/c2_server/app.py:229-243 | With no inputs, every test, solve, command and cleanup is transmitted unchanged. The lists keep their length and order. |
| Dispatch.DispatchedBundleRunsRewrittenCommands | backend/c2_server/app.py:229-254 | An agent running the dispatched payload reports priority "medium". It runs every rewritten cleanup in order and, unless a solve failed, every rewritten command in order. |
| SocketServer.SendCommandToAgent | backend/c2_server/c2_socket_server.py:126-180 | A missing `agent_id` or an unresolved agent gives exactly one `command_error` to the caller, and nothing reaches any agent. Otherwise the data goes unchanged to exactly the resolved session. `command_success` is sent exactly when both emits returned, and the failure notice when one raised. |
| SocketServer.ForwardedOnceBeforeSuccess | backend/c2_server/c2_socket_server.py:169-176 | A resolved agent receives the data once, even with no commands, before the caller hears of success. |
| Dicts.Get | backend/c2_server/app.py:195 | `dict.get`: None exactly when the key is absent. |
| Dicts.Put | backend/c2_server/events/agent_events.py:100 | Assignment: an existing key keeps its position and takes the new value, and a new key is appended. Its laws are `Dicts.GetPut`, `Dicts.KeysPut` and `Dicts.PutUnique`. |
| Dicts.Remove | backend/c2_server/events/agent_events.py:51 | `del`: the entry of the key is removed and the gap closes. Its laws are `Dicts.GetRemove`, `Dicts.RemoveAt` and `Dicts.RemoveUnique`. |
| Dicts.KeyOf | backend/c2_server/events/agent_events.py:46-48 | Reverse lookup: None exactly when no entry carries the value, otherwise the key of the first such entry. |
| Dicts.KeyOfFirst | backend/c2_server/events/agent_events.py:46-48 | The reverse lookup returns the key of the first entry carrying the value. |
| Dicts.GetPut | backend/c2_server/events/agent_events.py:100 | After assigning a key, it reads the new value and every other key reads as before. |
| Dicts.GetRemove | backend/c2_server/events/agent_events.py:51 | After `del`, the key is absent and every other key reads as before. |
| Dicts.RemoveAt | backend/c2_server/events/agent_events.py:51 | Deleting the key at a position removes exactly that entry. |
| Dicts.KeysPut | backend/c2_server/events/agent_events.py:100 | Assigning an existing key keeps the key order; a new key goes to the end. |
| Dicts.PutUnique | backend/c2_server/events/agent_events.py:100 | Assignment keeps keys unique. |
| Dicts.RemoveUnique | backend/c2_server/events/agent_events.py:51 | `del` keeps keys unique and adds no key. |
| Text.Strip | backend/agent/helper.py:209 | `strip` removes exactly the leading and trailing whitespace. |
| Text.StripEmptyIffBlank | backend/agent/helper.py:212 | A stripped text is empty exactly when the text is blank. |
| Text.StripIdempotent | backend/agent/helper.py:209 | Stripping twice is stripping once. |
| Text.Lower | backend/agent/agent_ui_app.py:221 | `lower` keeps the length, leaves no ASCII capital, and leaves every other character as it is. |
| Text.Contains | backend/agent/agent_ui_app.py:221 | The substring test holds exactly when the pattern occurs at some index. |
| Text.Replace | backend/c2_server/app.py:223 | `str.replace`: left to right, non-overlapping. Its laws are `Text.ReplaceAbsent`, `Text.ReplaceAtFront`, `Text.ReplaceAfterPlain` and `Text.ReplaceJoin`. |
| Text.ReplaceAbsent | backend/c2_server/app.py:223 | A text without the pattern is unchanged. |
| Text.ReplaceAtFront | backend/c2_server/app.py:223 | A text starting with the pattern has it replaced, and the rest is rewritten. |
| Text.ReplaceAfterPlain | backend/c2_server/app.py:223 | A prefix free of the pattern's first character is kept verbatim. |
| Text.ReplaceJoin | backend/c2_server/app.py:223 | Every occurrence is replaced: pieces free of the pattern's first character, joined by the pattern, come out joined by the value. |
| Text.Join | backend/c2_server/events/utils.py:26-29 | `sep.join(parts)`. Its laws are `Text.JoinAvoids`, `Text.SplitJoin` and `Text.ReplaceJoin`. |
| Text.JoinAvoids | backend/c2_server/events/utils.py:26-29 | A character in neither the separator nor any part is absent from the joined text. |
| Text.Split | backend/c2_server/events/utils.py:46-55 | Splitting on one character, used to read the rendered text line by line; it always gives at least one piece. |
| Text.SplitJoin | backend/c2_server/events/utils.py:26-29 | Joining lines free of the separator and splitting again gives the lines back. |

## Left out

- Transport: Socket.IO servers and clients, reconnection, the agent's main loop and signal handlers (`backend/agent/main.py:39-50`, 220-248). An emit, connect or disconnect is described by its outcome. The `connect` callback that calls `register_agent` is a separate call of the modelled method.
- Processes and probes: `subprocess.run`, `get_agent_id`, `get_client_info`, `get_os_info` and `get_network_interfaces`. Their results are parameters.
- Timestamps: `created_at`, `completed_at`, `last_seen` and the float `execution_time` with its two-decimal formatting are not carried in any payload.
- Result correlation and persistence: `handle_command_response` and the repositories are database calls. The upsert is modelled only by its outcome.
- Concurrency: the registry is modelled sequentially. The source has no locking, and two bundles on one agent are not interleaved.
- Bundles with explicit nulls: the agents read an absent `metadata`, priority or list as its default. A key present with the value `null` (which would raise in `.get` or in iteration) is not modelled.
- Only ASCII letters are lowercased by `Text.Lower`. Python's `str.lower` also folds non-ASCII letters.
- AgentUi.UiRunner: classifies the step's output text, as the code evidently intends. The code as written raises on the first step; see "## Findings".
- AgentUi.AgentApp.OnExecuteCommand: the emit of the response is taken to succeed. An exception from it would only escape after the response is built.
- AgentEvents.Registry.HandleAgentRegistration: `AgentModel` validation is a boolean parameter. Its field rules are not modelled.
- SocketServer.SendCommandToAgent: the copy at `backend/c2_server/app.py:345-375` is identical to `backend/c2_server/c2_socket_server.py:126-180`, so it is modelled once. The error notices to the caller are taken to go out.
- `AgentApp.update_agent_details`, `log_message` and the Qt widgets are presentation only.

## Findings

| source | as written | input that shows it | evidently intended | confidence | as-written member | corrected member |
|---|---|---|---|---|---|---|
| backend/agent/agent_ui_app.py:219-221 | `.lower()` is called on what `run_command_in_script_mode` returns, which is a `(bool, str)` pair (`backend/agent/helper.py:191-218`). The same holds at lines 233, 253 and 269. The call raises `AttributeError` at the first step that runs, so no response is built. | a bundle whose only step is the command "ls" | classify each step by the words in its output text | not executed | AgentUi.AgentApp.OnExecuteCommandAsWritten | AgentUi.AgentApp.OnExecuteCommand |
