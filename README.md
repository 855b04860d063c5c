# cognitrace in Dafny

cognitrace is an AI-assisted Python debugger: a `pdb.Pdb` subclass with an
extra `ai` command. The command captures a snapshot of the selected frame,
asks a local Ollama model once for an analysis, and prints the diagnosis and
the suggested fix. When the model suggests debugger commands and the user
confirms, the agent echoes each one and runs it through `onecmd`.

This project models the core of that agent. It covers:

- the snapshot builder: rendered locals, the source window around the current
  line, and the exception summary;
- the classification of the inference round trip into an analysis record;
- the `ai` command with its confirmation gate and autonomous drive.

Everything the agent prints or hands to `onecmd` is kept as an appended trace
of events, which is a field of the agent class.

Modules, one per file:

- `Options` (`options.dfy`): the `Option` type.
- `Text` (`text.dfy`): Python's `str.strip`, `rstrip` and `lower`, the
  decimal rendering of a line number, and `"\n".join` with its inverse split.
- `SourceWindow` (`source_window.dfy`): the source window. The loop that reads
  it is a method, checked against a reference definition of the window.
- `SafeContext` (`snapshot.dfy`): the snapshot record, the locals rendered
  with limit 500, and the exception sentinel.
- `Inference` (`inference.dfy`): how `query_ollama`'s outcome becomes an
  analysis record without ever raising.
- `Agent` (`agent.dfy`): the class `DebugAgent` with `curframe` and `trace`,
  its methods `DoAi`, `ConfirmAction`, `AutonomousDrive` and
  `CaptureSafeContext`, and the trace algebra that states what `ai` does.

The parts of the environment the model cannot see are parameters:

- the line cache's view of the file (its lines, and where reading raises);
- the renderer `reprlib.Repr.repr` (`render: (V, int) -> string`);
- `json.loads` (`decode: string -> JsonLoad`);
- the outcome of the HTTP request;
- the formatted first line of the active exception;
- the user's answer at the prompt.

## Model

| member | source | states |
|---|---|---|
| `SourceWindow.RequestedLinesBounds` | cognitrace.py:171-176 | The window's line range `range(max(1, lineno-5), lineno+6)` has at most eleven numbers. Every number is at least 1 and within five of the current line. The numbers strictly ascend. The current line is among them when it is at least 1. |
| `SourceWindow.WindowFacts` | cognitrace.py:176-181 | The window has at most eleven entries. Each entry is a line in range whose cache text is non-empty, and it carries that text right-stripped. Entries ascend by line number. At most one entry is current. A current entry exists exactly when the current line resolves to non-empty text. |
| `SourceWindow.WindowComplete` | cognitrace.py:176-178 | Every line of the range that resolves to non-empty text appears in the window, so no resolvable line is dropped. |
| `SourceWindow.ParseFormat` | cognitrace.py:180-181 | A rendered window line `"--> "`/`"    "` + number + `": "` + text parses back into the same marker, number and text. The rendering loses nothing. |
| `SourceWindow.FormatMarksCurrent` | cognitrace.py:180 | A rendered line starts with the arrow exactly when it is the current line. |
| `SourceWindow.ReadWindow` | cognitrace.py:172-181 | The loop over the window's line numbers. It reports a raise exactly when `getline` raises for a line in the range. Otherwise it has appended, in line order, the rendering of every line that resolves and nothing for the others. |
| `SourceWindow.RenderedLinesEntries` | cognitrace.py:176-181 | Rendering line by line, as the loop does, equals rendering the reference window's entries. |
| `SourceWindow.BuildSnippet` | cognitrace.py:166-186 | The snippet is the single placeholder `<Source not available for {filename}>` when `checkcache` raises or a `getline` in the range raises. Otherwise it is exactly the rendered window. |
| `SourceWindow.SnippetLines` | cognitrace.py:181-188 | Joining a non-empty snippet with `"\n"` and splitting it again returns the snippet: one text line per window entry. This holds when each cache line has its newline only at the end and the file name has no newline. |
| `SourceWindow.FormatNoNewline` | cognitrace.py:181 | A rendered entry contains no newline when its right-stripped text contains none. |
| `Text.ParseNatToString` | cognitrace.py:181 | The decimal rendering of a line number reads back as the same number. |
| `Text.SplitJoinLines` | cognitrace.py:188 | `"\n".join` of lines without newlines is undone by splitting at newlines. |
| `Text.StripIdempotent` | cognitrace.py:120 | `strip()` applied twice equals `strip()` applied once. |
| `Text.StripShape` | cognitrace.py:192 | A stripped string is a slice of its input and has no whitespace at either end. |
| `SafeContext.RenderLocals` | cognitrace.py:155-162 | The locals map has one binding per frame local, in frame order. Each keeps its name and holds the renderer's output for its value under the given limit. |
| `SafeContext.RenderLocalsKeepsNames` | cognitrace.py:162 | The rendered map has exactly the frame's names, in the frame's order. |
| `SafeContext.ExceptionSummary` | cognitrace.py:190-192 | With no active exception the summary is the sentinel `"Breakpoint (No Exception)"`. Otherwise it is the stripped first line of the formatted exception, which has no surrounding whitespace. |
| `SafeContext.CaptureFacts` | cognitrace.py:149-201 | The snapshot holds the frame's function name and line number, and the frame's local names in order, each value rendered with limit 500. The source text is exactly the placeholder when reading raised, and the `"\n"`-join of the rendered window otherwise. The exception text is the sentinel when no exception is active. |
| `SafeContext.UnreadableSource` | cognitrace.py:166-188 | A missing or unreadable file reaches the line cache as a file with no lines, since `getline` swallows the error. The captured source text is then empty, not the placeholder. |
| `Inference.Classify` | cognitrace.py:83-105 | Every outcome gives an analysis and none raises. A connection error gives `"Connection Error"`/`"Start Ollama"`. Any other failure, including an exception from `json.loads` other than a decode error, gives `"Error: " + message`/`"N/A"`. Reply text that fails to decode gives the raw text and the parse-failure fix. All these failure paths carry an empty command list. A decoded document is returned unchanged. |
| `Agent.EffectiveQueryFacts` | cognitrace.py:120 | The query is never empty. It is the stripped argument, itself free of surrounding whitespace, or the default root-cause query when the argument is blank. |
| `Agent.ConfirmsIff` | cognitrace.py:203-206 | The answer grants exactly when, stripped, it is `"y"` or `"Y"`. |
| `Agent.ConfirmsExamples` | cognitrace.py:206 | `""`, `"n"` and `"yes"` deny. `" Y "` and `"y\n"` grant. |
| `Agent.DriveRunsAll` | cognitrace.py:211-213 | The drive loop hands every command to `onecmd` exactly once, in order. |
| `Agent.DriveAsksNothing` | cognitrace.py:208-213 | Driving neither prompts nor sends a request. |
| `Agent.DriveEchoed` | cognitrace.py:211-213 | Each command is echoed `-> cmd` immediately before it runs. |
| `Agent.ListEventsAt` | cognitrace.py:134-135 | The listing numbers the commands from 1, in order. |
| `Agent.DecisionRuns` | cognitrace.py:137-140 | After the prompt the commands run, in order, exactly when the answer grants. Otherwise only the skip notice appears. |
| `Agent.CommandPhaseRuns` | cognitrace.py:131-140 | The command step runs the commands exactly when there are some and the user grants. Otherwise it runs nothing. |
| `Agent.CommandPhaseAsks` | cognitrace.py:131-140 | The command step shows no prompt when there are no commands and exactly one prompt otherwise. It sends no request. |
| `Agent.CommandPhaseEchoed` | cognitrace.py:131-140 | In the command step every executed command is echoed immediately before it runs. |
| `Agent.ReportEventsRuns` | cognitrace.py:128-142 | For an analysis record, the suggested commands run exactly when there are some and the user grants. |
| `Agent.ReportEventsAsks` | cognitrace.py:128-142 | For an analysis record there is one prompt exactly when it has commands, and no request. |
| `Agent.OpeningFacts` | cognitrace.py:122-127 | The opening of `ai` sends exactly one request and neither prompts nor runs anything. |
| `Agent.AiEventsRuns` | cognitrace.py:115-142 | A whole `ai` command runs the suggested commands, once each and in order, exactly when the analysis is a record with commands and the user grants. Otherwise it runs nothing. |
| `Agent.AiEventsAsks` | cognitrace.py:115-142 | A whole `ai` command sends exactly one request, at step two, carrying the snapshot and the effective query. It prompts once exactly when the analysis is a record with commands. |
| `Agent.AiEventsEchoed` | cognitrace.py:115-142 | In a whole `ai` command every command handed to `onecmd` is echoed immediately before. |
| `Agent.DebugAgent.constructor` | cognitrace.py:109-113 | A new agent is at the given frame with an empty trace. |
| `Agent.DebugAgent.CaptureSafeContext` | cognitrace.py:144-201 | `_capture_safe_context` returns exactly the snapshot `Capture` of the current frame. |
| `Agent.DebugAgent.ConfirmAction` | cognitrace.py:203-206 | The method shows the prompt once and returns whether the answer confirms. |
| `Agent.DebugAgent.AutonomousDrive` | cognitrace.py:208-213 | The method announces itself, then appends an echo and an execution for each command, in order. |
| `Agent.DebugAgent.ListCommands` | cognitrace.py:133-135 | The method appends the numbered listing of the commands. |
| `Agent.DebugAgent.HandleCommands` | cognitrace.py:131-140 | The method appends exactly the command step decided by the user's answer. |
| `Agent.DebugAgent.BeginAnalysis` | cognitrace.py:122-127 | The method captures the snapshot, then appends the notice, the one request carrying the snapshot and the query, and the banner. |
| `Agent.DebugAgent.ReportAnalysis` | cognitrace.py:127-142 | A non-record analysis raises and adds nothing more. A record appends the report, the command step and the footer. |
| `Agent.DebugAgent.DoAi` | cognitrace.py:115-142 | `do_ai` appends exactly `AiEvents` for the effective query, the captured snapshot, the classified analysis and whether the answer confirms. It raises exactly when the analysis is not a record. |

## Left out

- HTTP transport (`requests.post`, status checks, the timeout): the request's result is the parameter `Outcome`. The prompt text and the payload sent are not modelled.
- `json.loads` is the parameter `decode`. Only its outcome is modelled: a decode error, another exception with its message, or a document that is an object or some other JSON value.
- A decoded object whose `diagnosis`, `suggested_fix` or `pdb_commands` field has some other JSON type is not modelled. For example, a string in `pdb_commands` would be iterated character by character. A `null` `pdb_commands` is also not modelled. Fields are either missing (`None`) or strings and a list of strings.
- An analysis that decodes to a JSON value other than an object makes `analysis.get` raise at line 128, after the banner. The model ends the command there and reports it through `raised`. pdb's handling of that exception is not modelled.
- `reprlib` is the parameter `render`. No bound on the rendered length is claimed. The limit passed is always 500, because the agent never has a `config` attribute (line 157), so the global configuration's value is never read.
- The pdb runtime (`set_trace`, `interaction`, `reset`, frame selection), `start_trace`, `handle_crash` and the `run_agent_test` demo are not modelled. `onecmd` is an `Exec` event, and its effects and any exception it raises are not modelled.
- `Config`, `Colors`, and the colouring and exact wording of the `log_*` lines and banners are not modelled. The lines `do_ai` prints are events. The log lines inside `query_ollama` ("Connecting to …", error logs) are not modelled.
- `Agent.DebugAgent.ConfirmAction`: an interrupted prompt is not modelled. `input()` at line 205 raises on end of input or Ctrl-C, and the exception leaves `do_ai` before the skip notice or the footer. The answer is always a string, so `ConfirmAction`, `HandleCommands` and `DoAi` always return normally after the prompt.
- `sys.exc_info` and `traceback.format_exception_only` are not modelled. The exception summary takes the formatted first line as an optional string.
- `Text.Lower` lower-cases ASCII letters only. The only use is the comparison with `"y"`, and no character other than `Y` and `y` lower-cases to `y`, so the test is unaffected.
- `linecache`'s own loading and caching is not modelled. The file is a sequence of lines with an optional point of failure (`checkcache` raising, or `getline` raising for one line number).
