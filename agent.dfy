/**
  The debugger command `ai`: capture a snapshot, consult the inference
  service once, report the diagnosis, and, when the model suggests debugger
  commands and the user confirms, run them in order through the debugger.

  What the agent prints and what it hands to the debugger's `onecmd` is kept
  as an appended trace of events.
 */
module Agent {
  import opened Options
  import opened Text
  import opened SourceWindow
  import opened SafeContext
  import opened Inference

  /** The query used when `ai` is given no argument. */
  const DefaultQuery := "Analyze the root cause of the current state/error."

  /** The question put to the user before suggested commands run. */
  const ConfirmQuestion := "Execute these commands autonomously?"

  /** Observable steps of the agent, in the order they happen. */
  datatype Event =
    | Thinking                                              // "Thinking..." notice before the round trip
    | Consult(snapshot: Snapshot, query: string)            // the one request sent to the inference service
    | Header                                                // the diagnosis banner
    | Report(diagnosis: Option<string>, fix: Option<string>) // the diagnosis and fix lines
    | Suggested                                             // the "Suggested Autonomous Commands" heading
    | Listed(index: nat, command: string)                   // one numbered command of that list
    | Prompt(question: string)                              // the confirmation prompt
    | Skipped                                               // notice that the commands were not run
    | TakingWheel                                           // notice that the commands are about to run
    | Echo(command: string)                                 // the line "-> command"
    | Exec(command: string)                                 // the debugger's `onecmd(command)`
    | Footer                                                // the closing banner

  /** The query sent for the argument `arg`: the stripped argument, or the default query when that is empty. */
  function EffectiveQuery(arg: string): string
  {
    var t := Strip(arg);
    if t == [] then DefaultQuery else t
  }

  /**
    The query is never blank: it is the stripped argument, which carries no
    surrounding whitespace, or the default query when the argument is blank.
   */
  lemma EffectiveQueryFacts(arg: string)
    ensures EffectiveQuery(arg) != []
    ensures Strip(arg) != [] ==> EffectiveQuery(arg) == Strip(arg) && Strip(EffectiveQuery(arg)) == EffectiveQuery(arg)
    ensures Strip(arg) == [] ==> EffectiveQuery(arg) == DefaultQuery
  {
    StripIdempotent(arg);
  }

  /** `_confirm_action`'s test of the user's answer: stripped and lower-cased, it is "y". */
  predicate Confirms(answer: string)
  {
    Lower(Strip(answer)) == "y"
  }

  /** The answer grants exactly when, stripped, it is "y" or "Y". */
  lemma ConfirmsIff(answer: string)
    ensures Confirms(answer) <==> (Strip(answer) == "y" || Strip(answer) == "Y")
  {
    var t := Strip(answer);
    if Lower(t) == "y" {
      assert |Lower(t)| == |t| == 1;
      assert Lower(t)[0] == LowerChar(t[0]) == 'y';
      assert t == [t[0]];
    }
    if t == "Y" {
      assert Lower(t) == [LowerChar('Y')];
    }
  }

  /** The empty answer, "n" and "yes" deny; " Y " and "y\n" grant. */
  lemma ConfirmsExamples()
    ensures !Confirms("") && !Confirms("n") && !Confirms("yes")
    ensures Confirms(" Y ") && Confirms("y\n")
  {
    StripDenials();
    StripSpacedY();
    StripYNewline();
    ConfirmsIff("");
    ConfirmsIff("n");
    ConfirmsIff("yes");
    ConfirmsIff(" Y ");
    ConfirmsIff("y\n");
  }

  /** The commands handed to `onecmd`, in order. */
  function Executed(es: seq<Event>): seq<string>
  {
    if es == [] then []
    else Executed(es[..|es| - 1]) + (if es[|es| - 1].Exec? then [es[|es| - 1].command] else [])
  }

  /** How many confirmation prompts were shown. */
  function Prompts(es: seq<Event>): nat
  {
    if es == [] then 0
    else Prompts(es[..|es| - 1]) + (if es[|es| - 1].Prompt? then 1 else 0)
  }

  /** How many requests were sent to the inference service. */
  function Requests(es: seq<Event>): nat
  {
    if es == [] then 0
    else Requests(es[..|es| - 1]) + (if es[|es| - 1].Consult? then 1 else 0)
  }

  /** Every command handed to `onecmd` was echoed immediately before. */
  predicate EchoedBeforeExec(es: seq<Event>)
  {
    forall j :: 0 <= j < |es| && es[j].Exec? ==> 0 < j && es[j - 1] == Echo(es[j].command)
  }

  /** The numbered listing `for i, cmd in enumerate(commands, 1)`. */
  function ListEvents(cs: seq<string>): seq<Event>
  {
    if cs == [] then [] else ListEvents(cs[..|cs| - 1]) + [Listed(|cs|, cs[|cs| - 1])]
  }

  /** What `_autonomous_drive`'s loop does for the commands `cs`: echo, then run, each in turn. */
  function DriveEvents(cs: seq<string>): seq<Event>
  {
    if cs == [] then [] else DriveEvents(cs[..|cs| - 1]) + [Echo(cs[|cs| - 1]), Exec(cs[|cs| - 1])]
  }

  /** What follows the prompt: the commands when `granted`, otherwise only the skip notice. */
  function Decision(cs: seq<string>, granted: bool): seq<Event>
  {
    if granted then [TakingWheel] + DriveEvents(cs) else [Skipped]
  }

  /**
    The part of `ai` that follows the report, for the suggested commands `cs`;
    `granted` is whether the user's answer confirms.
   */
  function CommandPhase(cs: seq<string>, granted: bool): seq<Event>
  {
    if cs == [] then []
    else
      [Suggested] + ListEvents(cs) + [Prompt(ConfirmQuestion)]
      + Decision(cs, granted)
  }

  /** What `ai` does once it holds a record: report it, handle its commands, close the banner. */
  function ReportEvents(analysis: Analysis, granted: bool): seq<Event>
    requires analysis.Record?
  {
    [Report(analysis.diagnosis, analysis.suggestedFix)] + CommandPhase(CommandsOf(analysis), granted) + [Footer]
  }

  /** What follows the banner: a record's part, or nothing when reading the analysis's fields raises. */
  function Response(analysis: Analysis, granted: bool): seq<Event>
  {
    if analysis.Record? then ReportEvents(analysis, granted) else []
  }

  /**
    Everything `ai` produces for the effective query `query`, given the snapshot, the
    analysis the inference service yields, and whether the user's answer
    would confirm. An analysis that is not a record stops the command right after the
    banner, where reading its fields raises.
   */
  function AiEvents(query: string, snapshot: Snapshot, analysis: Analysis, granted: bool): seq<Event>
  {
    [Thinking, Consult(snapshot, query), Header] + Response(analysis, granted)
  }

  lemma AppendAssoc<T>(a: seq<T>, b: seq<T>, c: seq<T>)
    ensures a + b + c == a + (b + c)
  {
  }

  lemma {:induction false} ExecutedAppend(a: seq<Event>, b: seq<Event>)
    ensures Executed(a + b) == Executed(a) + Executed(b)
    decreases |b|
  {
    if b == [] {
      assert a + b == a;
    } else {
      var b', last := b[..|b| - 1], b[|b| - 1];
      var ab := a + b;
      assert ab[..|ab| - 1] == a + b';
      assert ab[|ab| - 1] == last;
      var run := if last.Exec? then [last.command] else [];
      ExecutedAppend(a, b');
      calc {
        Executed(ab);
        Executed(a + b') + run;
        Executed(a) + Executed(b') + run;
        Executed(a) + (Executed(b') + run);
        Executed(a) + Executed(b);
      }
    }
  }

  lemma {:induction false} AsksAppend(a: seq<Event>, b: seq<Event>)
    ensures Prompts(a + b) == Prompts(a) + Prompts(b)
    ensures Requests(a + b) == Requests(a) + Requests(b)
    decreases |b|
  {
    if b == [] {
      assert a + b == a;
    } else {
      var ab := a + b;
      assert ab[..|ab| - 1] == a + b[..|b| - 1];
      assert ab[|ab| - 1] == b[|b| - 1];
      AsksAppend(a, b[..|b| - 1]);
    }
  }

  lemma Single(e: Event)
    ensures Executed([e]) == if e.Exec? then [e.command] else []
    ensures Prompts([e]) == if e.Prompt? then 1 else 0
    ensures Requests([e]) == if e.Consult? then 1 else 0
  {
    assert [e][..0] == [];
  }

  lemma EchoedAppend(a: seq<Event>, b: seq<Event>)
    requires EchoedBeforeExec(a) && EchoedBeforeExec(b)
    ensures EchoedBeforeExec(a + b)
  {
    var s := a + b;
    forall j | 0 <= j < |s| && s[j].Exec? ensures 0 < j && s[j - 1] == Echo(s[j].command) {
      if j < |a| {
        assert s[j] == a[j] && s[j - 1] == a[j - 1];
      } else {
        assert s[j] == b[j - |a|];
        assert b[j - |a|].Exec?;
      }
    }
  }

  /** No step of `es` runs a command, prompts or sends a request. */
  predicate Quiet(es: seq<Event>)
  {
    forall j :: 0 <= j < |es| ==> !es[j].Exec? && !es[j].Prompt? && !es[j].Consult?
  }

  /** A quiet sequence runs nothing, asks nothing and sends nothing. */
  lemma {:induction false} QuietEvents(es: seq<Event>)
    requires Quiet(es)
    ensures Executed(es) == [] && Prompts(es) == 0 && Requests(es) == 0
  {
    if es != [] {
      QuietEvents(es[..|es| - 1]);
    }
  }

  /** A sequence that runs nothing trivially echoes whatever it runs. */
  lemma NoExecEchoed(es: seq<Event>)
    requires forall j :: 0 <= j < |es| ==> !es[j].Exec?
    ensures EchoedBeforeExec(es)
  {
  }

  /** The listing numbers the commands from 1, in order. */
  lemma {:induction false} ListEventsAt(cs: seq<string>)
    ensures |ListEvents(cs)| == |cs|
    ensures forall k :: 0 <= k < |cs| ==> ListEvents(cs)[k] == Listed(k + 1, cs[k])
  {
    if cs != [] {
      ListEventsAt(cs[..|cs| - 1]);
    }
  }

  /** The listing of the commands neither runs, asks nor sends anything. */
  lemma ListingQuiet(cs: seq<string>)
    ensures Quiet([Suggested] + ListEvents(cs))
  {
    var head := [Suggested] + ListEvents(cs);
    ListEventsAt(cs);
    forall j | 0 <= j < |head| ensures !head[j].Exec? && !head[j].Prompt? && !head[j].Consult? {
      if j > 0 {
        assert head[j] == ListEvents(cs)[j - 1];
      }
    }
  }

  /** Driving runs every command exactly once, in order. */
  lemma {:induction false} DriveRunsAll(cs: seq<string>)
    ensures Executed(DriveEvents(cs)) == cs
  {
    if cs != [] {
      var init, c := cs[..|cs| - 1], cs[|cs| - 1];
      DriveRunsAll(init);
      ExecutedAppend(DriveEvents(init), [Echo(c), Exec(c)]);
      Single(Echo(c));
      Single(Exec(c));
      ExecutedAppend([Echo(c)], [Exec(c)]);
      assert [Echo(c)] + [Exec(c)] == [Echo(c), Exec(c)];
      assert init + [c] == cs;
    }
  }

  /** Driving neither prompts nor sends a request. */
  lemma {:induction false} DriveAsksNothing(cs: seq<string>)
    ensures Prompts(DriveEvents(cs)) == 0 && Requests(DriveEvents(cs)) == 0
  {
    if cs != [] {
      var init, c := cs[..|cs| - 1], cs[|cs| - 1];
      DriveAsksNothing(init);
      AsksAppend(DriveEvents(init), [Echo(c), Exec(c)]);
      Single(Echo(c));
      Single(Exec(c));
      AsksAppend([Echo(c)], [Exec(c)]);
      assert [Echo(c)] + [Exec(c)] == [Echo(c), Exec(c)];
    }
  }

  /** While driving, every command is echoed right before it runs. */
  lemma {:induction false} DriveEchoed(cs: seq<string>)
    ensures EchoedBeforeExec(DriveEvents(cs))
  {
    if cs != [] {
      var init, c := cs[..|cs| - 1], cs[|cs| - 1];
      DriveEchoed(init);
      assert EchoedBeforeExec([Echo(c), Exec(c)]);
      EchoedAppend(DriveEvents(init), [Echo(c), Exec(c)]);
    }
  }

  /** After the prompt the commands run, in order, exactly when `granted`. */
  lemma DecisionRuns(cs: seq<string>, granted: bool)
    ensures Executed(Decision(cs, granted)) == if granted then cs else []
  {
    if granted {
      QuietEvents([TakingWheel]);
      DriveRunsAll(cs);
      ExecutedAppend([TakingWheel], DriveEvents(cs));
    } else {
      QuietEvents([Skipped]);
    }
  }

  lemma DecisionAsksNothing(cs: seq<string>, granted: bool)
    ensures Prompts(Decision(cs, granted)) == 0 && Requests(Decision(cs, granted)) == 0
  {
    if granted {
      QuietEvents([TakingWheel]);
      DriveAsksNothing(cs);
      AsksAppend([TakingWheel], DriveEvents(cs));
    } else {
      QuietEvents([Skipped]);
    }
  }

  lemma DecisionEchoed(cs: seq<string>, granted: bool)
    ensures EchoedBeforeExec(Decision(cs, granted))
  {
    if granted {
      NoExecEchoed([TakingWheel]);
      DriveEchoed(cs);
      EchoedAppend([TakingWheel], DriveEvents(cs));
    } else {
      NoExecEchoed([Skipped]);
    }
  }

  /** The command phase is the listing, the prompt, and what the answer decides. */
  lemma CommandPhaseParts(cs: seq<string>, granted: bool)
    requires cs != []
    ensures CommandPhase(cs, granted) == ([Suggested] + ListEvents(cs)) + [Prompt(ConfirmQuestion)] + Decision(cs, granted)
  {
  }

  /** The command phase runs the commands, in order, exactly when there are some and they are granted. */
  lemma CommandPhaseRuns(cs: seq<string>, granted: bool)
    ensures Executed(CommandPhase(cs, granted)) == if cs != [] && granted then cs else []
  {
    if cs != [] {
      var head := [Suggested] + ListEvents(cs);
      var prompt := [Prompt(ConfirmQuestion)];
      CommandPhaseParts(cs, granted);
      ListingQuiet(cs);
      QuietEvents(head);
      Single(Prompt(ConfirmQuestion));
      DecisionRuns(cs, granted);
      ExecutedAppend(head, prompt);
      ExecutedAppend(head + prompt, Decision(cs, granted));
    }
  }

  /** The command phase prompts once when there are commands, never otherwise, and sends nothing. */
  lemma CommandPhaseAsks(cs: seq<string>, granted: bool)
    ensures Prompts(CommandPhase(cs, granted)) == if cs == [] then 0 else 1
    ensures Requests(CommandPhase(cs, granted)) == 0
  {
    if cs != [] {
      var head := [Suggested] + ListEvents(cs);
      var prompt := [Prompt(ConfirmQuestion)];
      CommandPhaseParts(cs, granted);
      ListingQuiet(cs);
      QuietEvents(head);
      Single(Prompt(ConfirmQuestion));
      DecisionAsksNothing(cs, granted);
      AsksAppend(head, prompt);
      AsksAppend(head + prompt, Decision(cs, granted));
    }
  }

  lemma CommandPhaseEchoed(cs: seq<string>, granted: bool)
    ensures EchoedBeforeExec(CommandPhase(cs, granted))
  {
    if cs != [] {
      var head := [Suggested] + ListEvents(cs);
      var prompt := [Prompt(ConfirmQuestion)];
      CommandPhaseParts(cs, granted);
      ListingQuiet(cs);
      NoExecEchoed(head);
      NoExecEchoed(prompt);
      DecisionEchoed(cs, granted);
      EchoedAppend(head, prompt);
      EchoedAppend(head + prompt, Decision(cs, granted));
    }
  }

  /** A record's part of `ai` runs its commands, in order, exactly when there are some and they are granted. */
  lemma ReportEventsRuns(analysis: Analysis, granted: bool)
    requires analysis.Record?
    ensures Executed(ReportEvents(analysis, granted)) ==
      if CommandsOf(analysis) != [] && granted then CommandsOf(analysis) else []
  {
    var report := [Report(analysis.diagnosis, analysis.suggestedFix)];
    var phase := CommandPhase(CommandsOf(analysis), granted);
    QuietEvents(report);
    QuietEvents([Footer]);
    CommandPhaseRuns(CommandsOf(analysis), granted);
    ExecutedAppend(report, phase);
    ExecutedAppend(report + phase, [Footer]);
  }

  /** A record's part of `ai` prompts once exactly when it carries commands, and sends nothing. */
  lemma ReportEventsAsks(analysis: Analysis, granted: bool)
    requires analysis.Record?
    ensures Prompts(ReportEvents(analysis, granted)) == if CommandsOf(analysis) != [] then 1 else 0
    ensures Requests(ReportEvents(analysis, granted)) == 0
  {
    var report := [Report(analysis.diagnosis, analysis.suggestedFix)];
    var phase := CommandPhase(CommandsOf(analysis), granted);
    QuietEvents(report);
    QuietEvents([Footer]);
    CommandPhaseAsks(CommandsOf(analysis), granted);
    AsksAppend(report, phase);
    AsksAppend(report + phase, [Footer]);
  }

  lemma ReportEventsEchoed(analysis: Analysis, granted: bool)
    requires analysis.Record?
    ensures EchoedBeforeExec(ReportEvents(analysis, granted))
  {
    var report := [Report(analysis.diagnosis, analysis.suggestedFix)];
    var phase := CommandPhase(CommandsOf(analysis), granted);
    NoExecEchoed(report);
    NoExecEchoed([Footer]);
    CommandPhaseEchoed(CommandsOf(analysis), granted);
    EchoedAppend(report, phase);
    EchoedAppend(report + phase, [Footer]);
  }

  /** The opening of `ai`: the notice, the one request, the banner. */
  lemma OpeningFacts(snapshot: Snapshot, query: string)
    ensures var opening := [Thinking, Consult(snapshot, query), Header];
      Executed(opening) == [] && Prompts(opening) == 0 && Requests(opening) == 1
  {
    Single(Thinking);
    Single(Consult(snapshot, query));
    Single(Header);
    ExecutedAppend([Thinking], [Consult(snapshot, query)]);
    ExecutedAppend([Thinking, Consult(snapshot, query)], [Header]);
    AsksAppend([Thinking], [Consult(snapshot, query)]);
    AsksAppend([Thinking, Consult(snapshot, query)], [Header]);
    assert [Thinking] + [Consult(snapshot, query)] == [Thinking, Consult(snapshot, query)];
    assert [Thinking, Consult(snapshot, query)] + [Header] == [Thinking, Consult(snapshot, query), Header];
  }

  /**
    `ai` runs the suggested commands, each once and in order, exactly when
    the analysis is a record with commands and the user grants; otherwise it
    runs nothing.
   */
  lemma AiEventsRuns(query: string, snapshot: Snapshot, analysis: Analysis, granted: bool)
    ensures Executed(AiEvents(query, snapshot, analysis, granted)) ==
      if analysis.Record? && CommandsOf(analysis) != [] && granted then CommandsOf(analysis) else []
  {
    var opening := [Thinking, Consult(snapshot, query), Header];
    var rest := Response(analysis, granted);
    OpeningFacts(snapshot, query);
    if analysis.Record? {
      ReportEventsRuns(analysis, granted);
    }
    ExecutedAppend(opening, rest);
  }

  /**
    `ai` sends exactly one request, its second step, carrying the snapshot and
    the query; it prompts once exactly when the analysis is a record with
    commands.
   */
  lemma AiEventsAsks(query: string, snapshot: Snapshot, analysis: Analysis, granted: bool)
    ensures |AiEvents(query, snapshot, analysis, granted)| >= 3
    ensures AiEvents(query, snapshot, analysis, granted)[1] == Consult(snapshot, query)
    ensures Requests(AiEvents(query, snapshot, analysis, granted)) == 1
    ensures Prompts(AiEvents(query, snapshot, analysis, granted)) ==
      if analysis.Record? && CommandsOf(analysis) != [] then 1 else 0
  {
    var opening := [Thinking, Consult(snapshot, query), Header];
    var rest := Response(analysis, granted);
    OpeningFacts(snapshot, query);
    if analysis.Record? {
      ReportEventsAsks(analysis, granted);
    }
    AsksAppend(opening, rest);
  }

  /** Every command `ai` hands to the debugger is echoed immediately before it runs. */
  lemma AiEventsEchoed(query: string, snapshot: Snapshot, analysis: Analysis, granted: bool)
    ensures EchoedBeforeExec(AiEvents(query, snapshot, analysis, granted))
  {
    var opening := [Thinking, Consult(snapshot, query), Header];
    var rest := Response(analysis, granted);
    NoExecEchoed(opening);
    if analysis.Record? {
      ReportEventsEchoed(analysis, granted);
    }
    EchoedAppend(opening, rest);
  }

  /**
    The debugging agent. `curframe` is the frame the debugger has selected;
    `trace` is everything the agent has printed or run so far.
   */
  class DebugAgent<V> {
    var curframe: Frame<V>
    var trace: seq<Event>

    constructor (frame: Frame<V>)
      ensures curframe == frame && trace == []
    {
      curframe := frame;
      trace := [];
    }

    /**
      `_capture_safe_context`: the snapshot of the current frame, given how
      the source reads, the active exception's formatted first line (if any)
      and the renderer for values.
     */
    method CaptureSafeContext(src: LineSource, exc: Option<string>, render: (V, int) -> string)
      returns (s: Snapshot)
      ensures s == Capture(curframe, src, exc, render)
    {
      var frame := curframe;
      var localVars := RenderLocals(frame.locals, render, FallbackMaxVarLen);
      var snippet := BuildSnippet(src, frame.fileName, frame.lineNo);
      var snippetStr := JoinLines(snippet);
      var excStr := ExceptionSummary(exc);
      s := Snapshot(frame.codeName, frame.lineNo, localVars, snippetStr, excStr);
    }

    /** `_confirm_action`: shows the prompt and grants exactly when the answer confirms. */
    method ConfirmAction(question: string, answer: string) returns (ok: bool)
      modifies this`trace
      ensures trace == old(trace) + [Prompt(question)]
      ensures ok == Confirms(answer)
    {
      trace := trace + [Prompt(question)];
      ok := Lower(Strip(answer)) == "y";
    }

    /** `_autonomous_drive`: announces itself, then echoes and runs each command in order. */
    method AutonomousDrive(commands: seq<string>)
      modifies this`trace
      ensures trace == old(trace) + [TakingWheel] + DriveEvents(commands)
    {
      trace := trace + [TakingWheel];
      ghost var base := trace;
      for k := 0 to |commands|
        invariant trace == base + DriveEvents(commands[..k])
      {
        assert commands[..k + 1][..k] == commands[..k];
        trace := trace + [Echo(commands[k])];
        trace := trace + [Exec(commands[k])];
      }
      assert commands[..|commands|] == commands;
    }

    /** The numbered listing of the suggested commands. */
    method ListCommands(commands: seq<string>)
      modifies this`trace
      ensures trace == old(trace) + ListEvents(commands)
    {
      ghost var base := trace;
      for i := 0 to |commands|
        invariant trace == base + ListEvents(commands[..i])
      {
        assert commands[..i + 1][..i] == commands[..i];
        trace := trace + [Listed(i + 1, commands[i])];
      }
      assert commands[..|commands|] == commands;
    }

    /**
      The command step of `do_ai`: when there are commands, list them, ask,
      and either drive them or note that they were skipped.
     */
    method HandleCommands(commands: seq<string>, answer: string)
      modifies this`trace
      ensures trace == old(trace) + CommandPhase(commands, Confirms(answer))
    {
      if commands != [] {
        ghost var base := trace;
        ghost var head := [Suggested] + ListEvents(commands);
        ghost var asked := head + [Prompt(ConfirmQuestion)];
        trace := trace + [Suggested];
        ListCommands(commands);
        AppendAssoc(base, [Suggested], ListEvents(commands));
        var ok := ConfirmAction(ConfirmQuestion, answer);
        AppendAssoc(base, head, [Prompt(ConfirmQuestion)]);
        assert trace == base + asked;
        if ok {
          AutonomousDrive(commands);
          AppendAssoc(base + asked, [TakingWheel], DriveEvents(commands));
        } else {
          trace := trace + [Skipped];
        }
        assert trace == base + asked + Decision(commands, ok);
        AppendAssoc(base, asked, Decision(commands, ok));
        CommandPhaseParts(commands, ok);
      }
    }

    /**
      The opening of `do_ai`: the notice, the snapshot sent with the query in
      the one request, and the banner.
     */
    method BeginAnalysis(query: string, src: LineSource, exc: Option<string>, render: (V, int) -> string)
      returns (snapshot: Snapshot)
      modifies this`trace
      ensures snapshot == Capture(curframe, src, exc, render)
      ensures trace == old(trace) + [Thinking, Consult(snapshot, query), Header]
    {
      snapshot := CaptureSafeContext(src, exc, render);
      trace := trace + [Thinking, Consult(snapshot, query)];
      trace := trace + [Header];
    }

    /**
      The part of `do_ai` after the header: a non-record analysis breaks the
      field lookup and raises; a record is reported, its commands handled and
      the footer closes the output.
     */
    method ReportAnalysis(analysis: Analysis, answer: string) returns (raised: bool)
      modifies this`trace
      ensures trace == old(trace) + Response(analysis, Confirms(answer))
      ensures raised <==> analysis.NonRecord?
    {
      if analysis.NonRecord? {
        return true;
      }
      raised := false;
      ghost var base := trace;
      var report := [Report(analysis.diagnosis, analysis.suggestedFix)];
      trace := trace + report;
      HandleCommands(CommandsOf(analysis), answer);
      ghost var phase := CommandPhase(CommandsOf(analysis), Confirms(answer));
      AppendAssoc(base, report, phase);
      trace := trace + [Footer];
      AppendAssoc(base, report + phase, [Footer]);
    }

    /**
      `do_ai`: the `ai` command with argument `arg`. `src`, `exc` and `render`
      feed the snapshot, `outcome` and `decode` stand for the inference round
      trip, and `answer` is what the user types at the prompt. `raised` is set
      when the analysis is not a record and reading its fields raises.
     */
    method DoAi(arg: string, src: LineSource, exc: Option<string>, render: (V, int) -> string,
                outcome: Outcome, decode: string -> JsonLoad, answer: string)
      returns (raised: bool)
      modifies this`trace
      ensures trace == old(trace) + AiEvents(EffectiveQuery(arg), Capture(curframe, src, exc, render), Classify(outcome, decode), Confirms(answer))
      ensures raised <==> Classify(outcome, decode).NonRecord?
    {
      var userQuery := EffectiveQuery(arg);
      ghost var before := trace;
      var snapshot := BeginAnalysis(userQuery, src, exc, render);
      var analysis := Classify(outcome, decode);
      ghost var opening := [Thinking, Consult(snapshot, userQuery), Header];
      ghost var rest := Response(analysis, Confirms(answer));
      raised := ReportAnalysis(analysis, answer);
      AppendAssoc(before, opening, rest);
      assert snapshot == Capture(curframe, src, exc, render);
    }
  }
}
