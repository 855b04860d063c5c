/**
  The snapshot record the agent sends along with a query: the frame's function
  and line, its local bindings rendered by a size-limited renderer, the source
  window joined into one text, and a one-line exception summary.
 */
module SafeContext {
  import opened Options
  import opened Text
  import opened SourceWindow

  /**
    An execution frame as the snapshot reads it: the code object's name, the
    current line, the file name and the local bindings in frame order. The
    names of the bindings are distinct, as they are in a frame's locals
    dictionary; nothing below depends on it.
   */
  datatype Frame<V> = Frame(codeName: string, lineNo: int, fileName: string, locals: seq<(string, V)>)

  /**
    The record `_capture_safe_context` returns. `localVariables` is the
    dictionary of rendered locals, kept as its list of items in insertion order.
   */
  datatype Snapshot = Snapshot(
    functionName: string,
    lineNumber: int,
    localVariables: seq<(string, string)>,
    sourceCodeSnippet: string,
    exceptionStr: string)

  /**
    The rendering limit handed to the renderer. The agent never carries a
    `config` attribute, so the lookup always falls back to this value.
   */
  const FallbackMaxVarLen := 500

  /** The exception summary when no exception is being handled. */
  const NoException := "Breakpoint (No Exception)"

  /** The keys of a list of items, in order. */
  function Names<T>(items: seq<(string, T)>): (r: seq<string>)
    ensures |r| == |items|
  {
    seq(|items|, i requires 0 <= i < |items| => items[i].0)
  }

  /**
    `{k: render(v) for k, v in f_locals.items()}`: every binding, in frame
    order, keeps its name and is paired with the rendering of its value under
    the limit. `render` stands for `reprlib.Repr.repr` with `maxstring` and
    `maxother` set to `limit`.
   */
  function RenderLocals<V>(locals: seq<(string, V)>, render: (V, int) -> string, limit: int): (r: seq<(string, string)>)
    ensures |r| == |locals|
    ensures forall i :: 0 <= i < |locals| ==> r[i].0 == locals[i].0 && r[i].1 == render(locals[i].1, limit)
  {
    if locals == [] then []
    else
      var last := locals[|locals| - 1];
      RenderLocals(locals[..|locals| - 1], render, limit) + [(last.0, render(last.1, limit))]
  }

  /** The rendered locals have exactly the frame's names, in the frame's order. */
  lemma RenderLocalsKeepsNames<V>(locals: seq<(string, V)>, render: (V, int) -> string, limit: int)
    ensures Names(RenderLocals(locals, render, limit)) == Names(locals)
  {
  }

  /**
    The exception summary: the literal sentinel when no exception is active,
    otherwise the stripped first line of the formatted exception, which
    therefore carries no surrounding whitespace.
   */
  function ExceptionSummary(exc: Option<string>): (r: string)
    ensures exc.None? ==> r == NoException
    ensures exc.Some? ==> r == Strip(exc.value) && Strip(r) == r
  {
    match exc
    case None => NoException
    case Some(line) =>
      StripIdempotent(line);
      Strip(line)
  }

  /** The snapshot of `frame` when the source reads as `src` and `exc` is the active exception, if any. */
  function Capture<V>(frame: Frame<V>, src: LineSource, exc: Option<string>, render: (V, int) -> string): Snapshot
  {
    Snapshot(
      frame.codeName,
      frame.lineNo,
      RenderLocals(frame.locals, render, FallbackMaxVarLen),
      JoinLines(Snippet(src, frame.fileName, frame.lineNo)),
      ExceptionSummary(exc))
  }

  /**
    What a snapshot holds: the frame's function and line; the frame's local
    names in order, each with its value rendered under the 500 limit; the
    source window, or exactly the placeholder when reading the source raised;
    and the sentinel when no exception is active.
   */
  lemma CaptureFacts<V>(frame: Frame<V>, src: LineSource, exc: Option<string>, render: (V, int) -> string)
    ensures Capture(frame, src, exc, render).functionName == frame.codeName
    ensures Capture(frame, src, exc, render).lineNumber == frame.lineNo
    ensures Names(Capture(frame, src, exc, render).localVariables) == Names(frame.locals)
    ensures forall i :: 0 <= i < |frame.locals| ==>
      Capture(frame, src, exc, render).localVariables[i].1 == render(frame.locals[i].1, FallbackMaxVarLen)
    ensures Faulted(src, frame.lineNo) ==>
      Capture(frame, src, exc, render).sourceCodeSnippet == Placeholder(frame.fileName)
    ensures !Faulted(src, frame.lineNo) ==>
      Capture(frame, src, exc, render).sourceCodeSnippet == JoinLines(Rendered(Window(src.lines, frame.lineNo)))
    ensures exc.None? ==> Capture(frame, src, exc, render).exceptionStr == NoException
  {
    RenderLocalsKeepsNames(frame.locals, render, FallbackMaxVarLen);
  }

  /**
    A file the line cache cannot read (missing, unreadable) holds no lines: the
    line cache swallows the error and answers "" for every line, so nothing
    raises and the captured source text is empty rather than the placeholder.
   */
  lemma UnreadableSource<V>(frame: Frame<V>, exc: Option<string>, render: (V, int) -> string)
    ensures Capture(frame, LineSource([], NoFailure), exc, render).sourceCodeSnippet == ""
  {
    WindowFacts([], frame.lineNo);
  }
}
