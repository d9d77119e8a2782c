/** `provideCodeActions`: locate the `impl` binary, match the annotation on the
    line the cursor range ends on, find where the annotated type closes, run the
    tool and offer one preferred action that inserts its output. */
module Provider {
  import opened Wrappers
  import opened Text
  import opened Scanner
  import opened ToolLocator
  import opened Editor
  import opened InsertionLocator
  import opened ImplFix

  /** What the provider hands back: nothing (`undefined`), a list of actions,
      or the exception raised by the tool run, which escapes the provider. */
  datatype Outcome = NoActions | Actions(actions: seq<CodeAction>) | Threw(error: string)

  /** The text of the line the cursor range ends on. */
  function TriggerLine(doc: Document, range: Range): string
    requires range.end.line < |doc.lines|
  {
    doc.lines[range.end.line]
  }

  /** The outcome of one request, for a host environment and a tool whose
      answers are given by `respond`. */
  function Provide(doc: Document, range: Range, host: Host,
                   respond: (string, seq<string>) -> Result<string, string>): Outcome
    requires range.end.line < |doc.lines|
  {
    var binPath := ResolvedBin(host);
    if binPath == "" then NoActions
    else match Tokenize(TriggerLine(doc, range))
      case None => NoActions
      case Some(a) => Offer(doc, range.end, binPath, a, respond)
  }

  /** The outcome once the binary is known and the annotation has matched:
      the tool's failure, or one preferred action inserting its output. */
  function Offer(doc: Document, trigger: Position, binPath: string, a: Annotation,
                 respond: (string, seq<string>) -> Result<string, string>): Outcome
  {
    match respond(binPath, ToolArgs(a.receiver, a.interfaces))
    case Failure(e) => Threw(e)
    case Success(out) =>
      Actions([CodeAction(FixTitle(a.receiver, a.interfaces),
                          [Insert(doc.uri, Position(InsertionLine(doc.lines, trigger), 0), out)],
                          true)])
  }

  /** The tool runs one request starts: none on an early exit, else exactly one. */
  function ToolCalls(doc: Document, range: Range, host: Host): seq<Invocation>
    requires range.end.line < |doc.lines|
  {
    var binPath := ResolvedBin(host);
    if binPath == "" then []
    else match Tokenize(TriggerLine(doc, range))
      case None => []
      case Some(a) => [Invocation(binPath, ToolArgs(a.receiver, a.interfaces))]
  }

  method ProvideCodeActions(doc: Document, range: Range, host: Host, tool: ImplTool) returns (r: Outcome)
    requires range.end.line < |doc.lines|
    modifies tool
    ensures r == Provide(doc, range, host, tool.respond)
    ensures tool.invocations == old(tool.invocations) + ToolCalls(doc, range, host)
  {
    var binPath := FindImplBin(host);
    if binPath == "" {
      return NoActions;
    }
    var match_ := Tokenize(doc.lines[range.end.line]);
    if match_.None? {
      return NoActions;
    }
    r := OfferFix(doc, range.end, binPath, match_.value, tool);
  }

  /** The steps after a successful match: find the closing line, run the tool
      through `createFix` on the range from two lines below it to the trigger,
      and mark the action preferred. */
  method OfferFix(doc: Document, trigger: Position, binPath: string, a: Annotation, tool: ImplTool)
    returns (r: Outcome)
    modifies tool
    ensures r == Offer(doc, trigger, binPath, a, tool.respond)
    ensures tool.invocations == old(tool.invocations) + [Invocation(binPath, ToolArgs(a.receiver, a.interfaces))]
  {
    var startIndex := FindClosingLine(doc.lines, trigger.line);
    var implInterface := CreateFix(doc, MakeRange(Position(startIndex + 2, 0), trigger),
                                   a.receiver, a.interfaces, binPath, tool);
    if implInterface.Failure? {
      return Threw(implInterface.error);
    }
    r := Actions([implInterface.value.(isPreferred := true)]);
  }

  /** The provider offers nothing exactly when the binary is missing or the
      trigger line carries no annotation, and it then starts no tool. */
  lemma NoActionsExactlyOnEarlyExit(doc: Document, range: Range, host: Host,
                                    respond: (string, seq<string>) -> Result<string, string>)
    requires range.end.line < |doc.lines|
    ensures Provide(doc, range, host, respond) == NoActions <==>
              ResolvedBin(host) == "" || Tokenize(TriggerLine(doc, range)).None?
    ensures ToolCalls(doc, range, host) == [] <==> Provide(doc, range, host, respond) == NoActions
  {
  }

  /** Without a usable binary, even an annotated line yields nothing and no tool runs. */
  lemma BinaryCheckedFirst(doc: Document, range: Range, host: Host,
                           respond: (string, seq<string>) -> Result<string, string>)
    requires range.end.line < |doc.lines|
    requires ResolvedBin(host) == ""
    ensures Provide(doc, range, host, respond) == NoActions && ToolCalls(doc, range, host) == []
  {
  }

  /** A failing tool run is the provider's own failure, with the same error. */
  lemma ToolFailurePropagates(doc: Document, range: Range, host: Host,
                              respond: (string, seq<string>) -> Result<string, string>)
    requires range.end.line < |doc.lines|
    requires ToolCalls(doc, range, host) != []
    ensures var call := ToolCalls(doc, range, host)[0];
            respond(call.path, call.args).Failure? ==>
              Provide(doc, range, host, respond) == Threw(respond(call.path, call.args).error)
  {
  }

  /** Every offered result is a single preferred action titled after the
      annotation, whose one edit inserts the tool's output unchanged, deleting
      nothing, at column 0 of `max(startIndex + 2, trigger line)`. */
  lemma ActionShape(doc: Document, range: Range, host: Host,
                    respond: (string, seq<string>) -> Result<string, string>)
    requires range.end.line < |doc.lines|
    requires Provide(doc, range, host, respond).Actions?
    ensures ResolvedBin(host) != "" && Tokenize(TriggerLine(doc, range)).Some?
    ensures var a := Tokenize(TriggerLine(doc, range)).value;
            var acts := Provide(doc, range, host, respond).actions;
            var out := respond(ResolvedBin(host), ToolArgs(a.receiver, a.interfaces));
            && ToolCalls(doc, range, host) == [Invocation(ResolvedBin(host), ToolArgs(a.receiver, a.interfaces))]
            && out.Success?
            && |acts| == 1 && acts[0].isPreferred
            && acts[0].title == "Implement " + a.receiver + " " + a.interfaces
            && |acts[0].edits| == 1
            && acts[0].edits[0].uri == doc.uri
            && acts[0].edits[0].range.start == acts[0].edits[0].range.end
            && acts[0].edits[0].range.start
                 == Position(Max(StartIndex(doc.lines, range.end.line) + 2, range.end.line), 0)
            && acts[0].edits[0].newText == out.value
  {
    InsertionLineValue(doc.lines, range.end);
  }

  /** The annotated line itself never closes the block: its trimmed text starts
      with `//`, so its raw text cannot start with `}`. */
  lemma AnnotationLineNotClosing(lineText: string)
    requires Tokenize(lineText).Some?
    ensures !ClosesBlock(lineText)
  {
    TokenizeStartsWithComment(lineText);
    if lineText != [] && !IsSpace(lineText[0]) {
      TrimKeepsFirst(lineText);
    }
  }

  /** When a closing line follows the annotation, the edit goes two lines below
      it, hence strictly below the annotation line. */
  lemma InsertionBelowClosingLine(doc: Document, range: Range, host: Host,
                                  respond: (string, seq<string>) -> Result<string, string>)
    requires range.end.line < |doc.lines|
    requires Provide(doc, range, host, respond).Actions?
    requires FirstClosingLine(doc.lines, range.end.line).Some?
    ensures var found := FirstClosingLine(doc.lines, range.end.line).value;
            && range.end.line < found
            && Provide(doc, range, host, respond).actions[0].edits[0].range.start == Position(found + 2, 0)
  {
    AnnotationLineNotClosing(TriggerLine(doc, range));
    InsertionLineValue(doc.lines, range.end);
  }

  /** With no closing line below the annotation, the edit goes at column 0 of
      `max(2, trigger line)`: from line 2 on that is the annotation line itself,
      so the generated code lands above the comment. */
  lemma InsertionWithoutClosingLine(doc: Document, range: Range, host: Host,
                                    respond: (string, seq<string>) -> Result<string, string>)
    requires range.end.line < |doc.lines|
    requires Provide(doc, range, host, respond).Actions?
    requires FirstClosingLine(doc.lines, range.end.line).None?
    ensures Provide(doc, range, host, respond).actions[0].edits[0].range.start
              == Position(Max(2, range.end.line), 0)
    ensures range.end.line >= 2 ==>
              Provide(doc, range, host, respond).actions[0].edits[0].range.start == Position(range.end.line, 0)
  {
    InsertionLineValue(doc.lines, range.end);
  }

  /** A Go file whose line 3 annotates `Foo` and whose struct closes on line 6. */
  const ExampleLines: seq<string> :=
    ["package foo", "", "", "// Foo @impl io.Reader", "type Foo struct {", "\tr io.Reader", "}", ""]

  /** With `GOBIN` set to `/go/bin`, an executable `/go/bin/impl` and the cursor
      on the annotation, the tool is asked for `f *Foo` and `io.Reader`, and
      its output is inserted at the start of line 8, two below the closing brace. */
  lemma ExampleEndToEnd(doc: Document, range: Range, host: Host,
                        respond: (string, seq<string>) -> Result<string, string>, out: string)
    requires doc.lines == ExampleLines && range.end.line == 3
    requires host.getEnv("GOBIN") == "/go/bin"
    requires host.lstat("/go/bin/impl") == Some(RegularFile) && host.canExecute("/go/bin/impl")
    requires respond("/go/bin/impl", ["f *Foo", "io.Reader"]) == Success(out)
    ensures ToolCalls(doc, range, host) == [Invocation("/go/bin/impl", ["f *Foo", "io.Reader"])]
    ensures Provide(doc, range, host, respond)
              == Actions([CodeAction("Implement Foo io.Reader", [Insert(doc.uri, Position(8, 0), out)], true)])
  {
    assert ResolvedBin(host) == "/go/bin/impl" by {
      assert "/go/bin" + "/impl" == "/go/bin/impl";
    }
    assert Tokenize(TriggerLine(doc, range)) == Some(Annotation("Foo", "io.Reader")) by {
      ExampleAnnotation(TriggerLine(doc, range));
    }
    ExampleArgsAndTitle();
    assert InsertionLine(doc.lines, range.end) == 8 by {
      ExampleClosingLine(doc.lines);
      InsertionLineValue(doc.lines, range.end);
    }
    ProvideOnMatch(doc, range, host, respond, "/go/bin/impl", Annotation("Foo", "io.Reader"), out);
  }

  /** `Provide` and `ToolCalls` once the binary, the annotation and the tool's answer are known. */
  lemma ProvideOnMatch(doc: Document, range: Range, host: Host,
                       respond: (string, seq<string>) -> Result<string, string>,
                       binPath: string, a: Annotation, out: string)
    requires range.end.line < |doc.lines|
    requires ResolvedBin(host) == binPath && binPath != ""
    requires Tokenize(TriggerLine(doc, range)) == Some(a)
    requires respond(binPath, ToolArgs(a.receiver, a.interfaces)) == Success(out)
    ensures ToolCalls(doc, range, host) == [Invocation(binPath, ToolArgs(a.receiver, a.interfaces))]
    ensures Provide(doc, range, host, respond)
              == Actions([CodeAction(FixTitle(a.receiver, a.interfaces),
                                     [Insert(doc.uri, Position(InsertionLine(doc.lines, range.end), 0), out)],
                                     true)])
  {
    assert Provide(doc, range, host, respond) == Offer(doc, range.end, binPath, a, respond);
  }

  /** The tool arguments and the title the example's annotation gives. */
  lemma ExampleArgsAndTitle()
    ensures ToolArgs("Foo", "io.Reader") == ["f *Foo", "io.Reader"]
    ensures FixTitle("Foo", "io.Reader") == "Implement Foo io.Reader"
  {
    assert FirstCharLower("Foo") == "f";
    assert ReceiverArg("Foo") == "f" + " *" + "Foo" == "f *Foo";
  }

  /** The annotation line of the example matches with receiver `Foo` and interfaces `io.Reader`. */
  lemma ExampleAnnotation(line: string)
    requires line == "// Foo @impl io.Reader"
    ensures Tokenize(line) == Some(Annotation("Foo", "io.Reader"))
  {
    assert line == "// " + "Foo" + " @impl " + "io.Reader";
    TokenizeSingleSpaced("Foo", "io.Reader");
  }

  /** The scan from the annotation stops at the closing brace on line 6. */
  lemma ExampleClosingLine(lines: seq<string>)
    requires lines == ExampleLines
    ensures FirstClosingLine(lines, 3) == Some(6)
  {
    assert lines[6][..1] == "}";
    assert lines[5][..1][0] == '\t' && lines[4][..1][0] == 't' && lines[3][..1][0] == '/';
    assert FirstClosingLine(lines, 6) == Some(6);
    assert FirstClosingLine(lines, 5) == Some(6);
    assert FirstClosingLine(lines, 4) == Some(6);
  }
}
