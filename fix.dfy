/** The generator invoker and edit builder of `createFix`: the argument vector
    for the `impl` tool, the external process as an object that records every
    invocation, and the code action that inserts the tool's output. */
module ImplFix {
  import opened Wrappers
  import opened Text
  import opened Editor

  /** The receiver argument: the receiver's first character lower-cased, a
      space, a star and the receiver (`Foo` becomes `f *Foo`). */
  function ReceiverArg(receiver: string): (arg: string)
    ensures receiver == [] ==> arg == " *"
    ensures receiver != [] ==> |arg| == |receiver| + 3 && arg[0] == LowerAscii(receiver[0])
    ensures arg[|arg| - |receiver| - 2..] == " *" + receiver
  {
    FirstCharLower(receiver) + " *" + receiver
  }

  /** The two positional arguments: the receiver argument and the interfaces text unchanged. */
  function ToolArgs(receiver: string, interfaces: string): (args: seq<string>)
    ensures |args| == 2 && args[0] == ReceiverArg(receiver) && args[1] == interfaces
  {
    [ReceiverArg(receiver), interfaces]
  }

  /** The action's title, from which both captures read back verbatim. */
  function FixTitle(receiver: string, interfaces: string): (title: string)
    ensures |title| == 11 + |receiver| + |interfaces|
    ensures title[..10] == "Implement " && title[10..10 + |receiver|] == receiver
    ensures title[10 + |receiver|] == ' ' && title[11 + |receiver|..] == interfaces
  {
    "Implement " + receiver + " " + interfaces
  }

  /** For receiver `Foo` and interfaces `Stringer` the tool gets `f *Foo` and `Stringer`. */
  lemma ToolArgsExample()
    ensures ToolArgs("Foo", "Stringer") == ["f *Foo", "Stringer"]
  {
    assert LowerAscii('F') == 'f';
    assert FirstCharLower("Foo") == "f";
    assert ReceiverArg("Foo") == "f" + " *" + "Foo" == "f *Foo";
  }

  /** One start of the external tool: the executable path and the argument vector. */
  datatype Invocation = Invocation(path: string, args: seq<string>)

  /** The external `impl` executable, run synchronously. What it prints for a
      path and arguments, or why it fails (spawn error, non-zero exit), is
      fixed by `respond`; `invocations` records every process started. */
  class ImplTool {
    const respond: (string, seq<string>) -> Result<string, string>
    var invocations: seq<Invocation>

    constructor (respond: (string, seq<string>) -> Result<string, string>)
      ensures this.respond == respond && invocations == []
    {
      this.respond := respond;
      invocations := [];
    }

    /** `execFileSync(path, args, {})` followed by `toString()` of its standard output. */
    method ExecFileSync(path: string, args: seq<string>) returns (out: Result<string, string>)
      modifies this
      ensures invocations == old(invocations) + [Invocation(path, args)]
      ensures out == respond(path, args)
    {
      invocations := invocations + [Invocation(path, args)];
      out := respond(path, args);
    }
  }

  /** `createFix`: runs the tool once with the receiver and interfaces and, if it
      succeeds, returns an action titled `Implement <receiver> <interfaces>`
      whose only edit inserts the output, unchanged, at column 0 of the end line
      of `range`. A failing tool makes the call fail with the tool's error. */
  method CreateFix(doc: Document, range: Range, receiver: string, interfaces: string,
                   binPath: string, tool: ImplTool) returns (fix: Result<CodeAction, string>)
    modifies tool
    ensures tool.invocations == old(tool.invocations) + [Invocation(binPath, ToolArgs(receiver, interfaces))]
    ensures tool.respond(binPath, ToolArgs(receiver, interfaces)).Failure? ==>
              fix == Failure(tool.respond(binPath, ToolArgs(receiver, interfaces)).error)
    ensures tool.respond(binPath, ToolArgs(receiver, interfaces)).Success? ==>
              fix == Success(CodeAction(
                       "Implement " + receiver + " " + interfaces,
                       [Insert(doc.uri, Position(range.end.line, 0), tool.respond(binPath, ToolArgs(receiver, interfaces)).value)],
                       false))
  {
    var title := FixTitle(receiver, interfaces);
    var args := [FirstCharLower(receiver) + " *" + receiver, interfaces];
    var out := tool.ExecFileSync(binPath, args);
    if out.Failure? {
      return Failure(out.error);
    }
    fix := Success(CodeAction(title, [Insert(doc.uri, Position(range.end.line, 0), out.value)], false));
  }
}
