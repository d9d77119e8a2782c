# Go "implement interface" code action — a Dafny model

The extension offers one code action in Go files. The cursor must sit on a
comment line such as `// Foo @impl io.Reader`. The action runs the external
`impl` generator and inserts the stub methods it prints below the annotated
type. The model covers the provider of `src/extension.ts`:

- locating the `impl` binary through `GOBIN` or `GOPATH` and checking it is a
  regular, executable file (`ToolLocator`);
- matching the trimmed trigger line against `^//\s+(.*?)\s+@impl\s+(.*?)$`,
  modelled in the backtracking order of a JavaScript regular-expression engine
  (`Text`, `Scanner`);
- scanning from the trigger line for the first line that starts with `}`
  (`InsertionLocator`);
- the host's ordered range constructor, edits and code actions (`Editor`);
- building the argument vector, running the tool and building the action
  (`ImplFix`);
- the whole request, in the source's order of steps (`Provider`).

Operations that change state are methods proved against specification
functions:

- `FindImplBin` against `ResolvedBin`;
- `FindClosingLine` against `StartIndex`;
- `ProvideCodeActions` against `Provide` and `ToolCalls`.

The external tool is a class, `ImplTool`. It records every process started, so
"the tool is never run" is part of what the provider's contract states.

Where the insertion goes when no closing line exists: `startIndex` keeps its
initial value 0. One could read that as "insert at line 0". But the range is
built as `new Range(new Position(startIndex + 2, 0), range.end)`, and the
host's range constructor puts the later position last. So the edit goes to line
`max(2, trigger line)`. From line 2 on, that is the annotation line itself, and
the code lands above the comment. The model follows the code
(`InsertionLocator.InsertionLineValue`, `Provider.InsertionWithoutClosingLine`).

## Model

| member | source | states |
|---|---|---|
| Text.Trim | src/extension.ts:52 | the trimmed text is the slice of the line between its leading and its trailing whitespace; it is empty exactly when the line is all whitespace, and otherwise starts and ends with a non-whitespace character |
| Text.TrimKeepsFirst | src/extension.ts:52 | a line that does not start with whitespace keeps its first character after trimming |
| Text.TrimUnchanged | src/extension.ts:52 | trimming leaves a line that neither starts nor ends with whitespace unchanged |
| Text.LowerAscii | src/extension.ts:60 | `toLowerCase` on one character: an upper-case ASCII letter becomes the same letter in lower case, every other character is unchanged |
| Text.FirstCharLower | src/extension.ts:60 | `charAt(0).toLowerCase()` is the lower-cased first character for a non-empty string and empty for the empty string |
| Scanner.PatternAt | src/extension.ts:52 | the match of `^//\s+(.*?)\s+@impl\s+(.*?)$` on the trimmed text when the first `\s+` takes a given width and the receiver a given length: `//`, whitespace, a receiver without line breaks, the widest whitespace run (at least one character), `@impl`, the widest whitespace run (at least one character), and interfaces without line breaks up to the end; the second and third `\s+` are taken at their widest run |
| Scanner.SplitsAt | src/extension.ts:52 | the pattern matches with a first run of at least one character and a receiver that fits in the text |
| Scanner.Captures | src/extension.ts:52 | the two capture groups of a split: the receiver slice and the text after the whitespace that follows `@impl` |
| Scanner.ShortestReceiver | src/extension.ts:52 | the lazy receiver capture: the shortest receiver length from a given one on that completes a match, or none if no length does |
| Scanner.WidestFirst | src/extension.ts:52 | the greedy first `\s+`: the widest run that leads to a match, with its shortest receiver; no wider run and no shorter receiver matches |
| Scanner.NoWiderSplit | src/extension.ts:52 | the first `\s+` can never take more than the whitespace run that follows `//` |
| Scanner.FirstSplit | src/extension.ts:52 | the reported split matches, and every split the engine tries before it fails; no split at all means no match |
| Scanner.MatchAnnotation | src/extension.ts:52 | `match` on the trimmed text: the captures of the engine's first split, or no match |
| Scanner.Tokenize | src/extension.ts:49-53 | `isImplTokenize`: the match of the trimmed text of the trigger line |
| Scanner.FirstSplitIs | src/extension.ts:52 | a matching split before which every split fails is the one the engine reports |
| Scanner.TokenizeShape | src/extension.ts:52 | every match cuts the trimmed line into `//`, whitespace, receiver, whitespace, `@impl`, whitespace and interfaces; the captures hold no line break, and the interfaces are non-empty and neither start nor end with whitespace |
| Scanner.TokenizeComplete | src/extension.ts:52 | conversely, every trimmed line that can be cut that way matches |
| Scanner.TokenizeStartsWithComment | src/extension.ts:52 | every matching trimmed line starts with `//` |
| Scanner.TokenizeHasKeyword | src/extension.ts:52 | every matching trimmed line contains `@impl` |
| Scanner.WordSplitIsFirst | src/extension.ts:52 | a split whose receiver is one non-empty word is the one the engine reports |
| Scanner.TokenizeWord | src/extension.ts:52 | for a one-word receiver, the captures are that word and all text after the whitespace that follows `@impl` |
| Scanner.TokenizeSingleSpaced | src/extension.ts:52 | `// <Type> @impl <interfaces>` yields exactly the type and the interfaces text |
| Scanner.ExampleTwoInterfaces | src/extension.ts:52 | `// Foo @impl Stringer, error` yields `Foo` and `Stringer, error` |
| Scanner.ExamplePlainComment | src/extension.ts:52 | `// just a note` does not match |
| ToolLocator.CandidatePath | src/extension.ts:71-76 | a set `GOBIN` gives `$GOBIN/impl`; otherwise a set `GOPATH` gives `$GOPATH/bin/impl`; the path is empty exactly when neither is set |
| ToolLocator.ResolvedBin | src/extension.ts:78-88 | the result is "" or the candidate path, and it is the candidate exactly when that path is non-empty, `lstat` sees a regular file there and execute access is granted |
| ToolLocator.FindImplBin | src/extension.ts:70-89 | the step-by-step lookup, with both thrown errors caught, returns `ResolvedBin` |
| ToolLocator.GobinShadowsGopath | src/extension.ts:72-76 | with `GOBIN` set, the value of `GOPATH` does not change the result |
| ToolLocator.RefusedCandidates | src/extension.ts:79-86 | a directory, a symbolic link, a missing file or a non-executable file gives "" |
| ToolLocator.ResolvedEndsInImpl | src/extension.ts:73-75 | a resolved path ends in `/impl` |
| Editor.MakeRange | src/extension.ts:41 | the constructed range is ordered, holds the two given positions, and ends on the later of their lines |
| Editor.Insert | src/extension.ts:66 | an insertion is an edit over an empty range at the given position, so it deletes nothing |
| InsertionLocator.FirstClosingLine | src/extension.ts:33-40 | the first line at or after the trigger line whose raw text starts with `}`; every line before it does not start with `}`; none means no such line exists |
| InsertionLocator.StartIndex | src/extension.ts:33-40 | the value `startIndex` ends with: the first closing line, or its initial 0 when there is none |
| InsertionLocator.FindClosingLine | src/extension.ts:33-40 | the scan loop with its `break` ends with the first closing line, or with 0 when there is none |
| InsertionLocator.InsertionLine | src/extension.ts:41 | the end line of `new Range(new Position(startIndex + 2, 0), range.end)`, the line the edit goes to |
| InsertionLocator.InsertionLineValue | src/extension.ts:33-41 | the insertion line is `max(startIndex + 2, trigger line)`: two below the closing line when one exists, `max(2, trigger line)` otherwise |
| InsertionLocator.IndentedBraceIgnored | src/extension.ts:36 | a `}` after leading whitespace does not stop the scan |
| ImplFix.ReceiverArg | src/extension.ts:60 | the receiver argument is the lower-cased first character followed by ` *` and the receiver |
| ImplFix.ToolArgs | src/extension.ts:60 | exactly two arguments: the receiver argument and the interfaces text unchanged |
| ImplFix.FixTitle | src/extension.ts:56 | the title is `Implement `, the receiver, a space and the interfaces, so both captures read back from it verbatim |
| ImplFix.ToolArgsExample | src/extension.ts:60 | receiver `Foo` and interfaces `Stringer` give `["f *Foo", "Stringer"]` |
| ImplFix.ImplTool.ExecFileSync | src/extension.ts:61-65 | one call starts exactly one process with the given path and arguments and returns its answer |
| ImplFix.CreateFix | src/extension.ts:55-68 | runs the tool once; on success, one action titled `Implement <receiver> <interfaces>` whose only edit inserts the output at column 0 of the range's end line; on failure, the tool's error |
| Provider.Provide | src/extension.ts:22-47 | the outcome of one request: nothing without a binary, nothing without a match, else the outcome of `Offer` |
| Provider.Offer | src/extension.ts:41-46 | after a match: the tool's failure, or one preferred action titled after the captures that inserts the tool's output at column 0 of the insertion line |
| Provider.ToolCalls | src/extension.ts:23-31 | the tool runs a request starts: none on either early exit, otherwise exactly one with the captures' arguments |
| Provider.ProvideCodeActions | src/extension.ts:22-47 | the request's outcome is `Provide`, and the tool log grows by exactly `ToolCalls` |
| Provider.OfferFix | src/extension.ts:33-46 | after a match: scan, `createFix` on the swapped range, then the action is marked preferred |
| Provider.NoActionsExactlyOnEarlyExit | src/extension.ts:23-31 | no actions exactly when the binary is missing or the trigger line does not match, and exactly then no tool runs |
| Provider.BinaryCheckedFirst | src/extension.ts:23-28 | without a usable binary, even an annotated line gives nothing and runs no tool |
| Provider.ToolFailurePropagates | src/extension.ts:41 | a failing tool run makes the request fail with the tool's error |
| Provider.ActionShape | src/extension.ts:41-46 | every result is one preferred action titled after the captures; its one edit inserts the tool's output, deleting nothing, at column 0 of `max(startIndex + 2, trigger line)`; the tool ran once with the captures' arguments |
| Provider.ProvideOnMatch | src/extension.ts:22-47 | once the binary, the captures and the tool's output are known, the outcome and the tool calls are determined |
| Provider.AnnotationLineNotClosing | src/extension.ts:36 | a matching trigger line never starts with `}`, so the scan cannot stop on it |
| Provider.InsertionBelowClosingLine | src/extension.ts:33-41 | with a closing line, it lies strictly below the trigger line and the edit goes two lines below it |
| Provider.InsertionWithoutClosingLine | src/extension.ts:33-41 | without a closing line, the edit goes to `max(2, trigger line)`, which is the annotation line itself from line 2 on |
| Provider.ExampleArgsAndTitle | src/extension.ts:56-60 | `Foo` and `io.Reader` give the arguments `f *Foo`, `io.Reader` and the title `Implement Foo io.Reader` |
| Provider.ExampleAnnotation | src/extension.ts:52 | `// Foo @impl io.Reader` yields `Foo` and `io.Reader` |
| Provider.ExampleClosingLine | src/extension.ts:33-40 | in the example file, the scan from line 3 stops at line 6 |
| Provider.ExampleEndToEnd | src/extension.ts:22-47 | with `GOBIN=/go/bin` and an executable `/go/bin/impl`, the annotation on line 3 and a brace on line 6, the tool runs once with `f *Foo` and `io.Reader`, and its output goes to line 8 |

## Left out

- Registration in `activate` and the action kinds (src/extension.ts:5-20, 57) are not modelled; the model has one provider and one action shape.
- The code action context and the cancellation token are ignored by the source and are not parameters.
- The environment, `lstatSync` and `accessSync` are injected as functions of a `Host` value. `lstatSync` failing for any reason (including an empty path) is `None`.
- `execFileSync` is an injected answer per path and argument vector. Spawn errors, non-zero exits and `out.toString()` decoding are all folded into that answer; standard error, time-outs and buffer limits are not modelled.
- A thrown exception is modelled as the `Threw` outcome rather than as control flow.
- Text.Trim: whitespace is the ASCII set (space, tab, line feed, vertical tab, form feed, carriage return). The Unicode spaces that `trim` and `\s` also accept are not modelled, and `.` is taken to exclude only `\n` and `\r`.
- Text.FirstCharLower: lower-casing is ASCII only; Unicode case mappings of `toLowerCase` are not modelled.
- Provider.ProvideCodeActions: requires the cursor's end line to exist in the document, as the editor guarantees; `lineAt` on a missing line is not modelled.
- The edit's position is not clamped to the document's length; the model records the position exactly as the source builds it.
- A workspace edit is modelled as a list of text edits, and a code action as a value whose `isPreferred` flag is set by building an updated copy.
