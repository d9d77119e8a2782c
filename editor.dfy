/** The editor host's value types that the code action uses: positions, the
    ordered range constructor, documents as lists of lines, text edits and the
    code action itself. */
module Editor {

  /** A zero-based line and character offset. */
  datatype Position = Position(line: nat, character: nat)

  predicate IsBefore(a: Position, b: Position) {
    a.line < b.line || (a.line == b.line && a.character < b.character)
  }

  /** A range between two positions. Only `MakeRange`, the host's constructor,
      guarantees that `start` is not after `end`. */
  datatype Range = Range(start: Position, end: Position)

  function Max(a: nat, b: nat): nat {
    if a < b then b else a
  }

  /** `new Range(start, end)`: swaps the arguments when `start` is after `end`. */
  function MakeRange(start: Position, end: Position): (r: Range)
    ensures !IsBefore(r.end, r.start)
    ensures (r.start, r.end) == (start, end) || (r.start, r.end) == (end, start)
    ensures r.end.line == Max(start.line, end.line)
  {
    if IsBefore(end, start) then Range(end, start) else Range(start, end)
  }

  /** The document as the host exposes it: its URI and its lines, without line terminators. */
  datatype Document = Document(uri: string, lines: seq<string>)

  /** Replace the text in `range` of the document at `uri` with `newText`. */
  datatype TextEdit = TextEdit(uri: string, range: Range, newText: string)

  /** `WorkspaceEdit.insert`: an edit over the empty range at `at`, so nothing is deleted. */
  function Insert(uri: string, at: Position, text: string): (e: TextEdit)
    ensures e.range.start == e.range.end == at
    ensures e.uri == uri && e.newText == text
  {
    TextEdit(uri, Range(at, at), text)
  }

  /** A code action: its title, its workspace edit and whether it is the preferred fix. */
  datatype CodeAction = CodeAction(title: string, edits: seq<TextEdit>, isPreferred: bool)
}
