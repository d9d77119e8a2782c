/** The insertion locator of `provideCodeActions`: from the trigger line on,
    the first line whose raw text starts with `}` closes the annotated type,
    and the generated methods go two lines below it. */
module InsertionLocator {
  import opened Wrappers
  import opened Text
  import opened Editor

  /** A line that closes a block: its untrimmed text starts with `}`. */
  predicate ClosesBlock(lineText: string) {
    StartsWith(lineText, "}")
  }

  /** The first line at or after `from` that closes a block, if any. */
  function FirstClosingLine(lines: seq<string>, from: nat): (r: Option<nat>)
    decreases |lines| - from
    ensures r.Some? ==> from <= r.value < |lines| && ClosesBlock(lines[r.value])
    ensures r.Some? ==> forall j :: from <= j < r.value ==> !ClosesBlock(lines[j])
    ensures r.None? ==> forall j :: from <= j < |lines| ==> !ClosesBlock(lines[j])
  {
    if from >= |lines| then None
    else if ClosesBlock(lines[from]) then Some(from)
    else FirstClosingLine(lines, from + 1)
  }

  /** The value `startIndex` ends with: the closing line, or 0 when there is none. */
  function StartIndex(lines: seq<string>, from: nat): nat {
    match FirstClosingLine(lines, from)
    case Some(i) => i
    case None => 0
  }

  /** The scan loop of `provideCodeActions`. */
  method FindClosingLine(lines: seq<string>, from: nat) returns (startIndex: nat)
    ensures startIndex == StartIndex(lines, from)
  {
    startIndex := 0;
    var lineIndex := from;
    while lineIndex < |lines|
      invariant from <= lineIndex
      invariant FirstClosingLine(lines, lineIndex) == FirstClosingLine(lines, from)
    {
      if StartsWith(lines[lineIndex], "}") {
        startIndex := lineIndex;
        break;
      }
      lineIndex := lineIndex + 1;
    }
  }

  /** The line the edit is inserted at: the end line of
      `new Range(new Position(startIndex + 2, 0), trigger)`. */
  function InsertionLine(lines: seq<string>, trigger: Position): nat {
    MakeRange(Position(StartIndex(lines, trigger.line) + 2, 0), trigger).end.line
  }

  /** Because the range constructor orders its ends, the insertion line is the
      larger of `startIndex + 2` and the trigger line: two below the closing line
      when there is one, and `max(2, trigger line)` when there is none. It is
      never clamped to the document's length. */
  lemma InsertionLineValue(lines: seq<string>, trigger: Position)
    ensures InsertionLine(lines, trigger) == Max(StartIndex(lines, trigger.line) + 2, trigger.line)
    ensures FirstClosingLine(lines, trigger.line).Some? ==>
              InsertionLine(lines, trigger) == FirstClosingLine(lines, trigger.line).value + 2
    ensures FirstClosingLine(lines, trigger.line).None? ==>
              InsertionLine(lines, trigger) == Max(2, trigger.line)
  {
  }

  /** An indented `}` never closes a block for the scan. */
  lemma IndentedBraceIgnored(lineText: string)
    requires lineText != [] && IsSpace(lineText[0])
    ensures !ClosesBlock(lineText)
  {
  }
}
