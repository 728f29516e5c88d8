/** The CSV text of exportSampleCSV (data-validator.js): a header line of
    the first row's keys, then one line per row with its values in header
    order, every line ended by a newline. */
module CsvExport {
  import opened Wrappers
  import opened JsValues

  /** How `Array.prototype.join` writes one cell: `null` and `undefined` as
      nothing, booleans as `true`/`false`, strings as they are. Converting a
      number to its decimal text is left to `numberText`. */
  function CellText(v: Value, numberText: real -> string): (t: string)
    ensures v.Str? ==> t == v.s
    ensures v == Null || v == Undefined ==> t == ""
  {
    match v
    case Undefined => ""
    case Null => ""
    case Bool(b) => if b then "true" else "false"
    case Num(n) => numberText(n)
    case Str(s) => s
  }

  /** `headers.map(header => row[header]).join(',')`. */
  function RowLine(row: Record, headers: seq<string>, numberText: real -> string): string {
    Join(seq(|headers|, i requires 0 <= i < |headers| => CellText(Get(row, headers[i]), numberText)), ",")
  }

  /** Lines written one after another, each followed by a newline. */
  function Terminated(lines: seq<string>): (s: string)
    ensures |s| >= |lines|
    decreases |lines|
  {
    if lines == [] then [] else lines[0] + "\n" + Terminated(lines[1..])
  }

  /** Appending a line appends it and its newline to the text. */
  lemma {:induction false} TerminatedAppend(lines: seq<string>, line: string)
    ensures Terminated(lines + [line]) == Terminated(lines) + line + "\n"
    decreases |lines|
  {
    if lines != [] {
      assert (lines + [line])[1..] == lines[1..] + [line];
      TerminatedAppend(lines[1..], line);
    }
  }

  /** The lines of the CSV text: the header line, then one line per row. */
  function CsvLines(data: seq<Record>, numberText: real -> string): (lines: seq<string>)
    requires data != []
    ensures |lines| == |data| + 1
    ensures lines[0] == Join(Keys(data[0]), ",")
    ensures forall i :: 0 <= i < |data| ==> lines[i + 1] == RowLine(data[i], Keys(data[0]), numberText)
  {
    var headers := Keys(data[0]);
    [Join(headers, ",")] + seq(|data|, i requires 0 <= i < |data| => RowLine(data[i], headers, numberText))
  }

  /** The CSV text of a batch. An empty batch has no first row, and
      `Object.keys(undefined)` throws: `None`. */
  function CsvText(data: seq<Record>, numberText: real -> string): (csv: Option<string>)
    ensures csv.None? <==> data == []
  {
    if data == [] then None else Some(Terminated(CsvLines(data, numberText)))
  }

  /** The CSV assembly of exportSampleCSV, for the rows `data`. */
  method ExportCsv(data: seq<Record>, numberText: real -> string) returns (csv: Option<string>)
    ensures csv == CsvText(data, numberText)
  {
    if |data| == 0 {
      return None;
    }
    var headers := Keys(data[0]);
    var text := Join(headers, ",") + "\n";
    ghost var lines := CsvLines(data, numberText);
    assert text == Terminated(lines[..1]);
    for i := 0 to |data|
      invariant text == Terminated(lines[..i + 1])
    {
      var line := RowLine(data[i], headers, numberText);
      TerminatedAppend(lines[..i + 1], line);
      assert lines[..i + 2] == lines[..i + 1] + [line];
      text := text + line + "\n";
    }
    assert lines[..|data| + 1] == lines;
    csv := Some(text);
  }

  // ---------------------------------------------------------------------
  // Reading the text back

  /** The position of the first newline, if any. */
  function NewlineIndex(s: string): (k: Option<nat>)
    ensures k.Some? ==> k.value < |s| && s[k.value] == '\n' && '\n' !in s[..k.value]
    ensures k.None? ==> '\n' !in s
  {
    if s == [] then None
    else if s[0] == '\n' then Some(0)
    else match NewlineIndex(s[1..])
      case None => None
      case Some(k) => Some(k + 1)
  }

  /** The newline-terminated lines of a text; an unterminated tail counts as
      a last line. */
  function SplitLines(s: string): seq<string>
    decreases |s|
  {
    if s == [] then []
    else match NewlineIndex(s)
      case None => [s]
      case Some(k) => [s[..k]] + SplitLines(s[k + 1..])
  }

  /** The first newline after a line without one is the one that ends it. */
  lemma NewlineAfterLine(line: string, rest: string)
    requires '\n' !in line
    ensures NewlineIndex(line + "\n" + rest) == Some(|line|)
  {
    var s := line + "\n" + rest;
    assert s[|line|] == '\n';
    assert s[..|line|] == line;
  }

  /** Splitting the text at its newlines gives back the lines it was made
      of, as long as no line holds a newline itself. */
  lemma {:induction false} SplitTerminated(lines: seq<string>)
    requires forall i :: 0 <= i < |lines| ==> '\n' !in lines[i]
    ensures SplitLines(Terminated(lines)) == lines
    decreases |lines|
  {
    if lines != [] {
      var rest := Terminated(lines[1..]);
      var s := lines[0] + "\n" + rest;
      NewlineAfterLine(lines[0], rest);
      assert s[..|lines[0]|] == lines[0];
      assert s[|lines[0]| + 1..] == rest;
      SplitTerminated(lines[1..]);
    }
  }

  /** No cell of a row holds a newline when no string value, no header and
      no number text does. */
  lemma RowLineHasNoNewline(row: Record, headers: seq<string>, numberText: real -> string)
    requires forall i :: 0 <= i < |row| ==> (row[i].value.Str? ==> '\n' !in row[i].value.s)
    requires forall x :: '\n' !in numberText(x)
    ensures '\n' !in RowLine(row, headers, numberText)
  {
    var cells := seq(|headers|, i requires 0 <= i < |headers| => CellText(Get(row, headers[i]), numberText));
    forall i | 0 <= i < |cells|
      ensures '\n' !in cells[i]
    {
      GetIsStored(row, headers[i]);
    }
    JoinAvoids(cells, ",", '\n');
  }

  /** The CSV text reads back as the header line and one line per row, in
      row order: `|data| + 1` lines. */
  lemma CsvReadsBack(data: seq<Record>, numberText: real -> string)
    requires data != []
    requires forall i :: 0 <= i < |data[0]| ==> '\n' !in data[0][i].key
    requires forall r, i :: 0 <= r < |data| && 0 <= i < |data[r]| ==>
      (data[r][i].value.Str? ==> '\n' !in data[r][i].value.s)
    requires forall x :: '\n' !in numberText(x)
    ensures SplitLines(CsvText(data, numberText).value) == CsvLines(data, numberText)
    ensures |SplitLines(CsvText(data, numberText).value)| == |data| + 1
  {
    var lines := CsvLines(data, numberText);
    var headers := Keys(data[0]);
    JoinAvoids(headers, ",", '\n');
    forall i | 0 <= i < |lines|
      ensures '\n' !in lines[i]
    {
      if i > 0 {
        RowLineHasNoNewline(data[i - 1], headers, numberText);
        assert lines[i] == RowLine(data[i - 1], headers, numberText);
      }
    }
    SplitTerminated(lines);
  }
}
