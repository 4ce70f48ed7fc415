/**
 * Translation of the rows of an extracted JavaScript stack trace into the
 * frames handed to the crash reporter (index.js).
 *
 * Every field of a row and of a resolved location may be absent, and the
 * translation combines them with JavaScript's `||`, so a field counts as
 * present only when it is *truthy*: a string must be non-empty, a number
 * must be non-zero.
 */
module Frames {
  import opened Wrappers

  /** One row produced by the stack-trace extractor. */
  datatype StackRow = StackRow(
    fileName: Option<string>,
    lineNumber: Option<int>,
    columnNumber: Option<int>,
    source: Option<string>)   // free-form text of the row, the last-resort function name

  /** What a source-map lookup returns for a row (`{}` when there is no map). */
  datatype Location = Location(
    source: Option<string>,
    line: Option<int>,
    column: Option<int>,
    name: Option<string>)

  /** The generated-code position that is looked up in the source map. */
  datatype Position = Position(line: Option<int>, column: Option<int>)

  /** One frame of the report sent to the crash reporter. */
  datatype ReportFrame = ReportFrame(
    fileName: Option<string>,
    columnNumber: Option<int>,
    lineNumber: Option<int>,
    functionName: string)

  /** The function name used when a row has no usable label either. */
  const UnknownFunc: string := "unknown_func"

  /** The location `nomap` returns: no field present. */
  const EmptyLocation: Location := Location(None, None, None, None)

  // ---------------------------------------------------------------------
  // JavaScript truthiness and `||`

  predicate TruthyStr(o: Option<string>) {
    o.Some? && o.value != ""
  }

  predicate TruthyNum(o: Option<int>) {
    o.Some? && o.value != 0
  }

  /** `a || b` on strings: the first operand when truthy, else the second. */
  function OrStr(a: Option<string>, b: Option<string>): (r: Option<string>)
    ensures r == a || r == b
    ensures TruthyStr(a) ==> r == a
    ensures !TruthyStr(a) ==> r == b
    ensures TruthyStr(r) <==> TruthyStr(a) || TruthyStr(b)
  {
    if TruthyStr(a) then a else b
  }

  /** `a || b` on numbers: the first operand when truthy, else the second. */
  function OrNum(a: Option<int>, b: Option<int>): (r: Option<int>)
    ensures r == a || r == b
    ensures TruthyNum(a) ==> r == a
    ensures !TruthyNum(a) ==> r == b
    ensures TruthyNum(r) <==> TruthyNum(a) || TruthyNum(b)
  {
    if TruthyNum(a) then a else b
  }

  // ---------------------------------------------------------------------
  // Rendering inside a template literal

  function Digit(d: nat): char
    requires d < 10
  {
    "0123456789"[d]
  }

  function NatToString(n: nat): string
  {
    if n < 10 then [Digit(n)] else NatToString(n / 10) + [Digit(n % 10)]
  }

  /** Decimal text of an integer. */
  function IntToString(n: int): string
  {
    if n < 0 then "-" + NatToString(-n) else NatToString(n)
  }

  /** Text of an optional string field; an absent one renders as "null". */
  function RenderStr(o: Option<string>): string
  {
    match o
    case Some(s) => s
    case None => "null"
  }

  /** Text of an optional number field; an absent one renders as "null". */
  function RenderNum(o: Option<int>): string
  {
    match o
    case Some(n) => IntToString(n)
    case None => "null"
  }

  // ---------------------------------------------------------------------
  // Mappers

  /**
   * The mapper used when no source map is given. Its location resolves
   * nothing, so a row translated through it is reported with its own file,
   * line and column and with its label as function name.
   */
  function NoMap(row: StackRow): (loc: Location)
    ensures Translate(row, loc) == ReportFrame(row.fileName, row.columnNumber, row.lineNumber, Label(row))
  {
    EmptyLocation
  }

  /** The position of a row that the source-map mapper looks up. */
  function PositionOf(row: StackRow): Position
  {
    Position(row.lineNumber, row.columnNumber)
  }

  /**
   * The mapper `init` chooses: `nomap` unless a (truthy) source map is
   * given, and otherwise a lookup of the row's line and column in the
   * consumer built from that map. `consumerFor` stands for building a
   * source-map consumer and calling its `originalPositionFor`.
   */
  function SelectMapper(smap: Option<string>, consumerFor: string -> Position -> Location)
    : (mapper: StackRow -> Location)
    ensures !TruthyStr(smap) ==> forall row :: mapper(row) == EmptyLocation
    ensures TruthyStr(smap) ==>
      forall row :: mapper(row) == consumerFor(smap.value)(Position(row.lineNumber, row.columnNumber))
  {
    if TruthyStr(smap) then
      var mapped := (row: StackRow) => consumerFor(smap.value)(PositionOf(row));
      assert forall row :: mapped(row) == consumerFor(smap.value)(PositionOf(row));
      mapped
    else
      NoMap
  }

  // ---------------------------------------------------------------------
  // The per-row translation

  /**
   * The function name reported for a resolved location: it starts with the
   * rendered name followed by `@`, and ends with `:` and the rendered column.
   */
  function Signature(loc: Location): (r: string)
    ensures r != ""
    ensures |r| > |RenderStr(loc.name)| && r[..|RenderStr(loc.name)| + 1] == RenderStr(loc.name) + "@"
    ensures |r| > |RenderNum(loc.column)| && r[|r| - |RenderNum(loc.column)| - 1..] == ":" + RenderNum(loc.column)
  {
    RenderStr(loc.name) + "@" + RenderStr(loc.source) + " "
      + RenderNum(loc.line) + ":" + RenderNum(loc.column)
  }

  /** The function name reported for an unresolved row: its label, or "unknown_func" when the label is falsy. */
  function Label(row: StackRow): (r: string)
    ensures r != ""
    ensures TruthyStr(row.source) ==> r == row.source.value
    ensures !TruthyStr(row.source) ==> r == UnknownFunc
  {
    RenderStr(OrStr(row.source, Some(UnknownFunc)))
  }

  /**
   * The report frame built from one row and its (possibly empty) location.
   * File name and function name come together from the location when its
   * source is truthy and from the row otherwise; each of line and column is
   * the resolved or the row's value, and is truthy exactly when one of the
   * two is; the function name is never empty.
   */
  function Translate(row: StackRow, loc: Location): (f: ReportFrame)
    ensures TruthyStr(loc.source) ==> f.fileName == loc.source && f.functionName == Signature(loc)
    ensures !TruthyStr(loc.source) ==> f.fileName == row.fileName && f.functionName == Label(row)
    ensures f.lineNumber == loc.line || f.lineNumber == row.lineNumber
    ensures f.columnNumber == loc.column || f.columnNumber == row.columnNumber
    ensures TruthyNum(f.lineNumber) <==> TruthyNum(loc.line) || TruthyNum(row.lineNumber)
    ensures TruthyNum(f.columnNumber) <==> TruthyNum(loc.column) || TruthyNum(row.columnNumber)
    ensures f.functionName != ""
  {
    ReportFrame(
      OrStr(loc.source, row.fileName),
      OrNum(loc.column, row.columnNumber),
      OrNum(loc.line, row.lineNumber),
      if TruthyStr(loc.source) then Signature(loc) else Label(row))
  }

  /** The frames of a report: every row translated through the mapper. */
  function TranslateAll(rows: seq<StackRow>, mapper: StackRow -> Location): (frames: seq<ReportFrame>)
    ensures |frames| == |rows|
    ensures forall i :: 0 <= i < |rows| ==> frames[i] == Translate(rows[i], mapper(rows[i]))
  {
    if rows == [] then []
    else [Translate(rows[0], mapper(rows[0]))] + TranslateAll(rows[1..], mapper)
  }

  // ---------------------------------------------------------------------
  // Properties of one translated frame

  /** The file name is the resolved source when truthy, and the row's otherwise. */
  lemma FileNameRule(row: StackRow, loc: Location)
    ensures TruthyStr(loc.source) ==> Translate(row, loc).fileName == loc.source
    ensures !TruthyStr(loc.source) ==> Translate(row, loc).fileName == row.fileName
  {
  }

  /**
   * Line and column take the resolved value only when it is truthy; a
   * resolved 0 falls back to the row's generated position just as an
   * absent one does.
   */
  lemma PositionRule(row: StackRow, loc: Location)
    ensures Translate(row, loc).lineNumber == if TruthyNum(loc.line) then loc.line else row.lineNumber
    ensures Translate(row, loc).columnNumber == if TruthyNum(loc.column) then loc.column else row.columnNumber
    ensures loc.line == Some(0) ==> Translate(row, loc).lineNumber == row.lineNumber
    ensures loc.column == Some(0) ==> Translate(row, loc).columnNumber == row.columnNumber
  {
  }

  /**
   * With a truthy resolved source the function name is
   * `<name>@<source> <line>:<column>`, and neither it nor the file name
   * depends on the row at all.
   */
  lemma ResolvedNameRule(row: StackRow, other: StackRow, loc: Location)
    requires TruthyStr(loc.source)
    ensures Translate(row, loc).functionName ==
      RenderStr(loc.name) + "@" + loc.source.value + " " + RenderNum(loc.line) + ":" + RenderNum(loc.column)
    ensures Translate(row, loc).functionName == Translate(other, loc).functionName
    ensures Translate(row, loc).fileName == Translate(other, loc).fileName
  {
  }

  /**
   * Without a truthy resolved source the function name is the row's label,
   * or "unknown_func" when the label is falsy; the location's name,
   * line and column are then never used for it.
   */
  lemma UnresolvedNameRule(row: StackRow, loc: Location, loc': Location)
    requires !TruthyStr(loc.source) && !TruthyStr(loc'.source)
    ensures TruthyStr(row.source) ==> Translate(row, loc).functionName == row.source.value
    ensures !TruthyStr(row.source) ==> Translate(row, loc).functionName == UnknownFunc
    ensures Translate(row, loc).functionName == Translate(row, loc').functionName
  {
  }

  /**
   * A resolved column of 0 (source-map columns count from 0) is reported
   * in the function name but replaced by the row's column in
   * `columnNumber`.
   */
  lemma ZeroColumnDisagrees()
    ensures
      var row := StackRow(Some("index.bundle"), Some(10), Some(5), Some("foo@index.bundle:10:5"));
      var loc := Location(Some("orig.js"), Some(3), Some(0), Some("foo"));
      Translate(row, loc) == ReportFrame(Some("orig.js"), Some(5), Some(3), "foo@orig.js 3:0")
  {
  }

  // ---------------------------------------------------------------------
  // Properties of a whole report's frames

  /**
   * Without a source map every report frame keeps the row's file, line and
   * column, and its function name is the row's label or "unknown_func".
   */
  lemma NoSourceMapKeepsRows(
    rows: seq<StackRow>, smap: Option<string>, consumerFor: string -> Position -> Location)
    requires !TruthyStr(smap)
    ensures var frames := TranslateAll(rows, SelectMapper(smap, consumerFor));
      |frames| == |rows| &&
      forall i :: 0 <= i < |rows| ==>
        frames[i].fileName == rows[i].fileName &&
        frames[i].lineNumber == rows[i].lineNumber &&
        frames[i].columnNumber == rows[i].columnNumber &&
        frames[i].functionName == (if TruthyStr(rows[i].source) then rows[i].source.value else UnknownFunc)
  {
  }

  /**
   * With a source map, two rows at the same generated line and column are
   * resolved alike: whenever the lookup yields a truthy source, their
   * frames are identical.
   */
  lemma SamePositionSameFrame(
    r1: StackRow, r2: StackRow, smap: Option<string>, consumerFor: string -> Position -> Location)
    requires TruthyStr(smap)
    requires r1.lineNumber == r2.lineNumber && r1.columnNumber == r2.columnNumber
    requires TruthyStr(SelectMapper(smap, consumerFor)(r1).source)
    ensures var mapper := SelectMapper(smap, consumerFor);
      Translate(r1, mapper(r1)) == Translate(r2, mapper(r2))
  {
  }

  /** Translating a concatenation of traces translates each part. */
  lemma TranslateAllAppend(a: seq<StackRow>, b: seq<StackRow>, mapper: StackRow -> Location)
    ensures TranslateAll(a + b, mapper) == TranslateAll(a, mapper) + TranslateAll(b, mapper)
  {
  }

  /** A one-row trace with a resolved location (file orig.js, line 3, column 1, name foo). */
  lemma ResolvedExample()
    ensures
      var row := StackRow(Some("index.bundle"), Some(10), Some(5), None);
      var loc := Location(Some("orig.js"), Some(3), Some(1), Some("foo"));
      Translate(row, loc) == ReportFrame(Some("orig.js"), Some(1), Some(3), "foo@orig.js 3:1")
  {
  }
}
