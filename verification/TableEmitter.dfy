/** The emitter that prints the tuples as a table, and a reader that recovers
    them by splitting lines at white space. */
module TableEmitters {
  import opened Base
  import opened Metadata
  import opened Decimal
  import opened Writers

  datatype Row = Row(recordNumber: int, volumeCapacityBytes: int64, blockMetadataType: int32, byteOffset: int64, sizeBytes: int64)

  /** The two lines of the header. */
  function HeaderLine(number: nat): string {
    if number == 1 then "Record#   VolCapBytes  BlockMetadataType   ByteOffset     SizeBytes"
    else "------- -------------- ----------------- -------------- --------------"
  }

  /** What is printed in front of the rows of a record. */
  function Header(recordNumber: int): string {
    if recordNumber == 1 then HeaderLine(1) + "\n" + HeaderLine(2) + "\n" else ""
  }

  // ----- printing

  /** BlockMetadataType.String(): the name of the enumerator, or its number. */
  function TypeName(kind: int32): string {
    if kind == 0 then "UNKNOWN"
    else if kind == 1 then "FIXED_LENGTH"
    else if kind == 2 then "VARIABLE_LENGTH"
    else Numeral(kind as int)
  }

  /** The effect of a width in a format verb: spaces on the left, never a cut. */
  function PadLeft(s: string, width: int): string
    decreases width - |s|
  {
    if width <= |s| then s else PadLeft(" " + s, width)
  }

  /** The columns of a row and their widths. */
  function Columns(r: Row): seq<(string, int)> {
    [ (Numeral(r.recordNumber), 7),
      (Numeral(r.volumeCapacityBytes as int), 14),
      (TypeName(r.blockMetadataType), 17),
      (Numeral(r.byteOffset as int), 14),
      (Numeral(r.sizeBytes as int), 14) ]
  }

  function PrintColumns(columns: seq<(string, int)>): string {
    if columns == [] then ""
    else if |columns| == 1 then PadLeft(columns[0].0, columns[0].1)
    else PadLeft(columns[0].0, columns[0].1) + " " + PrintColumns(columns[1..])
  }

  function Line(r: Row): string {
    PrintColumns(Columns(r))
  }

  function Unlines(lines: seq<string>): string {
    if lines == [] then "" else lines[0] + ("\n" + Unlines(lines[1..]))
  }

  function Lines(rows: seq<Row>): (lines: seq<string>)
    ensures |lines| == |rows|
  {
    seq(|rows|, i requires 0 <= i < |rows| => Line(rows[i]))
  }

  function PrintRows(rows: seq<Row>): string {
    Unlines(Lines(rows))
  }

  function RowOf(recordNumber: int, m: IteratorMetadata, b: BlockMetadata): Row {
    Row(recordNumber, m.volumeCapacityBytes, m.blockMetadataType, b.byteOffset, b.sizeBytes)
  }

  function RowsOf(recordNumber: int, m: IteratorMetadata): (rows: seq<Row>)
    ensures |rows| == |m.Blocks()|
  {
    seq(|m.Blocks()|, i requires 0 <= i < |m.Blocks()| => RowOf(recordNumber, m, m.Blocks()[i]))
  }

  /** The rows of records numbered 1, 2, ... */
  function AllRows(records: seq<IteratorMetadata>): (rows: seq<Row>)
    ensures |rows| == |Tuples(records)|
  {
    if records == [] then []
    else AllRows(records[..|records| - 1]) + RowsOf(|records|, records[|records| - 1])
  }

  /** The text of records numbered 1, 2, ... below a given header. */
  function TableBelow(header: string, records: seq<IteratorMetadata>): string {
    if records == [] then ""
    else
      TableBelow(header, records[..|records| - 1]) + ((if |records| == 1 then header else "") + PrintRows(RowsOf(|records|, records[|records| - 1])))
  }

  function Table(records: seq<IteratorMetadata>): string {
    TableBelow(Header(1), records)
  }

  /** The writes for rows: one each. */
  function RowPieces(rows: seq<Row>): (pieces: seq<string>)
    ensures |pieces| == |rows|
  {
    seq(|rows|, i requires 0 <= i < |rows| => Line(rows[i]) + "\n")
  }

  function Headed(first: bool, header: string, pieces: seq<string>): seq<string> {
    if first then [header] + pieces else pieces
  }

  /** The writes for a record: the header, once, and the rows. */
  function RecordPieces(recordNumber: int, m: IteratorMetadata): seq<string> {
    Headed(recordNumber == 1, Header(1), RowPieces(RowsOf(recordNumber, m)))
  }

  /** The writes for records numbered 1, 2, ... below a given header. */
  function PiecesBelow(header: string, records: seq<IteratorMetadata>): seq<string> {
    if records == [] then []
    else PiecesBelow(header, records[..|records| - 1]) + Headed(|records| == 1, header, RowPieces(RowsOf(|records|, records[|records| - 1])))
  }

  function Pieces(records: seq<IteratorMetadata>): seq<string> {
    PiecesBelow(Header(1), records)
  }

  class TableEmitter {
    const writer: Writer

    constructor (writer: Writer)
      ensures this.writer == writer
    {
      this.writer := writer;
    }

    /** One write for each tuple. */
    method WriteRows(recordNumber: nat, metadata: IteratorMetadata)
      modifies writer
      ensures writer.State() == PutAll(old(writer.State()), RowPieces(RowsOf(recordNumber, metadata)))
    {
      var blocks := metadata.Blocks();
      ghost var before, pieces := writer.State(), RowPieces(RowsOf(recordNumber, metadata));
      assert pieces[..0] == [];
      for k := 0 to |blocks|
        invariant writer.State() == PutAll(before, pieces[..k])
      {
        var row := Line(RowOf(recordNumber, metadata, blocks[k])) + "\n";
        assert row == pieces[k];
        PutAllNext(before, pieces, k);
        var n, ok := writer.Write(row);
      }
      assert pieces[..|blocks|] == pieces;
    }

    /** The errors of the writer are dropped. */
    method SnapshotMetadataIteratorRecord(recordNumber: nat, metadata: IteratorMetadata) returns (err: Option<Error>)
      modifies writer
      ensures err == None
      ensures writer.State() == PutAll(old(writer.State()), RecordPieces(recordNumber, metadata))
    {
      ghost var before := writer.State();
      var header := Header(1);
      if recordNumber == 1 {
        var n, ok := writer.Write(header);
      }
      WriteRows(recordNumber, metadata);
      PutHeaded(before, recordNumber == 1, header, RowPieces(RowsOf(recordNumber, metadata)));
      return None;
    }

    method SnapshotMetadataIteratorDone(numberRecords: nat) returns (err: Option<Error>)
      ensures err == None
    {
      return None;
    }
  }

  lemma {:induction false} UnlinesConcat(a: seq<string>, b: seq<string>)
    ensures Unlines(a + b) == Unlines(a) + Unlines(b)
  {
    if a == [] {
      assert a + b == b;
    } else {
      UnlinesConcat(a[1..], b);
      assert (a + b)[0] == a[0] && (a + b)[1..] == a[1..] + b;
      Append3(a[0], "\n", Unlines(a[1..]), Unlines(b));
    }
  }

  lemma LinesConcat(a: seq<Row>, b: seq<Row>)
    ensures Lines(a + b) == Lines(a) + Lines(b)
  {
    forall i | 0 <= i < |a + b| ensures Lines(a + b)[i] == (Lines(a) + Lines(b))[i] {
      assert (a + b)[i] == if i < |a| then a[i] else b[i - |a|];
    }
  }

  lemma PrintRowsConcat(a: seq<Row>, b: seq<Row>)
    ensures PrintRows(a + b) == PrintRows(a) + PrintRows(b)
  {
    LinesConcat(a, b);
    UnlinesConcat(Lines(a), Lines(b));
  }

  lemma {:induction false} FlatRows(rows: seq<Row>)
    ensures Flat(RowPieces(rows)) == PrintRows(rows)
  {
    if rows != [] {
      var init, last := rows[..|rows| - 1], rows[|rows| - 1];
      FlatRows(init);
      assert RowPieces(rows)[..|rows| - 1] == RowPieces(init);
      assert rows == init + [last];
      PrintRowsConcat(init, [last]);
      OneRow(last);
    }
  }

  lemma OneRow(row: Row)
    ensures PrintRows([row]) == Line(row) + "\n"
  {
    var line := Lines([row]);
    assert line == [Line(row)] && Unlines(line[1..]) == "";
    assert Unlines(line) == line[0] + "\n";
  }

  lemma PutHeaded(sink: Sink, first: bool, header: string, pieces: seq<string>)
    ensures PutAll(sink, Headed(first, header, pieces)) == PutAll(if first then sink.Put(header) else sink, pieces)
  {
    if first {
      PutAllConcat(sink, [header], pieces);
      assert [header][..0] == [];
    }
  }

  lemma FlatHeaded(first: bool, header: string, pieces: seq<string>)
    ensures Flat(Headed(first, header, pieces)) == (if first then header else "") + Flat(pieces)
  {
    if first {
      FlatConcat([header], pieces);
      assert [header][..0] == [] && "" + header == header;
    }
  }

  /** The text of all the writes is the table. */
  lemma {:induction false} FlatPiecesBelow(header: string, records: seq<IteratorMetadata>)
    ensures Flat(PiecesBelow(header, records)) == TableBelow(header, records)
  {
    if records != [] {
      var init, last := records[..|records| - 1], records[|records| - 1];
      var rows := RowsOf(|records|, last);
      FlatPiecesBelow(header, init);
      FlatRows(rows);
      FlatHeaded(|records| == 1, header, RowPieces(rows));
      FlatConcat(PiecesBelow(header, init), Headed(|records| == 1, header, RowPieces(rows)));
    }
  }

  lemma FlatPieces(records: seq<IteratorMetadata>)
    ensures Flat(Pieces(records)) == Table(records)
  {
    FlatPiecesBelow(Header(1), records);
  }

  // ----- reading

  /** The number of characters before the first occurrence of stop. */
  function LengthUpTo(s: string, stop: char): (k: nat)
    ensures k <= |s| && (k < |s| ==> s[k] == stop)
    ensures forall i :: 0 <= i < k ==> s[i] != stop
  {
    if s == [] || s[0] == stop then 0 else 1 + LengthUpTo(s[1..], stop)
  }

  /** The maximal space-free pieces of a line. */
  function Fields(line: string): seq<string>
    decreases |line|
  {
    if line == [] then []
    else if line[0] == ' ' then Fields(line[1..])
    else
      var k := LengthUpTo(line, ' ');
      [line[..k]] + Fields(line[k..])
  }

  function ReadType(field: string): Option<int32> {
    if field == "UNKNOWN" then Some(0)
    else if field == "FIXED_LENGTH" then Some(1)
    else if field == "VARIABLE_LENGTH" then Some(2)
    else
      match ReadWholeInt(field, -0x8000_0000, 0x8000_0000)
      case None => None
      case Some(n) => if -0x8000_0000 <= n < 0x8000_0000 then Some(n as int32) else None
  }

  function ReadRow(line: string): Option<Row> {
    var fields := Fields(line);
    if |fields| != 5 then None
    else
      match (ReadInt(fields[0]), ReadInt64(fields[1]), ReadType(fields[2]), ReadInt64(fields[3]), ReadInt64(fields[4]))
      case (Some((n, rest)), Some(capacity), Some(kind), Some(offset), Some(size)) =>
        if rest == [] then Some(Row(n, capacity, kind, offset, size)) else None
      case _ => None
  }

  function ReadRows(text: string): Option<seq<Row>>
    decreases |text|
  {
    if text == [] then Some([])
    else
      var k := LengthUpTo(text, '\n');
      if k == |text| then None
      else
        match (ReadRow(text[..k]), ReadRows(text[k + 1..]))
        case (Some(r), Some(rs)) => Some([r] + rs)
        case _ => None
  }

  /** Reads a whole table: nothing at all, or the header and then only rows. */
  function ReadTable(text: string): Option<seq<Row>> {
    if text == [] then Some([])
    else if Header(1) <= text then ReadRows(text[|Header(1)|..])
    else None
  }

  // ----- the round trip

  predicate Solid(s: string) {
    s != [] && forall i :: 0 <= i < |s| ==> s[i] != ' ' && s[i] != '\n'
  }

  lemma {:induction false} LengthUpToOf(s: string, rest: string, stop: char)
    requires forall i :: 0 <= i < |s| ==> s[i] != stop
    requires rest == [] || rest[0] == stop
    ensures LengthUpTo(s + rest, stop) == |s|
  {
    if s == [] {
      assert s + rest == rest;
    } else {
      LengthUpToOf(s[1..], rest, stop);
      assert (s + rest)[1..] == s[1..] + rest;
    }
  }

  lemma {:induction false} PaddedField(s: string, width: int, rest: string)
    requires s != [] && forall i :: 0 <= i < |s| ==> s[i] != '\n'
    ensures Fields(PadLeft(s, width) + rest) == Fields(s + rest)
    ensures PadLeft(s, width) != [] && forall i :: 0 <= i < |PadLeft(s, width)| ==> PadLeft(s, width)[i] != '\n'
    decreases width - |s|
  {
    if |s| < width {
      PaddedField(" " + s, width, rest);
      assert (" " + s + rest)[1..] == s + rest;
    }
  }

  lemma FieldsOf(s: string, rest: string)
    requires Solid(s) && (rest == [] || rest[0] == ' ')
    ensures Fields(s + rest) == [s] + Fields(rest)
  {
    LengthUpToOf(s, rest, ' ');
    assert (s + rest)[..|s|] == s && (s + rest)[|s|..] == rest;
  }

  function Texts(columns: seq<(string, int)>): seq<string> {
    seq(|columns|, i requires 0 <= i < |columns| => columns[i].0)
  }

  lemma {:induction false} ColumnsInOneLine(columns: seq<(string, int)>)
    requires forall i :: 0 <= i < |columns| ==> Solid(columns[i].0)
    ensures forall i :: 0 <= i < |PrintColumns(columns)| ==> PrintColumns(columns)[i] != '\n'
  {
    if columns != [] {
      PaddedField(columns[0].0, columns[0].1, "");
      ColumnsInOneLine(columns[1..]);
    }
  }

  lemma PaddedFields(s: string, width: int, rest: string)
    requires Solid(s) && (rest == [] || rest[0] == ' ')
    ensures Fields(PadLeft(s, width) + rest) == [s] + Fields(rest)
  {
    PaddedField(s, width, rest);
    FieldsOf(s, rest);
  }

  lemma BlankSkipped(rest: string)
    ensures Fields([' '] + rest) == Fields(rest)
  {
    assert ([' '] + rest)[1..] == rest;
  }

  lemma FieldsCons(columns: seq<(string, int)>)
    requires columns != [] && Solid(columns[0].0)
    ensures Fields(PrintColumns(columns)) == [columns[0].0] + if |columns| == 1 then [] else Fields(PrintColumns(columns[1..]))
  {
    var s, width := columns[0].0, columns[0].1;
    if |columns| == 1 {
      PaddedFields(s, width, []);
      assert PadLeft(s, width) + [] == PadLeft(s, width);
    } else {
      var rest := PrintColumns(columns[1..]);
      PaddedFields(s, width, [' '] + rest);
      BlankSkipped(rest);
      Append2(PadLeft(s, width), [' '], rest);
    }
  }

  /** Splitting a printed line gives back its columns, however wide they are. */
  lemma {:induction false} FieldsOfColumns(columns: seq<(string, int)>)
    requires forall i :: 0 <= i < |columns| ==> Solid(columns[i].0)
    ensures Fields(PrintColumns(columns)) == Texts(columns)
  {
    if columns != [] {
      FieldsCons(columns);
      FieldsOfColumns(columns[1..]);
      assert Texts(columns) == [columns[0].0] + Texts(columns[1..]);
    }
  }

  lemma SolidNumeral(n: int)
    ensures Solid(Numeral(n))
  {
    forall i | 0 <= i < |Numeral(n)| ensures Numeral(n)[i] != ' ' && Numeral(n)[i] != '\n' {
      NumeralChars(n, i);
    }
  }

  lemma NamesAreSolid()
    ensures Solid("UNKNOWN") && Solid("FIXED_LENGTH") && Solid("VARIABLE_LENGTH")
  {
  }

  /** The numeral of another type is none of the names. */
  lemma NumeralIsNoName(n: int)
    ensures Numeral(n) != "UNKNOWN" && Numeral(n) != "FIXED_LENGTH" && Numeral(n) != "VARIABLE_LENGTH"
  {
    NumeralChars(n, 0);
    assert "UNKNOWN"[0] == 'U' && "FIXED_LENGTH"[0] == 'F' && "VARIABLE_LENGTH"[0] == 'V';
  }

  lemma SolidType(kind: int32)
    ensures Solid(TypeName(kind))
  {
    NamesAreSolid();
    SolidNumeral(kind as int);
  }

  /** The name or number of a type determines it. */
  lemma TypeReads(kind: int32)
    ensures ReadType(TypeName(kind)) == Some(kind)
  {
    assert |"UNKNOWN"| == 7 && |"FIXED_LENGTH"| == 12 && |"VARIABLE_LENGTH"| == 15;
    NumeralReadsWhole(kind as int);
    NumeralIsNoName(kind as int);
  }

  lemma ColumnsAreSolid(r: Row)
    ensures forall i :: 0 <= i < |Columns(r)| ==> Solid(Columns(r)[i].0)
  {
    SolidNumeral(r.recordNumber);
    SolidNumeral(r.volumeCapacityBytes as int);
    SolidType(r.blockMetadataType);
    SolidNumeral(r.byteOffset as int);
    SolidNumeral(r.sizeBytes as int);
  }

  lemma LineFields(r: Row)
    ensures Fields(Line(r)) ==
              [Numeral(r.recordNumber), Numeral(r.volumeCapacityBytes as int), TypeName(r.blockMetadataType),
               Numeral(r.byteOffset as int), Numeral(r.sizeBytes as int)]
    ensures forall i :: 0 <= i < |Line(r)| ==> Line(r)[i] != '\n'
  {
    ColumnsAreSolid(r);
    FieldsOfColumns(Columns(r));
    ColumnsInOneLine(Columns(r));
  }

  lemma Int64Field(n: int64)
    ensures ReadInt64(Numeral(n as int)) == Some(n)
  {
    NumeralReadsWhole(n as int);
  }

  lemma RowReads(r: Row)
    ensures ReadRow(Line(r)) == Some(r)
    ensures forall i :: 0 <= i < |Line(r)| ==> Line(r)[i] != '\n'
  {
    LineFields(r);
    NumeralReadsWhole(r.recordNumber);
    Int64Field(r.volumeCapacityBytes);
    TypeReads(r.blockMetadataType);
    Int64Field(r.byteOffset);
    Int64Field(r.sizeBytes);
  }

  lemma {:induction false} LinesRead(lines: seq<string>, rows: seq<Row>)
    requires |lines| == |rows|
    requires forall i :: 0 <= i < |rows| ==> ReadRow(lines[i]) == Some(rows[i])
    requires forall i, j :: 0 <= i < |lines| && 0 <= j < |lines[i]| ==> lines[i][j] != '\n'
    ensures ReadRows(Unlines(lines)) == Some(rows)
  {
    if rows != [] {
      var line, rest := lines[0], Unlines(lines[1..]);
      LengthUpToOf(line, "\n" + rest, '\n');
      var text := line + ("\n" + rest);
      assert text[..|line|] == line && text[|line| + 1..] == rest;
      LinesRead(lines[1..], rows[1..]);
      assert [rows[0]] + rows[1..] == rows;
    }
  }

  lemma RowsRead(rows: seq<Row>)
    ensures ReadRows(PrintRows(rows)) == Some(rows)
  {
    var lines := Lines(rows);
    forall i | 0 <= i < |rows|
      ensures ReadRow(lines[i]) == Some(rows[i]) && forall j :: 0 <= j < |lines[i]| ==> lines[i][j] != '\n'
    {
      RowReads(rows[i]);
    }
    LinesRead(lines, rows);
  }

  lemma {:induction false} TableIsHeaderAndRows(header: string, records: seq<IteratorMetadata>)
    requires records != []
    ensures TableBelow(header, records) == header + PrintRows(AllRows(records))
  {
    var init, last := records[..|records| - 1], records[|records| - 1];
    PrintRowsConcat(AllRows(init), RowsOf(|records|, last));
    var rows := PrintRows(RowsOf(|records|, last));
    if init == [] {
      assert AllRows(init) == [] && "" + (header + rows) == header + ("" + rows);
    } else {
      TableIsHeaderAndRows(header, init);
      assert "" + rows == rows;
      Append2(header, PrintRows(AllRows(init)), rows);
    }
  }

  // ----- the text in full

  lemma {:induction false} RowsTotal(records: seq<IteratorMetadata>, i: nat)
    requires i <= |records|
    ensures AllRows(records[..i]) <= AllRows(records)
  {
    if i == |records| {
      assert records[..i] == records;
    } else {
      var init := records[..|records| - 1];
      RowsTotal(init, i);
      assert init[..i] == records[..i];
    }
  }

  lemma RowOfLast(records: seq<IteratorMetadata>, k: nat)
    requires records != [] && k < |records[|records| - 1].Blocks()|
    ensures
      var i := |records| - 1;
      var place := |Tuples(records[..i])| + k;
      && place < |AllRows(records)|
      && AllRows(records)[place] == RowOf(|records|, records[i], records[i].Blocks()[k])
  {
    var i := |records| - 1;
    AtEnd(AllRows(records[..i]), RowsOf(|records|, records[i]), k);
  }

  /** The row of tuple k of record i stands after those of the tuples before it, and
      says what they are, the records numbered from 1. */
  lemma RowOfTuple(records: seq<IteratorMetadata>, i: nat, k: nat)
    requires i < |records| && k < |records[i].Blocks()|
    ensures
      var place, b := |Tuples(records[..i])| + k, records[i].Blocks()[k];
      && place < |AllRows(records)|
      && AllRows(records)[place] ==
           Row(recordNumber := i + 1, volumeCapacityBytes := records[i].volumeCapacityBytes, blockMetadataType := records[i].blockMetadataType,
               byteOffset := b.byteOffset, sizeBytes := b.sizeBytes)
  {
    var upTo := records[..i + 1];
    RowsTotal(records, i + 1);
    assert upTo[..i] == records[..i] && upTo[i] == records[i];
    RowOfLast(upTo, k);
    var place := |Tuples(records[..i])| + k;
    assert AllRows(records)[place] == AllRows(upTo)[place];
  }

  /** A text ends at a position of the line, with spaces in front of it from another. */
  ghost predicate AlignedAt(line: string, from: nat, to: nat, text: string) {
    && from + |text| <= to <= |line|
    && (forall i {:trigger text[i]} :: 0 <= i < |text| ==> line[to - |text| + i] == text[i])
    && forall i {:trigger line[i]} :: from <= i < to - |text| ==> line[i] == ' '
  }

  lemma BlankInFront(line: string, to: nat, s: string)
    requires AlignedAt(line, 0, to, [' '] + s)
    ensures AlignedAt(line, 0, to, s)
  {
    var blank := to - |s| - 1;
    assert line[blank + 0] == ([' '] + s)[0];
    forall i | 0 <= i < |s| ensures line[to - |s| + i] == s[i] {
      assert ([' '] + s)[1 + i] == s[i];
    }
  }

  lemma {:induction false} PadLeftShape(s: string, width: int)
    ensures |PadLeft(s, width)| == Max(|s|, width) && AlignedAt(PadLeft(s, width), 0, |PadLeft(s, width)|, s)
    decreases width - |s|
  {
    if |s| < width {
      PadLeftShape([' '] + s, width);
      BlankInFront(PadLeft([' '] + s, width), width, s);
    }
  }

  lemma AlignedBefore(line: string, after: string, from: nat, to: nat, text: string)
    requires AlignedAt(line, from, to, text)
    ensures AlignedAt(line + after, from, to, text)
  {
    var whole := line + after;
    assert forall i {:trigger whole[i]} :: 0 <= i < |line| ==> whole[i] == line[i];
  }

  lemma AlignedAfter(before: string, line: string, from: nat, to: nat, text: string)
    requires AlignedAt(line, from, to, text)
    ensures AlignedAt(before + line, |before| + from, |before| + to, text)
  {
    var whole := before + line;
    assert forall i {:trigger whole[i]} :: |before| <= i < |whole| ==> whole[i] == line[i - |before|];
  }

  function LineWidth(columns: seq<(string, int)>): int {
    if columns == [] then 0
    else if |columns| == 1 then columns[0].1
    else columns[0].1 + 1 + LineWidth(columns[1..])
  }

  function ColumnStart(columns: seq<(string, int)>, k: nat): int
    requires k < |columns|
  {
    if k == 0 then 0 else columns[0].1 + 1 + ColumnStart(columns[1..], k - 1)
  }

  lemma FirstAligned(columns: seq<(string, int)>)
    requires columns != [] && |columns[0].0| <= columns[0].1
    ensures AlignedAt(PrintColumns(columns), 0, columns[0].1, columns[0].0)
  {
    var text, width := columns[0].0, columns[0].1;
    PadLeftShape(text, width);
    if |columns| > 1 {
      AlignedBefore(PadLeft(text, width), " ", 0, width, text);
      AlignedBefore(PadLeft(text, width) + " ", PrintColumns(columns[1..]), 0, width, text);
    }
  }

  lemma NextAligned(columns: seq<(string, int)>, from: nat, to: nat, text: string)
    requires |columns| > 1 && |columns[0].0| <= columns[0].1 && AlignedAt(PrintColumns(columns[1..]), from, to, text)
    ensures |PrintColumns(columns)| == columns[0].1 + 1 + |PrintColumns(columns[1..])|
    ensures AlignedAt(PrintColumns(columns), columns[0].1 + 1 + from, columns[0].1 + 1 + to, text)
  {
    PadLeftShape(columns[0].0, columns[0].1);
    AlignedAfter(PadLeft(columns[0].0, columns[0].1) + " ", PrintColumns(columns[1..]), from, to, text);
  }

  lemma {:induction false} LineLength(columns: seq<(string, int)>)
    requires forall i :: 0 <= i < |columns| ==> |columns[i].0| <= columns[i].1
    ensures |PrintColumns(columns)| == LineWidth(columns)
  {
    if columns != [] {
      LineLength(columns[1..]);
      PadLeftShape(columns[0].0, columns[0].1);
    }
  }

  /** Texts that are no wider than their columns end at the ends of these. */
  lemma {:induction false} ColumnsAligned(columns: seq<(string, int)>, k: nat, column: (string, int))
    requires k < |columns| && column == columns[k] && forall i :: 0 <= i < |columns| ==> |columns[i].0| <= columns[i].1
    ensures 0 <= ColumnStart(columns, k)
    ensures AlignedAt(PrintColumns(columns), ColumnStart(columns, k), ColumnStart(columns, k) + column.1, column.0)
  {
    if k == 0 {
      FirstAligned(columns);
    } else {
      var rest := columns[1..];
      ColumnsAligned(rest, k - 1, column);
      var start := ColumnStart(rest, k - 1);
      NextAligned(columns, start, start + column.1, column.0);
    }
  }

  lemma ColumnAligned(columns: seq<(string, int)>, k: nat, column: (string, int), from: nat, to: nat)
    requires k < |columns| && column == columns[k] && forall i :: 0 <= i < |columns| ==> |columns[i].0| <= columns[i].1
    requires from == ColumnStart(columns, k) && to == from + column.1
    ensures AlignedAt(PrintColumns(columns), from, to, column.0)
  {
    ColumnsAligned(columns, k, column);
  }

  lemma TwoColumns(d: (string, int), e: (string, int))
    ensures LineWidth([d, e]) == d.1 + e.1 + 1 && ColumnStart([d, e], 0) == 0 && ColumnStart([d, e], 1) == d.1 + 1
  {
    assert [d, e][1..] == [e];
  }

  lemma FiveColumns(a: (string, int), b: (string, int), c: (string, int), d: (string, int), e: (string, int))
    ensures LineWidth([a, b, c, d, e]) == a.1 + b.1 + c.1 + d.1 + e.1 + 4
    ensures ColumnStart([a, b, c, d, e], 0) == 0
    ensures ColumnStart([a, b, c, d, e], 1) == a.1 + 1
    ensures ColumnStart([a, b, c, d, e], 2) == a.1 + b.1 + 2
    ensures ColumnStart([a, b, c, d, e], 3) == a.1 + b.1 + c.1 + 3
    ensures ColumnStart([a, b, c, d, e], 4) == a.1 + b.1 + c.1 + d.1 + 4
  {
    TwoColumns(d, e);
    assert [c, d, e][1..] == [d, e];
    assert LineWidth([c, d, e]) == c.1 + 1 + LineWidth([d, e]);
    assert ColumnStart([c, d, e], 1) == c.1 + 1 && ColumnStart([c, d, e], 2) == c.1 + 1 + ColumnStart([d, e], 1);
    assert [b, c, d, e][1..] == [c, d, e];
    assert LineWidth([b, c, d, e]) == b.1 + 1 + LineWidth([c, d, e]);
    assert ColumnStart([b, c, d, e], 1) == b.1 + 1 && ColumnStart([b, c, d, e], 2) == b.1 + 1 + ColumnStart([c, d, e], 1);
    assert ColumnStart([b, c, d, e], 3) == b.1 + 1 + ColumnStart([c, d, e], 2);
    assert [a, b, c, d, e][1..] == [b, c, d, e];
  }

  /** Five texts that fit columns of these widths end at positions 7, 22, 40, 55 and
      70 of the line. */
  lemma FiveAligned(a: string, b: string, c: string, d: string, e: string, columns: seq<(string, int)>)
    requires columns == [(a, 7), (b, 14), (c, 17), (d, 14), (e, 14)]
    requires |a| <= 7 && |b| <= 14 && |c| <= 17 && |d| <= 14 && |e| <= 14
    ensures |PrintColumns(columns)| == 70
    ensures AlignedAt(PrintColumns(columns), 0, 7, a) && AlignedAt(PrintColumns(columns), 8, 22, b)
    ensures AlignedAt(PrintColumns(columns), 23, 40, c) && AlignedAt(PrintColumns(columns), 41, 55, d)
    ensures AlignedAt(PrintColumns(columns), 56, 70, e)
  {
    FiveColumns((a, 7), (b, 14), (c, 17), (d, 14), (e, 14));
    LineLength(columns);
    ColumnAligned(columns, 0, (a, 7), 0, 7);
    ColumnAligned(columns, 1, (b, 14), 8, 22);
    ColumnAligned(columns, 2, (c, 17), 23, 40);
    ColumnAligned(columns, 3, (d, 14), 41, 55);
    ColumnAligned(columns, 4, (e, 14), 56, 70);
  }

  /** A row whose values are no wider than their columns has them in the order of
      the header, each at the right end of its column. */
  lemma RowAligned(r: Row)
    requires |Numeral(r.recordNumber)| <= 7 && |Numeral(r.volumeCapacityBytes as int)| <= 14 && |TypeName(r.blockMetadataType)| <= 17
    requires |Numeral(r.byteOffset as int)| <= 14 && |Numeral(r.sizeBytes as int)| <= 14
    ensures |Line(r)| == 70
    ensures AlignedAt(Line(r), 0, 7, Numeral(r.recordNumber)) && AlignedAt(Line(r), 8, 22, Numeral(r.volumeCapacityBytes as int))
    ensures AlignedAt(Line(r), 23, 40, TypeName(r.blockMetadataType))
    ensures AlignedAt(Line(r), 41, 55, Numeral(r.byteOffset as int)) && AlignedAt(Line(r), 56, 70, Numeral(r.sizeBytes as int))
  {
    FiveAligned(Numeral(r.recordNumber), Numeral(r.volumeCapacityBytes as int), TypeName(r.blockMetadataType),
                Numeral(r.byteOffset as int), Numeral(r.sizeBytes as int), Columns(r));
  }

  /** The type is printed by name, or by number if it has none. */
  lemma TypeText(kind: int32)
    ensures kind !in {0, 1, 2} ==> TypeName(kind) == Numeral(kind as int)
    ensures TypeName(0) == "UNKNOWN" && TypeName(1) == "FIXED_LENGTH" && TypeName(2) == "VARIABLE_LENGTH"
  {
  }

  /** The text begins with the two lines of the header, and goes on with one line for
      each row; without a record there is none. */
  lemma TableText(records: seq<IteratorMetadata>)
    ensures records == [] ==> Table(records) == ""
    ensures records != [] ==>
              Table(records) == "Record#   VolCapBytes  BlockMetadataType   ByteOffset     SizeBytes" + "\n"
                + "------- -------------- ----------------- -------------- --------------" + "\n" + PrintRows(AllRows(records))
  {
    if records != [] {
      TableIsHeaderAndRows(Header(1), records);
    }
  }

  /** One header, in front, and one line per tuple, from which every number and
      every type is recovered even where a value is wider than its column. */
  lemma TableReads(records: seq<IteratorMetadata>)
    ensures ReadTable(Table(records)) == Some(AllRows(records))
  {
    if records != [] {
      TableIsHeaderAndRows(Header(1), records);
      RowsRead(AllRows(records));
      assert Table(records)[|Header(1)|..] == PrintRows(AllRows(records));
    }
  }
}
