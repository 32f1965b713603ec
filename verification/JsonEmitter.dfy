/** The emitter that prints the records as one JSON array, and a reader that
    recovers them. */
module JsonEmitters {
  import opened Base
  import opened Metadata
  import opened Decimal
  import opened Json
  import opened Writers

  // ----- records as JSON values

  function EncodeBlock(b: BlockMetadata): Value {
    Object(
      (if b.byteOffset == 0 then [] else [Member("byte_offset", Number(b.byteOffset as int))]) +
      (if b.sizeBytes == 0 then [] else [Member("size_bytes", Number(b.sizeBytes as int))]))
  }

  function EncodeBlocks(blocks: seq<BlockMetadata>): (items: seq<Value>)
    ensures |items| == |blocks|
  {
    seq(|blocks|, i requires 0 <= i < |blocks| => EncodeBlock(blocks[i]))
  }

  /** The field tags of IteratorMetadata; a nil slice is null. */
  function Encode(m: IteratorMetadata): Value {
    Object([
      Member("block_metadata_type", Number(m.blockMetadataType as int)),
      Member("volume_capacity_bytes", Number(m.volumeCapacityBytes as int)),
      Member("block_metadata", match m.blockMetadata case None => Null case Some(blocks) => Array(EncodeBlocks(blocks)))
    ])
  }

  function EncodeAll(records: seq<IteratorMetadata>): (items: seq<Value>)
    ensures |items| == |records|
  {
    seq(|records|, i requires 0 <= i < |records| => Encode(records[i]))
  }

  // ----- and back

  function Lookup(members: seq<Member>, name: string): Option<Value> {
    if members == [] then None
    else if members[0].name == name then Some(members[0].value)
    else Lookup(members[1..], name)
  }

  /** An absent member is zero; a present one must be an integer in range. */
  function IntField(v: Value, name: string, low: int, high: int): Option<int>
    requires low <= 0 < high
  {
    if !v.Object? then None
    else
      match Lookup(v.members, name)
      case None => Some(0)
      case Some(Number(n)) => if low <= n < high then Some(n) else None
      case Some(_) => None
  }

  function Int64Field(v: Value, name: string): Option<int64> {
    match IntField(v, name, -0x8000_0000_0000_0000, 0x8000_0000_0000_0000)
    case None => None
    case Some(n) =>
      if -0x8000_0000_0000_0000 <= n < 0x8000_0000_0000_0000 then Some(n as int64) else None
  }

  function Int32Field(v: Value, name: string): Option<int32> {
    match IntField(v, name, -0x8000_0000, 0x8000_0000)
    case None => None
    case Some(n) => if -0x8000_0000 <= n < 0x8000_0000 then Some(n as int32) else None
  }

  function DecodeBlock(v: Value): Option<BlockMetadata> {
    match (Int64Field(v, "byte_offset"), Int64Field(v, "size_bytes"))
    case (Some(byteOffset), Some(sizeBytes)) => Some(BlockMetadata(byteOffset, sizeBytes))
    case _ => None
  }

  function DecodeBlocks(items: seq<Value>): Option<seq<BlockMetadata>> {
    if items == [] then Some([])
    else
      match (DecodeBlock(items[0]), DecodeBlocks(items[1..]))
      case (Some(b), Some(bs)) => Some([b] + bs)
      case _ => None
  }

  function DecodeSlice(v: Option<Value>): Option<Option<seq<BlockMetadata>>> {
    match v
    case None => Some(None)
    case Some(Null) => Some(None)
    case Some(Array(items)) => (match DecodeBlocks(items) case None => None case Some(blocks) => Some(Some(blocks)))
    case Some(_) => None
  }

  function Decode(v: Value): Option<IteratorMetadata> {
    match (Int32Field(v, "block_metadata_type"), Int64Field(v, "volume_capacity_bytes"),
           if v.Object? then DecodeSlice(Lookup(v.members, "block_metadata")) else None)
    case (Some(kind), Some(capacity), Some(blocks)) => Some(IteratorMetadata(kind, capacity, blocks))
    case _ => None
  }

  function DecodeAll(items: seq<Value>): Option<seq<IteratorMetadata>> {
    if items == [] then Some([])
    else
      match (Decode(items[0]), DecodeAll(items[1..]))
      case (Some(m), Some(ms)) => Some([m] + ms)
      case _ => None
  }

  /** Reads a whole document: one array of records and nothing else. */
  function ReadRecords(text: string): Option<seq<IteratorMetadata>> {
    match ParseValue(text)
    case Some((Array(items), rest)) => if rest == [] then DecodeAll(items) else None
    case _ => None
  }

  // ----- the printer

  class JSONEmitter {
    const writer: Writer
    var listNotEmpty: bool

    constructor (writer: Writer)
      ensures this.writer == writer && !listNotEmpty
    {
      this.writer, listNotEmpty := writer, false;
    }

    /** The error of the writer is dropped. */
    method SnapshotMetadataIteratorRecord(recordNumber: nat, metadata: IteratorMetadata) returns (err: Option<Error>)
      modifies this, writer
      ensures err == None
      ensures writer.State() == old(writer.State()).Put(Piece(recordNumber == 1, metadata))
      ensures listNotEmpty == (old(listNotEmpty) || recordNumber == 1)
    {
      var prefix := ",";
      if recordNumber == 1 {
        prefix := "[";
        listNotEmpty := true;
      }
      var b := Print(Encode(metadata), "") + "\n";
      var n, ok := writer.Write(prefix + TrimSuffix(b, '\n'));
      return None;
    }

    method SnapshotMetadataIteratorDone(numberRecords: nat) returns (err: Option<Error>)
      modifies writer
      ensures err == None
      ensures writer.State() == old(writer.State()).Put(Closing(listNotEmpty))
    {
      var n, ok;
      if listNotEmpty {
        n, ok := writer.Write("]");
      } else {
        n, ok := writer.Write("[]");
      }
      return None;
    }
  }

  function TrimSuffix(s: string, c: char): string {
    if s != [] && s[|s| - 1] == c then s[..|s| - 1] else s
  }

  /** What is written for a record, the first one or another. */
  function Piece(first: bool, m: IteratorMetadata): string {
    (if first then "[" else ",") + Print(Encode(m), "")
  }

  /** What is written at the end. */
  function Closing(listNotEmpty: bool): string {
    if listNotEmpty then "]" else "[]"
  }

  /** The writes for records numbered 1, 2, ..., before the end of the list. */
  function RecordPieces(records: seq<IteratorMetadata>): (pieces: seq<string>)
    ensures |pieces| == |records|
  {
    seq(|records|, i requires 0 <= i < |records| => Piece(i == 0, records[i]))
  }

  function Pieces(records: seq<IteratorMetadata>): seq<string> {
    RecordPieces(records) + [Closing(records != [])]
  }

  /** Their text. */
  function Printed(records: seq<IteratorMetadata>): string {
    if records == [] then ""
    else
      Printed(records[..|records| - 1]) + Piece(|records| == 1, records[|records| - 1])
  }

  function Document(records: seq<IteratorMetadata>): string {
    Printed(records) + Closing(records != [])
  }

  lemma {:induction false} FlatRecordPieces(records: seq<IteratorMetadata>)
    ensures Flat(RecordPieces(records)) == Printed(records)
  {
    if records != [] {
      var init := records[..|records| - 1];
      FlatRecordPieces(init);
      assert RecordPieces(records)[..|records| - 1] == RecordPieces(init);
    }
  }

  lemma FlatPieces(records: seq<IteratorMetadata>)
    ensures Flat(Pieces(records)) == Document(records)
  {
    FlatRecordPieces(records);
    assert Pieces(records)[..|records|] == RecordPieces(records);
  }

  // ----- the incremental output is the text of one array

  lemma ScalarAppends(v: Value, rest: string)
    requires v.Null? || v.Number?
    ensures Print(v, rest) == Print(v, "") + rest
  {
    var text := if v.Null? then "null" else Numeral(v.n);
    assert Print(v, rest) == text + rest && Print(v, "") == text;
  }

  lemma {:induction false} PrintAppends(v: Value, rest: string)
    ensures Print(v, rest) == Print(v, "") + rest
    decreases v, 0
  {
    if v.Array? {
      PrintItemsAppends(v.items, "]" + rest);
      PrintItemsAppends(v.items, "]");
      Append3("[", PrintItems(v.items, ""), "]", rest);
      assert "]" + "" == "]";
    } else if v.Object? {
      PrintMembersAppends(v.members, "}" + rest);
      PrintMembersAppends(v.members, "}");
      Append3("{", PrintMembers(v.members, ""), "}", rest);
      assert "}" + "" == "}";
    } else {
      ScalarAppends(v, rest);
    }
  }

  lemma {:induction false} PrintItemsAppends(items: seq<Value>, rest: string)
    ensures PrintItems(items, rest) == PrintItems(items, "") + rest
    decreases items, 1
  {
    if |items| == 1 {
      PrintAppends(items[0], rest);
    } else if items != [] {
      PrintItemsAppends(items[1..], rest);
      PrintAppends(items[0], "," + PrintItems(items[1..], rest));
      PrintAppends(items[0], "," + PrintItems(items[1..], ""));
    }
  }

  lemma {:induction false} PrintMemberAppends(m: Member, rest: string)
    ensures PrintMember(m, rest) == PrintMember(m, "") + rest
    decreases m, 1
  {
    PrintAppends(m.value, rest);
  }

  lemma {:induction false} PrintMembersAppends(members: seq<Member>, rest: string)
    ensures PrintMembers(members, rest) == PrintMembers(members, "") + rest
    decreases members, 2
  {
    if |members| == 1 {
      PrintMemberAppends(members[0], rest);
    } else if members != [] {
      PrintMembersAppends(members[1..], rest);
      PrintMemberAppends(members[0], "," + PrintMembers(members[1..], rest));
      PrintMemberAppends(members[0], "," + PrintMembers(members[1..], ""));
    }
  }

  lemma {:induction false} PrintItemsSnoc(items: seq<Value>, last: Value, rest: string)
    requires items != []
    ensures PrintItems(items + [last], rest) == PrintItems(items, "," + Print(last, rest))
  {
    assert (items + [last])[1..] == items[1..] + [last];
    if |items| == 1 {
      assert items[1..] + [last] == [last];
    } else {
      PrintItemsSnoc(items[1..], last, rest);
    }
  }

  lemma PrintedStep(head: string, items: seq<Value>, last: Value)
    requires items != [] && head == "[" + PrintItems(items, "")
    ensures head + ("," + Print(last, "")) == "[" + PrintItems(items + [last], "")
  {
    var next := "," + Print(last, "");
    PrintItemsAppends(items, next);
    PrintItemsSnoc(items, last, "");
    Append2("[", PrintItems(items, ""), next);
  }

  lemma {:induction false} PrintedIsArray(records: seq<IteratorMetadata>)
    requires records != []
    ensures Printed(records) == "[" + PrintItems(EncodeAll(records), "")
  {
    var init, last := records[..|records| - 1], Encode(records[|records| - 1]);
    assert EncodeAll(records) == EncodeAll(init) + [last];
    if init == [] {
      assert EncodeAll(records) == [last];
      assert "" + ("[" + Print(last, "")) == "[" + Print(last, "");
    } else {
      PrintedIsArray(init);
      PrintedStep(Printed(init), EncodeAll(init), last);
    }
  }

  // ----- the text in full

  /** A name in quotation marks, a colon, and the text of the value. */
  function Field(name: string, text: string): string {
    "\"" + (name + ("\":" + text))
  }

  /** Braces around fields, with commas between them. */
  function Braced(fields: seq<string>): string {
    "{" + Joined(fields) + "}"
  }

  function BlockText(b: BlockMetadata): string {
    Braced((if b.byteOffset == 0 then [] else [Field("byte_offset", Numeral(b.byteOffset as int))]) +
           (if b.sizeBytes == 0 then [] else [Field("size_bytes", Numeral(b.sizeBytes as int))]))
  }

  function BlockTexts(blocks: seq<BlockMetadata>): (texts: seq<string>)
    ensures |texts| == |blocks|
  {
    seq(|blocks|, i requires 0 <= i < |blocks| => BlockText(blocks[i]))
  }

  function ListText(list: Option<seq<BlockMetadata>>): string {
    match list
    case None => "null"
    case Some(blocks) => "[" + Joined(BlockTexts(blocks)) + "]"
  }

  function RecordText(m: IteratorMetadata): string {
    Braced([Field("block_metadata_type", Numeral(m.blockMetadataType as int)),
            Field("volume_capacity_bytes", Numeral(m.volumeCapacityBytes as int)),
            Field("block_metadata", ListText(m.blockMetadata))])
  }

  function RecordTexts(records: seq<IteratorMetadata>): (texts: seq<string>)
    ensures |texts| == |records|
  {
    seq(|records|, i requires 0 <= i < |records| => RecordText(records[i]))
  }

  lemma {:induction false} ItemsText(items: seq<Value>, texts: seq<string>)
    requires |items| == |texts| && forall i :: 0 <= i < |items| ==> Print(items[i], "") == texts[i]
    ensures PrintItems(items, "") == Joined(texts)
  {
    if |items| > 1 {
      ItemsText(items[1..], texts[1..]);
      PrintAppends(items[0], "," + PrintItems(items[1..], ""));
    }
  }

  lemma ArrayText(items: seq<Value>, texts: seq<string>)
    requires |items| == |texts| && forall i :: 0 <= i < |items| ==> Print(items[i], "") == texts[i]
    ensures Print(Array(items), "") == "[" + Joined(texts) + "]"
  {
    ItemsText(items, texts);
    PrintItemsAppends(items, "]" + "");
    assert "]" + "" == "]";
    Append2("[", Joined(texts), "]");
  }

  lemma NumberText(name: string, n: int)
    ensures PrintMember(Member(name, Number(n)), "") == Field(name, Numeral(n))
  {
    assert Numeral(n) + "" == Numeral(n);
  }

  lemma {:induction false} MembersText(members: seq<Member>, texts: seq<string>)
    requires |members| == |texts| && forall i :: 0 <= i < |members| ==> PrintMember(members[i], "") == texts[i]
    ensures PrintMembers(members, "") == Joined(texts)
  {
    if |members| > 1 {
      MembersText(members[1..], texts[1..]);
      PrintMemberAppends(members[0], "," + PrintMembers(members[1..], ""));
    }
  }

  lemma ObjectText(members: seq<Member>, texts: seq<string>)
    requires |members| == |texts| && forall i :: 0 <= i < |members| ==> PrintMember(members[i], "") == texts[i]
    ensures Print(Object(members), "") == Braced(texts)
  {
    MembersText(members, texts);
    PrintMembersAppends(members, "}" + "");
    assert "}" + "" == "}";
    Append2("{", Joined(texts), "}");
  }

  lemma BlockTextOf(b: BlockMetadata)
    ensures Print(EncodeBlock(b), "") == BlockText(b)
  {
    NumberText("byte_offset", b.byteOffset as int);
    NumberText("size_bytes", b.sizeBytes as int);
    ObjectText(EncodeBlock(b).members,
      (if b.byteOffset == 0 then [] else [Field("byte_offset", Numeral(b.byteOffset as int))]) +
      (if b.sizeBytes == 0 then [] else [Field("size_bytes", Numeral(b.sizeBytes as int))]));
  }

  lemma BlocksText(list: Option<seq<BlockMetadata>>)
    ensures Print(match list case None => Null case Some(blocks) => Array(EncodeBlocks(blocks)), "") == ListText(list)
  {
    if list.Some? {
      var blocks := list.value;
      forall i | 0 <= i < |blocks| ensures Print(EncodeBlocks(blocks)[i], "") == BlockTexts(blocks)[i] {
        BlockTextOf(blocks[i]);
      }
      ArrayText(EncodeBlocks(blocks), BlockTexts(blocks));
    }
  }

  lemma RecordTextOf(m: IteratorMetadata)
    ensures Print(Encode(m), "") == RecordText(m)
  {
    NumberText("block_metadata_type", m.blockMetadataType as int);
    NumberText("volume_capacity_bytes", m.volumeCapacityBytes as int);
    BlocksText(m.blockMetadata);
    ObjectText(Encode(m).members,
      [Field("block_metadata_type", Numeral(m.blockMetadataType as int)),
       Field("volume_capacity_bytes", Numeral(m.volumeCapacityBytes as int)),
       Field("block_metadata", ListText(m.blockMetadata))]);
  }

  /** The whole document, character by character: the names of the fields, what
      stands for a list that is nil, and what is left out of a tuple. */
  lemma DocumentText(records: seq<IteratorMetadata>)
    ensures Document(records) == "[" + Joined(RecordTexts(records)) + "]"
  {
    var items, texts := EncodeAll(records), RecordTexts(records);
    forall i | 0 <= i < |records| ensures Print(items[i], "") == texts[i] {
      RecordTextOf(records[i]);
    }
    if records != [] {
      PrintedIsArray(records);
      ItemsText(items, texts);
    } else {
      assert "" + "[]" == "[" + "" + "]";
    }
  }

  // ----- decoding undoes encoding

  lemma BlockNamesArePlain()
    ensures Plain("byte_offset") && Plain("size_bytes")
  {
  }

  lemma TypeNameIsPlain()
    ensures Plain("block_metadata_type")
  {
  }

  lemma CapacityNameIsPlain()
    ensures Plain("volume_capacity_bytes")
  {
  }

  lemma ListNameIsPlain()
    ensures Plain("block_metadata")
  {
  }

  lemma {:induction false} BlocksPrintable(blocks: seq<BlockMetadata>)
    ensures Printable(Array(EncodeBlocks(blocks)))
  {
    BlockNamesArePlain();
    forall i | 0 <= i < |blocks| ensures Printable(EncodeBlocks(blocks)[i]) {
    }
  }

  lemma LookupCons(m: Member, members: seq<Member>, name: string)
    ensures Lookup([m] + members, name) == if m.name == name then Some(m.value) else Lookup(members, name)
  {
    assert ([m] + members)[1..] == members;
  }

  lemma BlockDecodes(b: BlockMetadata)
    ensures DecodeBlock(EncodeBlock(b)) == Some(b)
  {
    var offset := Member("byte_offset", Number(b.byteOffset as int));
    var size := Member("size_bytes", Number(b.sizeBytes as int));
    assert |offset.name| != |size.name|;
    var tail := if b.sizeBytes == 0 then [] else [size];
    LookupCons(size, [], offset.name);
    LookupCons(size, [], size.name);
    assert [size] + [] == [size];
    if b.byteOffset == 0 {
      assert EncodeBlock(b) == Object(tail);
    } else {
      assert EncodeBlock(b) == Object([offset] + tail);
      LookupCons(offset, tail, offset.name);
      LookupCons(offset, tail, size.name);
    }
    assert Int64Field(EncodeBlock(b), "byte_offset") == Some(b.byteOffset);
    assert Int64Field(EncodeBlock(b), "size_bytes") == Some(b.sizeBytes);
  }

  lemma {:induction false} BlocksDecode(blocks: seq<BlockMetadata>)
    ensures DecodeBlocks(EncodeBlocks(blocks)) == Some(blocks)
  {
    if blocks != [] {
      BlockDecodes(blocks[0]);
      BlocksDecode(blocks[1..]);
      assert EncodeBlocks(blocks)[1..] == EncodeBlocks(blocks[1..]);
      assert [blocks[0]] + blocks[1..] == blocks;
    }
  }

  lemma RecordLookups(m: IteratorMetadata)
    ensures Lookup(Encode(m).members, "block_metadata_type") == Some(Number(m.blockMetadataType as int))
    ensures Lookup(Encode(m).members, "volume_capacity_bytes") == Some(Number(m.volumeCapacityBytes as int))
    ensures Lookup(Encode(m).members, "block_metadata") == Some(match m.blockMetadata case None => Null case Some(blocks) => Array(EncodeBlocks(blocks)))
  {
    var members := Encode(m).members;
    assert |"block_metadata_type"| == 19 && |"volume_capacity_bytes"| == 21 && |"block_metadata"| == 14;
    assert members == [members[0]] + ([members[1]] + [members[2]]);
    forall name: string
      ensures Lookup(members, name) ==
        if members[0].name == name then Some(members[0].value)
        else if members[1].name == name then Some(members[1].value)
        else if members[2].name == name then Some(members[2].value)
        else None
    {
      LookupCons(members[0], [members[1]] + [members[2]], name);
      LookupCons(members[1], [members[2]], name);
    }
  }

  lemma RecordDecodes(m: IteratorMetadata)
    ensures Decode(Encode(m)) == Some(m)
  {
    if m.blockMetadata.Some? {
      BlocksDecode(m.blockMetadata.value);
    }
    RecordLookups(m);
    var v := Encode(m);
    assert Int32Field(v, "block_metadata_type") == Some(m.blockMetadataType);
    assert Int64Field(v, "volume_capacity_bytes") == Some(m.volumeCapacityBytes);
    assert DecodeSlice(Lookup(v.members, "block_metadata")) == Some(m.blockMetadata);
  }

  lemma RecordPrintable(m: IteratorMetadata)
    ensures Printable(Encode(m))
  {
    TypeNameIsPlain();
    CapacityNameIsPlain();
    ListNameIsPlain();
    if m.blockMetadata.Some? {
      BlocksPrintable(m.blockMetadata.value);
    }
  }

  lemma {:induction false} RecordsDecode(records: seq<IteratorMetadata>)
    ensures DecodeAll(EncodeAll(records)) == Some(records)
    ensures Printable(Array(EncodeAll(records)))
  {
    if records != [] {
      RecordDecodes(records[0]);
      RecordPrintable(records[0]);
      RecordsDecode(records[1..]);
      assert EncodeAll(records)[1..] == EncodeAll(records[1..]);
      assert [records[0]] + records[1..] == records;
    }
  }

  /** The document is one JSON array from which every record is recovered: zero
      fields that were omitted, null lists and all integers included. */
  lemma DocumentReads(records: seq<IteratorMetadata>)
    ensures ReadRecords(Document(records)) == Some(records)
  {
    var v := Array(EncodeAll(records));
    RecordsDecode(records);
    ParsePrint(v, "");
    if records != [] {
      PrintedIsArray(records);
      PrintItemsAppends(v.items, "]" + "");
    }
    assert Document(records) == Print(v, "");
  }
}
