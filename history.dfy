/**
 * What reading a whole capture file amounts to, stated against reference
 * definitions written straight from the source's branch conditions: "the
 * first header row", "the last valid row", "every accepted row, in file
 * order". Each law is proved in three steps: what a decoded row does to one
 * part of the state (`Apply…`), what one line does (`Step…`, through the
 * `Classify…` lemmas), and what the file does (by induction on its lines).
 */
module History {
  import opened Wrappers
  import opened Text
  import opened Decode
  import opened Capture
  import opened CaptureLaws

  // ---------------------------------------------------------------------------
  // What each kind of row leaves alone
  // ---------------------------------------------------------------------------

  /** Each kind of row changes only its own part of the state. */
  lemma ApplyFrame(c: Capture, row: Row)
    ensures !row.Timestamp? ==> Apply(c, row).zzzz == c.zzzz
    ensures !row.NodeName? ==> Apply(c, row).node == c.node
    ensures !row.FallbackDate? ==> Apply(c, row).fallbackDate == c.fallbackDate
    ensures !row.Process? ==> Apply(c, row).top == c.top
    ensures !row.Core? ==> Apply(c, row).cores == c.cores
    ensures !row.Discovered? ==> Apply(c, row).headers == c.headers
  {
    match row
    case Skip =>
    case Timestamp(tag, dateField, timeField) => TimestampFrame(c, tag, dateField, timeField);
    case NodeName(_) =>
    case FallbackDate(_) =>
    case Process(tag, sample) =>
    case Core(_, _, _, _) =>
    case Fixed(section, tag, record) =>
    case MemUsage(tag, percent, megabytes) =>
    case Discovered(key, schema, parts, values) =>
  }

  lemma TimestampFrame(c: Capture, tag: string, dateField: string, timeField: string)
    ensures ApplyTimestamp(c, tag, dateField, timeField) ==
      c.(zzzz := ApplyTimestamp(c, tag, dateField, timeField).zzzz,
         zzzzOrder := ApplyTimestamp(c, tag, dateField, timeField).zzzzOrder)
  {
  }

  // ---------------------------------------------------------------------------
  // AAA rows: the node name and the fallback date
  // ---------------------------------------------------------------------------

  /** The value an `AAA,<field>,<value>` line carries. */
  function LineAaa(line: string, field: string): Option<string> {
    match Fields(line)
    case None => None
    case Some(parts) => if |parts| > 2 && parts[0] == "AAA" && parts[1] == field then Some(parts[2]) else None
  }

  /** The value of the last `AAA,<field>` line, "" when there is none. */
  function LastAaa(lines: seq<string>, field: string): string
    decreases |lines|
  {
    if |lines| == 0 then ""
    else LineAaa(lines[|lines| - 1], field).GetOr(LastAaa(lines[..|lines| - 1], field))
  }

  lemma ApplyMeta(c: Capture, row: Row)
    ensures Apply(c, row).node == if row.NodeName? then row.node else c.node
    ensures Apply(c, row).fallbackDate == if row.FallbackDate? then row.date else c.fallbackDate
  {
    ApplyFrame(c, row);
  }

  /** An AAA line replaces the node or the fallback date; no other line changes them. */
  lemma StepMeta(c: Capture, line: string)
    ensures Step(c, line).node == LineAaa(line, "NodeName").GetOr(c.node)
    ensures Step(c, line).fallbackDate == LineAaa(line, "date").GetOr(c.fallbackDate)
  {
    match Fields(line)
    case None =>
    case Some(parts) =>
      ClassifyMeta(parts);
      ApplyMeta(c, Classify(parts));
  }

  /** The last AAA line of each kind decides the node and the fallback date. */
  lemma {:induction false} MetaIsLast(lines: seq<string>)
    ensures ParseLines(lines).node == LastAaa(lines, "NodeName")
    ensures ParseLines(lines).fallbackDate == LastAaa(lines, "date")
    decreases |lines|
  {
    if |lines| > 0 {
      MetaIsLast(lines[..|lines| - 1]);
      StepMeta(ParseLines(lines[..|lines| - 1]), lines[|lines| - 1]);
    }
  }

  // ---------------------------------------------------------------------------
  // ZZZZ rows: the timestamp of each tag
  // ---------------------------------------------------------------------------

  /** The fields of a line that is a ZZZZ row of `tag` with at least four fields. */
  function LineZzzz(line: string, tag: string): (r: Option<seq<string>>)
    ensures r.Some? ==> |r.value| >= 4
  {
    match Fields(line)
    case None => None
    case Some(parts) => if |parts| >= 4 && parts[0] == "ZZZZ" && parts[1] == tag then Some(parts) else None
  }

  /**
   * The timestamp of the last ZZZZ row of `tag`, resolved with the fallback
   * date of the last AAA date line before it.
   */
  function LastTimestamp(lines: seq<string>, tag: string): Option<string>
    decreases |lines|
  {
    if |lines| == 0 then None
    else
      var prefix := lines[..|lines| - 1];
      match LineZzzz(lines[|lines| - 1], tag)
      case Some(parts) => Some(ResolveTimestamp(parts[3], parts[2], LastAaa(prefix, "date")))
      case None => LastTimestamp(prefix, tag)
  }

  lemma ApplyZzzz(c: Capture, row: Row, tag: string)
    ensures row.Timestamp? && row.tag == tag ==>
      tag in Apply(c, row).zzzz && Apply(c, row).zzzz[tag] == ResolveTimestamp(row.dateField, row.timeField, c.fallbackDate)
    ensures !(row.Timestamp? && row.tag == tag) ==>
      (tag in Apply(c, row).zzzz <==> tag in c.zzzz) && (tag in c.zzzz ==> Apply(c, row).zzzz[tag] == c.zzzz[tag])
  {
    ApplyFrame(c, row);
  }

  /** A ZZZZ line of `tag` sets its timestamp with the fallback in effect; no other line touches it. */
  lemma StepZzzz(c: Capture, line: string, tag: string)
    ensures LineZzzz(line, tag).Some? ==>
      var parts := LineZzzz(line, tag).value;
      tag in Step(c, line).zzzz && Step(c, line).zzzz[tag] == ResolveTimestamp(parts[3], parts[2], c.fallbackDate)
    ensures LineZzzz(line, tag).None? ==>
      (tag in Step(c, line).zzzz <==> tag in c.zzzz) && (tag in c.zzzz ==> Step(c, line).zzzz[tag] == c.zzzz[tag])
  {
    match Fields(line)
    case None =>
    case Some(parts) =>
      ClassifyTimestamp(parts);
      ApplyZzzz(c, Classify(parts), tag);
  }

  /** A tag has a timestamp exactly when it has a ZZZZ row, and the last such row decides it. */
  lemma {:induction false} TimestampIsLast(lines: seq<string>, tag: string)
    ensures tag in ParseLines(lines).zzzz <==> LastTimestamp(lines, tag).Some?
    ensures tag in ParseLines(lines).zzzz ==> ParseLines(lines).zzzz[tag] == LastTimestamp(lines, tag).value
    decreases |lines|
  {
    if |lines| > 0 {
      var prefix := lines[..|lines| - 1];
      TimestampIsLast(prefix, tag);
      MetaIsLast(prefix);
      StepZzzz(ParseLines(prefix), lines[|lines| - 1], tag);
    }
  }

  // ---------------------------------------------------------------------------
  // Discovered-schema sections: the first header row is the one kept
  // ---------------------------------------------------------------------------

  /** The columns a line names when it is a header row of the discovered-schema section `key`. */
  function LineHeader(line: string, key: string): Option<seq<string>> {
    match Fields(line)
    case None => None
    case Some(parts) =>
      if parts[0] == key && KindOf(key).DiscoveredKey? && HeaderRow(KindOf(key).schema, parts)
      then Some(parts[2..]) else None
  }

  /** The columns of the first header row of `key`. */
  function FirstHeader(lines: seq<string>, key: string): Option<seq<string>>
    decreases |lines|
  {
    if |lines| == 0 then None
    else
      var earlier := FirstHeader(lines[..|lines| - 1], key);
      if earlier.Some? then earlier else LineHeader(lines[|lines| - 1], key)
  }

  lemma ApplyHeader(c: Capture, row: Row, key: string)
    ensures key in c.headers ==> key in Apply(c, row).headers && Apply(c, row).headers[key] == c.headers[key]
    ensures key !in c.headers ==>
      (key in Apply(c, row).headers <==> row.Discovered? && row.key == key && HeaderRow(row.schema, row.parts))
    ensures key !in c.headers && key in Apply(c, row).headers ==> Apply(c, row).headers[key] == row.parts[2..]
  {
    ApplyFrame(c, row);
  }

  /** Once a section has its header no line changes it; before that, only a header row of its own sets it. */
  lemma StepHeader(c: Capture, line: string, key: string)
    ensures key in c.headers ==> key in Step(c, line).headers && Step(c, line).headers[key] == c.headers[key]
    ensures key !in c.headers ==> (key in Step(c, line).headers <==> LineHeader(line, key).Some?)
    ensures key !in c.headers && key in Step(c, line).headers ==> Step(c, line).headers[key] == LineHeader(line, key).value
  {
    match Fields(line)
    case None =>
    case Some(parts) =>
      ClassifyDiscovered(parts);
      ApplyHeader(c, Classify(parts), key);
  }

  /** The header a discovered-schema section decodes with is the first header row it met. */
  lemma {:induction false} HeaderIsFirst(lines: seq<string>, key: string)
    ensures key in ParseLines(lines).headers <==> FirstHeader(lines, key).Some?
    ensures key in ParseLines(lines).headers ==> ParseLines(lines).headers[key] == FirstHeader(lines, key).value
    decreases |lines|
  {
    if |lines| > 0 {
      HeaderIsFirst(lines[..|lines| - 1], key);
      StepHeader(ParseLines(lines[..|lines| - 1]), lines[|lines| - 1], key);
    }
  }

  /**
   * A tagged row of a section that waits for its header, read before the
   * header, is dropped: it changes nothing.
   */
  lemma DroppedBeforeHeader(c: Capture, parts: seq<string>)
    requires |parts| >= 1 && KindOf(parts[0]).DiscoveredKey?
    requires KindOf(parts[0]).schema.needsHeader && parts[0] !in c.headers
    requires !HeaderRow(KindOf(parts[0]).schema, parts)
    ensures Apply(c, Classify(parts)) == c
  {
    ClassifyDiscovered(parts);
  }

  /**
   * A data row of a discovered-schema section is decoded against the
   * section's header and replaces any earlier record of its tag; no other
   * tag's record changes.
   */
  lemma DataRowDecoded(c: Capture, parts: seq<string>)
    requires |parts| >= 1 && KindOf(parts[0]).DiscoveredKey?
    requires DataRow(KindOf(parts[0]).schema, parts)
    requires parts[0] in c.headers || !KindOf(parts[0]).schema.needsHeader
    ensures Table(Apply(c, Classify(parts)), KindOf(parts[0]).schema.table) ==
      Table(c, KindOf(parts[0]).schema.table)[parts[1] := Columns(DecodeColumns(HeaderOf(c, parts[0]), RowValues(parts)))]
  {
    ClassifyDiscovered(parts);
    DataRowApplied(c, Classify(parts));
  }

  lemma DataRowApplied(c: Capture, row: Row)
    requires row.Discovered? && DataRow(row.schema, row.parts) && (row.key in c.headers || !row.schema.needsHeader)
    ensures Table(Apply(c, row), row.schema.table) ==
      Table(c, row.schema.table)[row.parts[1] := Columns(DecodeColumns(HeaderOf(c, row.key), row.values))]
  {
    match row
    case Discovered(key, s, parts, values) => ApplyDataRow(c, key, s, parts, values);
  }

  lemma ApplyDataRow(c: Capture, key: string, s: Schema, parts: seq<string>, values: seq<real>)
    requires DataRow(s, parts) && (key in c.headers || !s.needsHeader)
    requires !s.needsHeader ==> s.rule == Untagged
    ensures Table(ApplyDiscovered(c, key, s, parts, values), s.table) ==
      Table(c, s.table)[parts[1] := Columns(DecodeColumns(HeaderOf(c, key), values))]
  {
    var r := Columns(DecodeColumns(HeaderOf(c, key), values));
    assert ApplyDiscovered(c, key, s, parts, values) == Put(c, s.table, parts[1], r);
  }

  /** A NET data row read before any NET header stores a record with no columns. */
  lemma NetBeforeHeader(c: Capture, parts: seq<string>)
    requires |parts| > 2 && parts[0] == "NET" && StartsWithT(parts[1]) && "NET" !in c.headers
    ensures Table(Apply(c, Classify(parts)), NetTable) == Table(c, NetTable)[parts[1] := Columns(map[])]
  {
    KindOfSchemas();
    DataRowDecoded(c, parts);
  }

  // ---------------------------------------------------------------------------
  // Discovered-schema sections: the last data row of a tag is its record
  // ---------------------------------------------------------------------------

  /**
   * The record a row of the discovered-schema section `key` stores for
   * `tag`, given the header read before it: a data row of that tag that is
   * not taken as the header row, decoded against the header, or against no
   * columns when the section keeps rows that arrive before it.
   */
  function DataOf(parts: seq<string>, key: string, header: Option<seq<string>>, tag: string): Option<Record>
    requires KindOf(key).DiscoveredKey?
  {
    var s := KindOf(key).schema;
    if |parts| > 1 && parts[0] == key && parts[1] == tag && DataRow(s, parts)
       && !(header.None? && HeaderRow(s, parts)) && (header.Some? || !s.needsHeader)
    then Some(Columns(DecodeColumns(header.GetOr([]), RowValues(parts))))
    else None
  }

  function LineData(line: string, key: string, header: Option<seq<string>>, tag: string): Option<Record>
    requires KindOf(key).DiscoveredKey?
  {
    match Fields(line)
    case None => None
    case Some(parts) => DataOf(parts, key, header, tag)
  }

  /** The record of the last data row of `key` for `tag`, each row decoded against the first header before it. */
  function LastData(lines: seq<string>, key: string, tag: string): Option<Record>
    requires KindOf(key).DiscoveredKey?
    decreases |lines|
  {
    if |lines| == 0 then None
    else
      var prefix := lines[..|lines| - 1];
      var r := LineData(lines[|lines| - 1], key, FirstHeader(prefix, key), tag);
      if r.Some? then r else LastData(prefix, key, tag)
  }

  /** The header a state holds for `key`, if any. */
  function HeaderSoFar(c: Capture, key: string): Option<seq<string>> {
    if key in c.headers then Some(c.headers[key]) else None
  }

  /** The tag and record a decoded row stores in the discovered-schema table `t`. */
  function DataStored(c: Capture, row: Row, t: Section): Option<(string, Record)> {
    match row
    case Discovered(key, s, parts, values) =>
      if s.table == t && !(key !in c.headers && HeaderRow(s, parts)) && DataRow(s, parts) && (key in c.headers || !s.needsHeader)
      then Some((parts[1], Columns(DecodeColumns(HeaderOf(c, key), values))))
      else None
    case _ => None
  }

  /** What a decoded row writes into the discovered-schema table `t` under `tag`. */
  function DataWritten(c: Capture, row: Row, t: Section, tag: string): Option<Record> {
    if DataStored(c, row, t).Some? && DataStored(c, row, t).value.0 == tag then Some(DataStored(c, row, t).value.1) else None
  }

  /** Only a data row of its own section changes a discovered-schema table, by storing one record. */
  lemma ApplyDataTable(c: Capture, row: Row, t: Section)
    requires !IsFixed(t) && (row.Fixed? ==> IsFixed(row.section))
    ensures Table(Apply(c, row), t) ==
      if DataStored(c, row, t).Some? then Table(c, t)[DataStored(c, row, t).value.0 := DataStored(c, row, t).value.1]
      else Table(c, t)
  {
    match row
    case Fixed(s, rowTag, record) => PutTable(c, s, rowTag, record, t);
    case MemUsage(rowTag, percent, megabytes) => ApplyMemTable(c, rowTag, percent, megabytes, t);
    case Discovered(key, s, parts, values) => ApplyDiscoveredTable(c, key, s, parts, values, t);
    case _ => ApplyOtherTables(c, row, t);
  }

  lemma ApplyDiscoveredTable(c: Capture, key: string, s: SectionSchema, parts: seq<string>, values: seq<real>, t: Section)
    ensures Table(ApplyDiscovered(c, key, s, parts, values), t) ==
      if DataStored(c, Discovered(key, s, parts, values), t).Some?
      then Table(c, t)[parts[1] := Columns(DecodeColumns(HeaderOf(c, key), values))]
      else Table(c, t)
  {
    if s.table != t {
      DiscoveredTables(c, key, s, parts, values, t);
    } else if !(key !in c.headers && HeaderRow(s, parts)) && DataRow(s, parts) && (key in c.headers || !s.needsHeader) {
      PutTable(c, s.table, parts[1], Columns(DecodeColumns(HeaderOf(c, key), values)), t);
    }
  }

  /** Two header-driven keys with the same table are the same key. */
  lemma DiscoveredTableOwner(k: string, key: string)
    requires KindOf(k).DiscoveredKey? && KindOf(key).DiscoveredKey?
    requires KindOf(k).schema.table == KindOf(key).schema.table
    ensures k == key
  {
    KindOfDiscoveredSound(k);
    KindOfDiscoveredSound(key);
  }

  /** What `Classify` stores in a discovered-schema table is what the reference definition says. */
  lemma ClassifyDataWritten(c: Capture, parts: seq<string>, key: string, tag: string)
    requires |parts| >= 1 && KindOf(key).DiscoveredKey?
    ensures DataWritten(c, Classify(parts), KindOf(key).schema.table, tag) == DataOf(parts, key, HeaderSoFar(c, key), tag)
  {
    ClassifyDiscovered(parts);
    if Classify(parts).Discovered? && KindOf(parts[0]).schema.table == KindOf(key).schema.table {
      DiscoveredTableOwner(parts[0], key);
    }
  }

  /** A line that is a data row of `key` for `tag` replaces the record; every other line leaves it. */
  lemma StepData(c: Capture, line: string, key: string, tag: string)
    requires KindOf(key).DiscoveredKey?
    ensures var t := KindOf(key).schema.table; var r := LineData(line, key, HeaderSoFar(c, key), tag);
      (r.Some? ==> tag in Table(Step(c, line), t) && Table(Step(c, line), t)[tag] == r.value) &&
      (r.None? ==>
        (tag in Table(Step(c, line), t) <==> tag in Table(c, t)) &&
        (tag in Table(c, t) ==> Table(Step(c, line), t)[tag] == Table(c, t)[tag]))
  {
    var t := KindOf(key).schema.table;
    match Fields(line)
    case None =>
    case Some(parts) =>
      ClassifyDataWritten(c, parts, key, tag);
      ClassifyFixed(parts);
      ApplyDataTable(c, Classify(parts), t);
  }

  /**
   * A discovered-schema section holds a record for a tag exactly when it
   * had a data row of that tag, and the record is the last such row decoded
   * against the first header read before it.
   */
  lemma {:induction false} DiscoveredIsLatest(lines: seq<string>, key: string, tag: string)
    requires KindOf(key).DiscoveredKey?
    ensures var t := KindOf(key).schema.table;
      (tag in Table(ParseLines(lines), t) <==> LastData(lines, key, tag).Some?) &&
      (tag in Table(ParseLines(lines), t) ==> Table(ParseLines(lines), t)[tag] == LastData(lines, key, tag).value)
    decreases |lines|
  {
    if |lines| > 0 {
      var prefix := lines[..|lines| - 1];
      DiscoveredIsLatest(prefix, key, tag);
      HeaderIsFirst(prefix, key);
      assert HeaderSoFar(ParseLines(prefix), key) == FirstHeader(prefix, key);
      StepData(ParseLines(prefix), lines[|lines| - 1], key, tag);
    }
  }

  // ---------------------------------------------------------------------------
  // Fixed-schema sections: the last valid row of a tag is its record
  // ---------------------------------------------------------------------------

  /**
   * The record a row stores for `tag` in the fixed-schema section `t`: a
   * tagged row of the section's key whose fields decode. MEM's megabyte
   * record decodes only when its percentages do.
   */
  function RecordOf(parts: seq<string>, t: Section, tag: string): Option<Record>
    requires IsFixed(t)
  {
    if |parts| > 1 && parts[0] == SectionKey(t) && parts[1] == tag && StartsWithT(tag) then FixedDecode(t, parts)
    else None
  }

  function LineRecord(line: string, t: Section, tag: string): Option<Record>
    requires IsFixed(t)
  {
    match Fields(line)
    case None => None
    case Some(parts) => RecordOf(parts, t, tag)
  }

  /** The record of the last row of section `t` for `tag` that decodes. */
  function LastRecord(lines: seq<string>, t: Section, tag: string): Option<Record>
    requires IsFixed(t)
    decreases |lines|
  {
    if |lines| == 0 then None
    else
      var r := LineRecord(lines[|lines| - 1], t, tag);
      if r.Some? then r else LastRecord(lines[..|lines| - 1], t, tag)
  }

  /** The tag and record a decoded row stores in fixed-schema table `t`. */
  function Stored(row: Row, t: Section): Option<(string, Record)> {
    match row
    case Fixed(s, tag, record) => if s == t then Some((tag, record)) else None
    case MemUsage(tag, percent, megabytes) =>
      if t == MemTable then Some((tag, percent))
      else if t == MemMbTable && megabytes.Some? then Some((tag, megabytes.value))
      else None
    case _ => None
  }

  /** What a decoded row writes into fixed-schema table `t` under `tag`. */
  function Written(row: Row, t: Section, tag: string): Option<Record> {
    if Stored(row, t).Some? && Stored(row, t).value.0 == tag then Some(Stored(row, t).value.1) else None
  }

  /** Table `t` of `d` is table `t` of `c` with what `row` stores there. */
  predicate TableAfter(c: Capture, d: Capture, row: Row, t: Section) {
    Table(d, t) == if Stored(row, t).Some? then Table(c, t)[Stored(row, t).value.0 := Stored(row, t).value.1] else Table(c, t)
  }

  lemma ApplyFixed(c: Capture, row: Row, t: Section)
    requires IsFixed(t)
    ensures TableAfter(c, Apply(c, row), row, t)
  {
    if row.Fixed? || row.MemUsage? {
      ApplyStoring(c, row, t);
    } else if row.Discovered? {
      DiscoveredTables(c, row.key, row.schema, row.parts, row.values, t);
    } else {
      ApplyOtherTables(c, row, t);
    }
  }

  lemma ApplyStoring(c: Capture, row: Row, t: Section)
    requires row.Fixed? || row.MemUsage?
    ensures TableAfter(c, Apply(c, row), row, t)
  {
    match row
    case Fixed(s, rowTag, record) =>
      PutTable(c, s, rowTag, record, t);
    case MemUsage(rowTag, percent, megabytes) =>
      ApplyMemTable(c, rowTag, percent, megabytes, t);
  }

  /** The rows that do not store a record leave every table as it was. */
  lemma ApplyOtherTables(c: Capture, row: Row, t: Section)
    requires !row.Fixed? && !row.MemUsage? && !row.Discovered?
    ensures Apply(c, row).tables == c.tables
    ensures TableAfter(c, Apply(c, row), row, t)
  {
  }

  lemma PutTable(c: Capture, s: Section, tag: string, r: Record, t: Section)
    ensures Table(Put(c, s, tag, r), t) == if t == s then Table(c, t)[tag := r] else Table(c, t)
  {
  }

  lemma ApplyMemTable(c: Capture, tag: string, percent: Record, megabytes: Option<Record>, t: Section)
    ensures Table(ApplyMem(c, tag, percent, megabytes), t) ==
      if t == MemTable then Table(c, t)[tag := percent]
      else if t == MemMbTable && megabytes.Some? then Table(c, t)[tag := megabytes.value]
      else Table(c, t)
  {
    var d := Put(c, MemTable, tag, percent);
    PutTable(c, MemTable, tag, percent, t);
    if megabytes.Some? {
      PutTable(d, MemMbTable, tag, megabytes.value, t);
    }
  }

  lemma DiscoveredTables(c: Capture, key: string, s: Schema, parts: seq<string>, values: seq<real>, t: Section)
    requires t != s.table
    ensures Table(ApplyDiscovered(c, key, s, parts, values), t) == Table(c, t)
  {
    if !(key !in c.headers && HeaderRow(s, parts)) && DataRow(s, parts) && (key in c.headers || !s.needsHeader) {
      PutTable(c, s.table, parts[1], Columns(DecodeColumns(HeaderOf(c, key), values)), t);
    }
  }

  /** The key of a fixed-schema section selects that section's branch. */
  lemma KindOfSectionKey(t: Section)
    requires IsFixed(t)
    ensures KindOf(SectionKey(t)) == if t == MemTable || t == MemMbTable then MemKey else FixedKey(t)
  {
    KindOfNames();
  }

  /** What `Classify` stores in a fixed-schema table is what the reference definition says. */
  lemma ClassifyWritten(parts: seq<string>, t: Section, tag: string)
    requires |parts| >= 1 && IsFixed(t)
    ensures Written(Classify(parts), t, tag) == RecordOf(parts, t, tag)
  {
    KindOfSectionKey(t);
    var k := KindOf(parts[0]);
    if parts[0] == SectionKey(t) {
      assert k == KindOf(SectionKey(t));
      if t == MemTable || t == MemMbTable {
        WrittenMem(parts, t, tag);
      } else {
        WrittenOwn(parts, t, tag);
      }
    } else if k.FixedKey? {
      KindOfSound(parts[0]);
      ClassifyFixed(parts);
      assert k.section != t;
    } else if k.MemKey? {
      ClassifyMem(parts);
      KindOfSound(parts[0]);
      assert t != MemTable && t != MemMbTable;
    } else {
      ClassifyFixed(parts);
      ClassifyMem(parts);
    }
  }

  lemma WrittenMem(parts: seq<string>, t: Section, tag: string)
    requires |parts| >= 1 && parts[0] == "MEM" && (t == MemTable || t == MemMbTable)
    ensures Written(Classify(parts), t, tag) == RecordOf(parts, t, tag)
  {
    ClassifyMem(parts);
    var m := DecodeMem(parts);
    if |parts| > 1 {
      RecordOfShape(parts, t, tag);
      MemDecodes(parts);
    }
    if Tagged(parts) && m.percent.Some? {
      WrittenMemUsage(parts[1], m, t, tag);
    } else {
      assert Classify(parts) == Skip;
    }
  }

  /** What a MEM row stores under `tag`: its percent record, or its megabyte record when there is one. */
  lemma WrittenMemUsage(rowTag: string, m: MemRows, t: Section, tag: string)
    requires m.percent.Some? && (t == MemTable || t == MemMbTable)
    ensures Written(MemUsage(rowTag, m.percent.value, m.megabytes), t, tag) ==
      if rowTag == tag then (if t == MemTable then m.percent else m.megabytes) else None
  {
  }

  lemma RecordOfShape(parts: seq<string>, t: Section, tag: string)
    requires IsFixed(t) && |parts| > 1 && parts[0] == SectionKey(t)
    ensures RecordOf(parts, t, tag) == if parts[1] == tag && StartsWithT(tag) then FixedDecode(t, parts) else None
  {
  }

  lemma MemDecodes(parts: seq<string>)
    ensures FixedDecode(MemTable, parts) == DecodeMem(parts).percent
    ensures FixedDecode(MemMbTable, parts) == DecodeMem(parts).megabytes
  {
    FixedDecodeMem(MemTable, parts);
    FixedDecodeMem(MemMbTable, parts);
  }

  lemma FixedDecodeMem(t: Section, parts: seq<string>)
    requires t == MemTable || t == MemMbTable
    ensures FixedDecode(t, parts) == if t == MemTable then DecodeMem(parts).percent else DecodeMem(parts).megabytes
  {
    match t
    case MemTable =>
    case MemMbTable =>
  }

  lemma WrittenOwn(parts: seq<string>, t: Section, tag: string)
    requires |parts| >= 1 && IsFixed(t) && t != MemTable && t != MemMbTable
    requires KindOf(parts[0]) == FixedKey(t) && parts[0] == SectionKey(t)
    ensures Written(Classify(parts), t, tag) == RecordOf(parts, t, tag)
  {
    ClassifyFixed(parts);
    if |parts| > 1 {
      RecordOfShape(parts, t, tag);
    }
    if Tagged(parts) && FixedDecode(t, parts).Some? {
      WrittenFixed(t, parts[1], FixedDecode(t, parts).value, tag);
    } else {
      assert Classify(parts) == Skip;
    }
  }

  lemma WrittenFixed(t: Section, rowTag: string, record: Record, tag: string)
    ensures Written(Fixed(t, rowTag, record), t, tag) == if rowTag == tag then Some(record) else None
  {
  }

  /** A line whose row decodes for `t` and `tag` replaces the record; every other line leaves it. */
  lemma StepFixed(c: Capture, line: string, t: Section, tag: string)
    requires IsFixed(t)
    ensures LineRecord(line, t, tag).Some? ==>
      tag in Table(Step(c, line), t) && Table(Step(c, line), t)[tag] == LineRecord(line, t, tag).value
    ensures LineRecord(line, t, tag).None? ==>
      (tag in Table(Step(c, line), t) <==> tag in Table(c, t)) &&
      (tag in Table(c, t) ==> Table(Step(c, line), t)[tag] == Table(c, t)[tag])
  {
    RowWritten(line, t, tag);
    ApplyFixed(c, RowOf(line), t);
    TableWritten(c, Step(c, line), RowOf(line), t, tag);
  }

  lemma RowWritten(line: string, t: Section, tag: string)
    requires IsFixed(t)
    ensures Written(RowOf(line), t, tag) == LineRecord(line, t, tag)
  {
    match Fields(line)
    case None =>
    case Some(parts) => ClassifyWritten(parts, t, tag);
  }

  lemma TableWritten(c: Capture, d: Capture, row: Row, t: Section, tag: string)
    requires TableAfter(c, d, row, t)
    ensures Written(row, t, tag).Some? ==> tag in Table(d, t) && Table(d, t)[tag] == Written(row, t, tag).value
    ensures Written(row, t, tag).None? ==>
      (tag in Table(d, t) <==> tag in Table(c, t)) && (tag in Table(c, t) ==> Table(d, t)[tag] == Table(c, t)[tag])
  {
  }

  /** A fixed-schema section holds a record for a tag exactly when one of its rows decoded, and the last one wins. */
  lemma {:induction false} FixedIsLatest(lines: seq<string>, t: Section, tag: string)
    requires IsFixed(t)
    ensures tag in Table(ParseLines(lines), t) <==> LastRecord(lines, t, tag).Some?
    ensures tag in Table(ParseLines(lines), t) ==> Table(ParseLines(lines), t)[tag] == LastRecord(lines, t, tag).value
    decreases |lines|
  {
    if |lines| > 0 {
      FixedIsLatest(lines[..|lines| - 1], t, tag);
      StepFixed(ParseLines(lines[..|lines| - 1]), lines[|lines| - 1], t, tag);
    }
  }

  // ---------------------------------------------------------------------------
  // TOP rows: every accepted sample, in file order
  // ---------------------------------------------------------------------------

  /** The sample a line contributes to `tag`: a TOP row of that tag whose %CPU decodes. */
  function LineSamples(line: string, tag: string): seq<TopSample> {
    match Fields(line)
    case None => []
    case Some(parts) =>
      if |parts| > 2 && parts[0] == "TOP" && parts[2] == tag && StartsWithT(tag) && DecodeTop(parts).Some?
      then [DecodeTop(parts).value] else []
  }

  /** The samples of `tag` in file order. */
  function TopRows(lines: seq<string>, tag: string): seq<TopSample>
    decreases |lines|
  {
    if |lines| == 0 then []
    else TopRows(lines[..|lines| - 1], tag) + LineSamples(lines[|lines| - 1], tag)
  }

  lemma ApplyTop(c: Capture, row: Row, tag: string)
    ensures TopOf(Apply(c, row), tag) == TopOf(c, tag) + if row.Process? && row.tag == tag then [row.sample] else []
  {
    ApplyFrame(c, row);
  }

  /** A TOP line appends its sample to its tag's list; no line removes or replaces one. */
  lemma StepTop(c: Capture, line: string, tag: string)
    ensures TopOf(Step(c, line), tag) == TopOf(c, tag) + LineSamples(line, tag)
  {
    RowSamples(line, tag);
    ApplyTop(c, RowOf(line), tag);
  }

  lemma RowSamples(line: string, tag: string)
    ensures LineSamples(line, tag) == if RowOf(line).Process? && RowOf(line).tag == tag then [RowOf(line).sample] else []
  {
    match Fields(line)
    case None =>
    case Some(parts) => ClassifyProcess(parts);
  }

  /** A tag's TOP list is exactly its accepted samples, in file order. */
  lemma {:induction false} TopIsRows(lines: seq<string>, tag: string)
    ensures TopOf(ParseLines(lines), tag) == TopRows(lines, tag)
    decreases |lines|
  {
    if |lines| > 0 {
      TopIsRows(lines[..|lines| - 1], tag);
      StepTop(ParseLines(lines[..|lines| - 1]), lines[|lines| - 1], tag);
    }
  }

  // ---------------------------------------------------------------------------
  // CPUnn rows: the sums add up the accepted rows
  // ---------------------------------------------------------------------------

  /** The user and system percent of one accepted CPUnn row. */
  datatype CoreReading = CoreReading(user: real, sys: real)

  /** The reading a line contributes to `core` under `tag`: a tagged CPUnn row above the noise floor. */
  function LineCore(line: string, tag: string, core: string): Option<CoreReading> {
    match Fields(line)
    case None => None
    case Some(parts) =>
      if Tagged(parts) && parts[1] == tag && IsCoreKey(parts[0]) && parts[0][3..] == core
         && Numeric(parts, 2) && Numeric(parts, 3) && Num(parts, 2).value + Num(parts, 3).value > NoiseFloor
      then Some(CoreReading(Num(parts, 2).value, Num(parts, 3).value))
      else None
  }

  /** The accepted readings of `core` under `tag`, in file order. */
  function CoreRows(lines: seq<string>, tag: string, core: string): seq<CoreReading>
    decreases |lines|
  {
    if |lines| == 0 then []
    else
      var r := LineCore(lines[|lines| - 1], tag, core);
      CoreRows(lines[..|lines| - 1], tag, core) + if r.Some? then [r.value] else []
  }

  function SumUser(rs: seq<CoreReading>): real
    decreases |rs|
  {
    if |rs| == 0 then 0.0 else SumUser(rs[..|rs| - 1]) + rs[|rs| - 1].user
  }

  function SumSys(rs: seq<CoreReading>): real
    decreases |rs|
  {
    if |rs| == 0 then 0.0 else SumSys(rs[..|rs| - 1]) + rs[|rs| - 1].sys
  }

  /** The reading a decoded row adds to `core` under `tag`: a CPUnn row above the noise floor. */
  function Reading(row: Row, tag: string, core: string): Option<CoreReading> {
    if row.Core? && row.tag == tag && row.core == core && row.user + row.sys > NoiseFloor
    then Some(CoreReading(row.user, row.sys)) else None
  }

  /** The sums of `core` under `tag` in `d` are those of `c` plus `reading`, if any. */
  predicate CoresAfter(c: Capture, d: Capture, reading: Option<CoreReading>, tag: string, core: string) {
    match reading
    case None =>
      (core in SumsOf(d.cores, tag) <==> core in SumsOf(c.cores, tag)) &&
      (core in SumsOf(c.cores, tag) ==> SumsOf(d.cores, tag)[core] == SumsOf(c.cores, tag)[core])
    case Some(r) =>
      core in SumsOf(d.cores, tag) &&
      SumsOf(d.cores, tag)[core] ==
        if core in SumsOf(c.cores, tag)
        then CoreSum(SumsOf(c.cores, tag)[core].userSum + r.user, SumsOf(c.cores, tag)[core].sysSum + r.sys,
                     SumsOf(c.cores, tag)[core].count + 1)
        else CoreSum(r.user, r.sys, 1)
  }

  lemma ApplyCore(c: Capture, row: Row, tag: string, core: string)
    ensures CoresAfter(c, Apply(c, row), Reading(row, tag, core), tag, core)
  {
    ApplyFrame(c, row);
  }

  /** An accepted CPUnn line adds its reading to its core's sums and one to the count; no other line changes them. */
  lemma StepCore(c: Capture, line: string, tag: string, core: string)
    ensures CoresAfter(c, Step(c, line), LineCore(line, tag, core), tag, core)
  {
    RowReading(line, tag, core);
    ApplyCore(c, RowOf(line), tag, core);
  }

  lemma RowReading(line: string, tag: string, core: string)
    ensures LineCore(line, tag, core) == Reading(RowOf(line), tag, core)
  {
    match Fields(line)
    case None =>
    case Some(parts) => ClassifyCore(parts);
  }

  /** Each core's running sums are the sums of its accepted readings, and its count is how many there were. */
  lemma {:induction false} CoresAreSums(lines: seq<string>, tag: string, core: string)
    ensures core in SumsOf(ParseLines(lines).cores, tag) <==> |CoreRows(lines, tag, core)| > 0
    ensures core in SumsOf(ParseLines(lines).cores, tag) ==>
      var s := SumsOf(ParseLines(lines).cores, tag)[core];
      var rs := CoreRows(lines, tag, core);
      s.count == |rs| && s.userSum == SumUser(rs) && s.sysSum == SumSys(rs)
    decreases |lines|
  {
    if |lines| > 0 {
      var prefix := lines[..|lines| - 1];
      var last := lines[|lines| - 1];
      CoresAreSums(prefix, tag, core);
      StepCore(ParseLines(prefix), last, tag, core);
      SumsExtend(ParseLines(prefix), ParseLines(lines), LineCore(last, tag, core), CoreRows(prefix, tag, core), tag, core);
    }
  }

  /** The sums that agree with `rs` agree with `rs` extended by the next reading. */
  lemma SumsExtend(c: Capture, d: Capture, reading: Option<CoreReading>, rs: seq<CoreReading>, tag: string, core: string)
    requires CoresAfter(c, d, reading, tag, core)
    requires core in SumsOf(c.cores, tag) <==> |rs| > 0
    requires core in SumsOf(c.cores, tag) ==>
      var s := SumsOf(c.cores, tag)[core];
      s.count == |rs| && s.userSum == SumUser(rs) && s.sysSum == SumSys(rs)
    ensures var next := rs + if reading.Some? then [reading.value] else [];
      (core in SumsOf(d.cores, tag) <==> |next| > 0) &&
      (core in SumsOf(d.cores, tag) ==>
        var s := SumsOf(d.cores, tag)[core];
        s.count == |next| && s.userSum == SumUser(next) && s.sysSum == SumSys(next))
  {
    match reading
    case None =>
      assert rs + [] == rs;
    case Some(r) =>
      SumsSnoc(rs, r);
  }

  lemma SumsSnoc(rs: seq<CoreReading>, r: CoreReading)
    ensures SumUser(rs + [r]) == SumUser(rs) + r.user
    ensures SumSys(rs + [r]) == SumSys(rs) + r.sys
  {
    assert (rs + [r])[..|rs|] == rs;
  }
}
