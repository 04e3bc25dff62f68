/**
 * The state `parse_nmon_file` builds while it reads a capture file line by
 * line: the timestamp of every snapshot tag, the node name, the per-section
 * tables of records by tag, the column headers of the discovered-schema
 * sections, the per-core CPU sums and the TOP samples. `Step` is the effect
 * of one line; `ParseLines` folds it over a file.
 */
module Capture {
  import opened Wrappers
  import opened Text
  import opened Decode

  /** The per-tag tables of the result, one per output section. */
  datatype Section =
    | CpuAllTable | LparTable | ProcTable | FileIoTable | MemNewTable | MemTable | MemMbTable
    | NetTable | NetPacketTable
    | DiskReadTable | DiskWriteTable | DiskBusyTable | DiskWaitTable
    | VgReadTable | VgWriteTable | VgBusyTable | VgSizeTable
    | JfsFileTable | MemUseTable | PageTable | SeaTable | SeaPacketTable | SeaChPhyTable
    | NetSizeTable | FcTable | FcXferTable | CpuUseTable

  /** The JSON key under which a section's record appears in a document. */
  function Name(s: Section): string {
    match s
    case CpuAllTable => "cpu_all"       case LparTable => "lpar"           case ProcTable => "proc"
    case FileIoTable => "file_io"       case MemNewTable => "memnew"       case MemTable => "mem"
    case MemMbTable => "mem_mb"         case NetTable => "net"             case NetPacketTable => "netpacket"
    case DiskReadTable => "diskread"    case DiskWriteTable => "diskwrite" case DiskBusyTable => "diskbusy"
    case DiskWaitTable => "diskwait"    case VgReadTable => "vgread"       case VgWriteTable => "vgwrite"
    case VgBusyTable => "vgbusy"        case VgSizeTable => "vgsize"       case JfsFileTable => "jfsfile"
    case MemUseTable => "memuse"        case PageTable => "page"           case SeaTable => "sea"
    case SeaPacketTable => "seapacket"  case SeaChPhyTable => "seachphy"   case NetSizeTable => "netsize"
    case FcTable => "fc"                case FcXferTable => "fcxfer"       case CpuUseTable => "cpu_use"
  }

  // ---------------------------------------------------------------------------
  // Discovered-schema sections
  // ---------------------------------------------------------------------------

  /**
   * How a discovered-schema section recognises its header row: FILE by the
   * text "File I/O" in its second field, every other one by a second field
   * that does not start with 'T'.
   */
  datatype HeaderRule = FileIoMarker | Untagged

  /**
   * A discovered-schema section: the table its rows fill, how its header is
   * recognised, how many fields a data row needs (`len(parts) > 1` or `> 2`)
   * and whether a data row is dropped until the header has been seen (NET
   * and NETPACKET decode data rows against an empty header instead).
   */
  datatype Schema = Schema(table: Section, rule: HeaderRule, minDataParts: nat, needsHeader: bool)

  /**
   * The schemas the source's sections have: a data row needs at least two
   * fields, the table is not a fixed-schema one, and only a section whose
   * header is an untagged row decodes data rows before its header.
   */
  type SectionSchema = s: Schema | s.minDataParts >= 2 && !IsFixed(s.table) && (!s.needsHeader ==> s.rule == Untagged)
    witness Schema(NetTable, Untagged, 3, false)

  /** The row is one its section accepts as the header (when no header has been taken yet). */
  predicate HeaderRow(s: Schema, parts: seq<string>) {
    |parts| > 2 &&
    match s.rule
    case FileIoMarker => Contains(parts[1], "File I/O")
    case Untagged => !StartsWithT(parts[1])
  }

  /** The row is long enough and tagged, as its section requires of a data row. */
  predicate DataRow(s: Schema, parts: seq<string>) {
    |parts| >= s.minDataParts && |parts| > 1 && StartsWithT(parts[1])
  }

  // ---------------------------------------------------------------------------
  // The state
  // ---------------------------------------------------------------------------

  /**
   * What has been read so far. `zzzzOrder` and `topOrder` keep the keys of
   * `zzzz` and `top` in first-insertion order, as Python dictionaries
   * iterate. `node` and `fallbackDate` are "" until an AAA row sets them
   * (the source's `None`, which it tests by truthiness as it does ""). A
   * discovered-schema section's key is in `headers` once it has taken its
   * header (`*_header_parsed`).
   */
  datatype Capture = Capture(
    zzzz: map<string, string>, zzzzOrder: seq<string>,
    node: string, fallbackDate: string,
    tables: map<Section, map<string, Record>>,
    headers: map<string, seq<string>>,
    cores: CoreSums,
    top: map<string, seq<TopSample>>, topOrder: seq<string>)

  /** The state before the first line. */
  function Initial(): Capture {
    Capture(map[], [], "", "", map[], map[], map[], map[], [])
  }

  /** One section's records by tag. */
  function Table(c: Capture, s: Section): map<string, Record> {
    if s in c.tables then c.tables[s] else map[]
  }

  /** The column names a section decodes with: its header, or none yet. */
  function HeaderOf(c: Capture, key: string): seq<string> {
    if key in c.headers then c.headers[key] else []
  }

  /** A tag's TOP samples so far. */
  function TopOf(c: Capture, tag: string): seq<TopSample> {
    if tag in c.top then c.top[tag] else []
  }

  /** Store `r` as the record of `tag` in section `s`, replacing any earlier one. */
  function Put(c: Capture, s: Section, tag: string, r: Record): (d: Capture)
    ensures Table(d, s) == Table(c, s)[tag := r]
    ensures forall t :: t != s ==> Table(d, t) == Table(c, t)
    ensures d == c.(tables := d.tables)
  {
    c.(tables := c.tables[s := Table(c, s)[tag := r]])
  }

  /** `len(parts) > 1 and parts[1].startswith('T')`: a row of snapshot `parts[1]`. */
  predicate Tagged(parts: seq<string>) {
    |parts| > 1 && StartsWithT(parts[1])
  }

  // ---------------------------------------------------------------------------
  // One line: what the row says, then what it does to the state
  // ---------------------------------------------------------------------------

  /**
   * What one non-blank row means, decoded as far as it can be without the
   * state. A fixed-schema row whose fields do not decode, a TOP row whose
   * %CPU does not, a CPUnn row whose user or system field does not, and any
   * row that matches no branch of the source become `Skip`.
   */
  datatype Row =
    | Skip
    | Timestamp(tag: string, dateField: string, timeField: string)
    | NodeName(node: string)
    | FallbackDate(date: string)
    | Process(tag: string, sample: TopSample)
    | Core(tag: string, core: string, user: real, sys: real)
    | Fixed(section: Section, tag: string, record: Record)
    | MemUsage(tag: string, percent: Record, megabytes: Option<Record>)
    | Discovered(key: string, schema: SectionSchema, parts: seq<string>, values: seq<real>)

  /** The key of the fixed-schema sections' rows (MEM fills two tables); "" for the others. */
  function SectionKey(s: Section): string {
    match s
    case CpuAllTable => "CPU_ALL"   case LparTable => "LPAR"     case ProcTable => "PROC"
    case MemNewTable => "MEMNEW"    case MemTable => "MEM"       case MemMbTable => "MEM"
    case MemUseTable => "MEMUSE"    case PageTable => "PAGE"
    case _ => ""
  }

  /** The sections whose rows have a fixed layout. */
  predicate IsFixed(s: Section) {
    s.CpuAllTable? || s.LparTable? || s.ProcTable? || s.MemNewTable? || s.MemTable? || s.MemMbTable?
    || s.MemUseTable? || s.PageTable?
  }

  /** The fixed-schema sections with a key of their own (MEM's two tables share one branch). */
  type FixedSection = s: Section | IsFixed(s) && s != MemTable && s != MemMbTable witness CpuAllTable

  /** Which branch of the source's loop a row key selects. */
  datatype KeyKind =
    | CoreKey | ZzzzKey | AaaKey | TopKey | MemKey
    | FixedKey(section: FixedSection)
    | DiscoveredKey(schema: SectionSchema)
    | OtherKey

  /**
   * The branch selected by `key`. The source compares the key with each
   * section name in turn and matches `^CPU\d+$` for the per-core rows; the
   * names are distinct, so the order of the comparisons does not matter,
   * and they are grouped here by length.
   */
  function KindOf(key: string): (r: KeyKind)
    ensures r.CoreKey? ==> IsCoreKey(key)
  {
    if IsCoreKey(key) then CoreKey
    else if |key| == 3 then
      if key == "AAA" then AaaKey
      else if key == "TOP" then TopKey
      else if key == "MEM" then MemKey
      else if key == "NET" then DiscoveredKey(Schema(NetTable, Untagged, 3, false))
      else if key == "SEA" then DiscoveredKey(Schema(SeaTable, Untagged, 2, true))
      else OtherKey
    else if |key| == 4 then
      if key == "ZZZZ" then ZzzzKey
      else if key == "LPAR" then FixedKey(LparTable)
      else if key == "PROC" then FixedKey(ProcTable)
      else if key == "PAGE" then FixedKey(PageTable)
      else if key == "FILE" then DiscoveredKey(Schema(FileIoTable, FileIoMarker, 2, true))
      else OtherKey
    else if |key| == 6 then
      if key == "MEMNEW" then FixedKey(MemNewTable)
      else if key == "MEMUSE" then FixedKey(MemUseTable)
      else if key == "VGREAD" then DiscoveredKey(Schema(VgReadTable, Untagged, 3, true))
      else if key == "VGBUSY" then DiscoveredKey(Schema(VgBusyTable, Untagged, 3, true))
      else if key == "VGSIZE" then DiscoveredKey(Schema(VgSizeTable, Untagged, 3, true))
      else OtherKey
    else if |key| == 7 then
      if key == "CPU_ALL" then FixedKey(CpuAllTable)
      else if key == "VGWRITE" then DiscoveredKey(Schema(VgWriteTable, Untagged, 3, true))
      else if key == "JFSFILE" then DiscoveredKey(Schema(JfsFileTable, Untagged, 2, true))
      else OtherKey
    else if |key| == 8 then
      if key == "DISKREAD" then DiscoveredKey(Schema(DiskReadTable, Untagged, 3, true))
      else if key == "DISKBUSY" then DiscoveredKey(Schema(DiskBusyTable, Untagged, 3, true))
      else if key == "DISKWAIT" then DiscoveredKey(Schema(DiskWaitTable, Untagged, 3, true))
      else if key == "SEACHPHY" then DiscoveredKey(Schema(SeaChPhyTable, Untagged, 2, true))
      else OtherKey
    else if |key| == 9 then
      if key == "NETPACKET" then DiscoveredKey(Schema(NetPacketTable, Untagged, 3, false))
      else if key == "DISKWRITE" then DiscoveredKey(Schema(DiskWriteTable, Untagged, 3, true))
      else if key == "SEAPACKET" then DiscoveredKey(Schema(SeaPacketTable, Untagged, 2, true))
      else OtherKey
    else OtherKey
  }

  /** The decoder of each fixed-schema section (MEM's two records are decoded together). */
  function FixedDecode(s: Section, parts: seq<string>): Option<Record> {
    match s
    case CpuAllTable => DecodeCpuAll(parts)
    case LparTable => DecodeLpar(parts)
    case ProcTable => DecodeProc(parts)
    case MemNewTable => DecodeMemNew(parts)
    case MemTable => DecodeMem(parts).percent
    case MemMbTable => DecodeMem(parts).megabytes
    case MemUseTable => DecodeMemUse(parts)
    case PageTable => DecodePage(parts)
    case _ => None
  }

  /**
   * The branch of the source's loop a row takes, and what it decodes. ZZZZ
   * needs four fields, AAA and TOP three; the fixed-schema sections and
   * CPUnn need a tagged second field; TOP takes its tag from the third field.
   */
  function Classify(parts: seq<string>): Row
    requires |parts| >= 1
  {
    match KindOf(parts[0])
    case ZzzzKey => if |parts| >= 4 then Timestamp(parts[1], parts[3], parts[2]) else Skip
    case AaaKey =>
      if |parts| > 2 && parts[1] == "NodeName" then NodeName(parts[2])
      else if |parts| > 2 && parts[1] == "date" then FallbackDate(parts[2])
      else Skip
    case TopKey =>
      if |parts| > 2 && StartsWithT(parts[2]) && DecodeTop(parts).Some? then Process(parts[2], DecodeTop(parts).value)
      else Skip
    case CoreKey =>
      if Tagged(parts) && Numeric(parts, 2) && Numeric(parts, 3)
      then Core(parts[1], parts[0][3..], Num(parts, 2).value, Num(parts, 3).value)
      else Skip
    case MemKey =>
      if Tagged(parts) && DecodeMem(parts).percent.Some?
      then MemUsage(parts[1], DecodeMem(parts).percent.value, DecodeMem(parts).megabytes)
      else Skip
    case FixedKey(section) =>
      if Tagged(parts) && FixedDecode(section, parts).Some? then Fixed(section, parts[1], FixedDecode(section, parts).value)
      else Skip
    case DiscoveredKey(schema) => Discovered(parts[0], schema, parts, RowValues(parts))
    case OtherKey => Skip
  }

  /**
   * A discovered-schema row: the first header row is kept, later ones are
   * ignored; a data row is decoded against the header, or against no
   * columns when its section does not wait for a header.
   */
  function ApplyDiscovered(c: Capture, key: string, s: Schema, parts: seq<string>, values: seq<real>): (d: Capture)
    ensures d == c.(tables := d.tables, headers := d.headers)
  {
    if key !in c.headers && HeaderRow(s, parts) then c.(headers := c.headers[key := parts[2..]])
    else if DataRow(s, parts) && (key in c.headers || !s.needsHeader) then
      Put(c, s.table, parts[1], Columns(DecodeColumns(HeaderOf(c, key), values)))
    else c
  }

  /** `zzzz_map[tag] = date + " " + time`: a tag seen again keeps its place in the order. */
  function ApplyTimestamp(c: Capture, tag: string, dateField: string, timeField: string): Capture {
    c.(zzzz := c.zzzz[tag := ResolveTimestamp(dateField, timeField, c.fallbackDate)],
       zzzzOrder := if tag in c.zzzz then c.zzzzOrder else c.zzzzOrder + [tag])
  }

  /** `top_data_by_tag.setdefault(tag, []).append(sample)`. */
  function ApplyProcess(c: Capture, tag: string, sample: TopSample): Capture {
    c.(top := c.top[tag := TopOf(c, tag) + [sample]],
       topOrder := if tag in c.top then c.topOrder else c.topOrder + [tag])
  }

  /** MEM stores its percent record, then its megabyte record when that decoded too. */
  function ApplyMem(c: Capture, tag: string, percent: Record, megabytes: Option<Record>): (d: Capture)
    ensures d == c.(tables := d.tables)
  {
    var d := Put(c, MemTable, tag, percent);
    if megabytes.Some? then Put(d, MemMbTable, tag, megabytes.value) else d
  }

  /** What a row does to the state. */
  function Apply(c: Capture, row: Row): Capture {
    match row
    case Skip => c
    case Timestamp(tag, dateField, timeField) => ApplyTimestamp(c, tag, dateField, timeField)
    case NodeName(node) => c.(node := node)
    case FallbackDate(date) => c.(fallbackDate := date)
    case Process(tag, sample) => ApplyProcess(c, tag, sample)
    case Core(tag, core, user, sys) => c.(cores := AddCoreSample(c.cores, tag, core, user, sys))
    case Fixed(section, tag, record) => Put(c, section, tag, record)
    case MemUsage(tag, percent, megabytes) => ApplyMem(c, tag, percent, megabytes)
    case Discovered(key, schema, parts, values) => ApplyDiscovered(c, key, schema, parts, values)
  }

  /** The fields of a line: stripped and split at commas; `None` for a blank line, which is skipped. */
  function Fields(line: string): (r: Option<seq<string>>)
    ensures r.Some? ==> |r.value| >= 1
  {
    var t := Strip(line);
    if t == [] then None else Some(Split(t))
  }

  /** What one line of the file means: `Skip` for a blank line. */
  function RowOf(line: string): Row {
    match Fields(line)
    case None => Skip
    case Some(parts) => Classify(parts)
  }

  /** The effect of one line of the file. */
  function Step(c: Capture, line: string): Capture {
    Apply(c, RowOf(line))
  }

  /** The state after reading `lines` in order. */
  function ParseLines(lines: seq<string>): Capture
    decreases |lines|
  {
    if |lines| == 0 then Initial()
    else Step(ParseLines(lines[..|lines| - 1]), lines[|lines| - 1])
  }

  // ---------------------------------------------------------------------------
  // The invariant every reachable state keeps
  // ---------------------------------------------------------------------------

  /** No key occurs twice. */
  predicate Distinct(keys: seq<string>) {
    forall i, j :: 0 <= i < j < |keys| ==> keys[i] != keys[j]
  }

  /**
   * The order sequences list exactly the keys of their dictionaries, once
   * each; every timestamp is non-empty (so `if not dt` never skips a tag that
   * has one); every tag in `top` has at least one sample.
   */
  ghost predicate Inv(c: Capture) {
    && (forall t :: t in c.zzzz <==> t in c.zzzzOrder) && Distinct(c.zzzzOrder)
    && (forall t :: t in c.zzzz ==> c.zzzz[t] != [])
    && (forall t :: t in c.top <==> t in c.topOrder) && Distinct(c.topOrder)
    && (forall t :: t in c.top ==> c.top[t] != [])
  }
}
