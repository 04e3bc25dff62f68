/**
 * What reading a whole file amounts to, stated against reference
 * definitions of "the first", "the last" and "all, in file order" of the
 * rows of each kind: the first header of a discovered-schema section is the
 * one kept, the last valid row of a fixed-schema section for a tag is its
 * record, TOP samples are kept in file order, the per-core sums add up the
 * accepted rows, and the last AAA row of each kind sets the node and the
 * fallback date.
 */
module CaptureLaws {
  import opened Wrappers
  import opened Text
  import opened Decode
  import opened Capture

  // ---------------------------------------------------------------------------
  // The document keys
  // ---------------------------------------------------------------------------

  /** The section whose records a document stores under `name`, if any, looked up by its first letter. */
  function SectionNamed(name: string): Option<Section> {
    if |name| == 0 then None
    else if name[0] == 'c' then
      if name == "cpu_all" then Some(CpuAllTable) else if name == "cpu_use" then Some(CpuUseTable) else None
    else if name[0] == 'd' then
      if name == "diskread" then Some(DiskReadTable) else if name == "diskwrite" then Some(DiskWriteTable)
      else if name == "diskbusy" then Some(DiskBusyTable) else if name == "diskwait" then Some(DiskWaitTable) else None
    else if name[0] == 'f' then
      if name == "file_io" then Some(FileIoTable) else if name == "fc" then Some(FcTable)
      else if name == "fcxfer" then Some(FcXferTable) else None
    else if name[0] == 'j' then
      if name == "jfsfile" then Some(JfsFileTable) else None
    else if name[0] == 'l' then
      if name == "lpar" then Some(LparTable) else None
    else if name[0] == 'm' then
      if name == "memnew" then Some(MemNewTable) else if name == "mem" then Some(MemTable)
      else if name == "mem_mb" then Some(MemMbTable) else if name == "memuse" then Some(MemUseTable) else None
    else if name[0] == 'n' then
      if name == "net" then Some(NetTable) else if name == "netpacket" then Some(NetPacketTable)
      else if name == "netsize" then Some(NetSizeTable) else None
    else if name[0] == 'p' then
      if name == "proc" then Some(ProcTable) else if name == "page" then Some(PageTable) else None
    else if name[0] == 's' then
      if name == "sea" then Some(SeaTable) else if name == "seapacket" then Some(SeaPacketTable)
      else if name == "seachphy" then Some(SeaChPhyTable) else None
    else if name[0] == 'v' then
      if name == "vgread" then Some(VgReadTable) else if name == "vgwrite" then Some(VgWriteTable)
      else if name == "vgbusy" then Some(VgBusyTable) else if name == "vgsize" then Some(VgSizeTable) else None
    else None
  }

  /** Each section's key names that section back, and no key is the timestamp's. */
  lemma NameIsKey(s: Section)
    ensures SectionNamed(Name(s)) == Some(s)
    ensures Name(s) != "@timestamp"
  {
    match s
    case CpuAllTable =>    case LparTable =>      case ProcTable =>      case FileIoTable =>
    case MemNewTable =>    case MemTable =>       case MemMbTable =>     case NetTable =>
    case NetPacketTable => case DiskReadTable =>  case DiskWriteTable => case DiskBusyTable =>
    case DiskWaitTable =>  case VgReadTable =>    case VgWriteTable =>   case VgBusyTable =>
    case VgSizeTable =>    case JfsFileTable =>   case MemUseTable =>    case PageTable =>
    case SeaTable =>       case SeaPacketTable => case SeaChPhyTable =>  case NetSizeTable =>
    case FcTable =>        case FcXferTable =>    case CpuUseTable =>
  }

  /**
   * Two sections never share a document key, and none uses `@timestamp`:
   * a document holds one entry per section beside its timestamp, so the
   * `len(doc) > 1` test asks for at least one section.
   */
  lemma NameInjective(s: Section, t: Section)
    ensures Name(s) == Name(t) ==> s == t
    ensures Name(s) != "@timestamp"
  {
    NameIsKey(s);
    NameIsKey(t);
  }

  // ---------------------------------------------------------------------------
  // The invariant
  // ---------------------------------------------------------------------------

  lemma InitialInv()
    ensures Inv(Initial())
  {
  }

  lemma TimestampInv(c: Capture, tag: string, dateField: string, timeField: string)
    requires Inv(c)
    ensures Inv(ApplyTimestamp(c, tag, dateField, timeField))
  {
    var d := ApplyTimestamp(c, tag, dateField, timeField);
    assert forall t :: t in d.zzzz ==> d.zzzz[t] != [];
  }

  lemma ProcessInv(c: Capture, tag: string, sample: TopSample)
    requires Inv(c)
    ensures Inv(ApplyProcess(c, tag, sample))
  {
  }

  /** Every row keeps the order sequences in step with their dictionaries. */
  lemma ApplyInv(c: Capture, row: Row)
    requires Inv(c)
    ensures Inv(Apply(c, row))
  {
    match row
    case Timestamp(tag, dateField, timeField) => TimestampInv(c, tag, dateField, timeField);
    case Process(tag, sample) => ProcessInv(c, tag, sample);
    case _ =>
  }

  lemma {:induction false} ParseLinesInv(lines: seq<string>)
    ensures Inv(ParseLines(lines))
    decreases |lines|
  {
    if |lines| > 0 {
      ParseLinesInv(lines[..|lines| - 1]);
      ApplyInv(ParseLines(lines[..|lines| - 1]), RowOf(lines[|lines| - 1]));
    }
  }

  // ---------------------------------------------------------------------------
  // Which branch a key selects
  // ---------------------------------------------------------------------------

  /** Each name the source compares row keys with selects its own branch. */
  lemma KindOfNames()
    ensures KindOf("ZZZZ") == ZzzzKey && KindOf("AAA") == AaaKey && KindOf("TOP") == TopKey && KindOf("MEM") == MemKey
    ensures KindOf("CPU_ALL") == FixedKey(CpuAllTable) && KindOf("LPAR") == FixedKey(LparTable)
    ensures KindOf("PROC") == FixedKey(ProcTable) && KindOf("MEMNEW") == FixedKey(MemNewTable)
    ensures KindOf("MEMUSE") == FixedKey(MemUseTable) && KindOf("PAGE") == FixedKey(PageTable)
  {
    assert !IsDigit("CPU_ALL"[3]);
  }

  /** The row key of each header-driven section; "" for the others. */
  function HeaderKey(t: Section): string {
    match t
    case FileIoTable => "FILE"          case NetTable => "NET"              case NetPacketTable => "NETPACKET"
    case DiskReadTable => "DISKREAD"    case DiskWriteTable => "DISKWRITE"  case DiskBusyTable => "DISKBUSY"
    case DiskWaitTable => "DISKWAIT"    case VgReadTable => "VGREAD"        case VgWriteTable => "VGWRITE"
    case VgBusyTable => "VGBUSY"        case VgSizeTable => "VGSIZE"        case JfsFileTable => "JFSFILE"
    case SeaTable => "SEA"              case SeaPacketTable => "SEAPACKET"  case SeaChPhyTable => "SEACHPHY"
    case _ => ""
  }

  /** The fifteen header-driven row keys. */
  const HeaderKeys: set<string> := {"FILE", "NET", "NETPACKET", "DISKREAD", "DISKWRITE", "DISKBUSY",
    "DISKWAIT", "VGREAD", "VGWRITE", "VGBUSY", "VGSIZE", "JFSFILE", "SEA", "SEAPACKET", "SEACHPHY"}

  /** A branch is selected only by its own name. */
  lemma KindOfSound(key: string)
    ensures KindOf(key) == ZzzzKey ==> key == "ZZZZ"
    ensures KindOf(key) == AaaKey ==> key == "AAA"
    ensures KindOf(key) == TopKey ==> key == "TOP"
    ensures KindOf(key) == MemKey ==> key == "MEM"
    ensures KindOf(key) == CoreKey <==> IsCoreKey(key)
    ensures KindOf(key).FixedKey? ==> key == SectionKey(KindOf(key).section)
  {
  }

  /**
   * Only the fifteen header-driven names select the header-driven branch,
   * each for its own table.
   */
  lemma KindOfDiscoveredSound(key: string)
    ensures KindOf(key).DiscoveredKey? ==> key == HeaderKey(KindOf(key).schema.table)
    ensures KindOf(key).DiscoveredKey? ==> key in HeaderKeys
  {
    if KindOf(key).DiscoveredKey? {
      DiscoveredByLength(key, |key|);
    }
  }

  /** The same, one length of key at a time. */
  lemma DiscoveredByLength(key: string, n: nat)
    requires |key| == n && KindOf(key).DiscoveredKey?
    ensures key == HeaderKey(KindOf(key).schema.table) && key in HeaderKeys
  {
    assert !IsCoreKey(key);
    if n == 3 {
      assert key == "NET" || key == "SEA";
    } else if n == 4 {
      assert key == "FILE";
    } else if n == 6 {
      assert key == "VGREAD" || key == "VGBUSY" || key == "VGSIZE";
    } else if n == 7 {
      assert key == "VGWRITE" || key == "JFSFILE";
    } else if n == 8 {
      DiscoveredLength8(key);
    } else {
      assert key == "NETPACKET" || key == "DISKWRITE" || key == "SEAPACKET";
    }
  }

  lemma DiscoveredLength8(key: string)
    requires |key| == 8 && !IsCoreKey(key) && KindOf(key).DiscoveredKey?
    ensures key == HeaderKey(KindOf(key).schema.table) && key in HeaderKeys
  {
    assert key == "DISKREAD" || key == "DISKBUSY" || key == "DISKWAIT" || key == "SEACHPHY";
  }

  /**
   * The header-driven sections and the rules the source applies to each:
   * FILE recognises its header by the "File I/O" marker; NET and NETPACKET
   * decode data rows even before a header; every other section drops data
   * rows until its header has been taken.
   */
  lemma KindOfSchemas()
    ensures KindOf("FILE") == DiscoveredKey(Schema(FileIoTable, FileIoMarker, 2, true))
    ensures KindOf("NET") == DiscoveredKey(Schema(NetTable, Untagged, 3, false))
    ensures KindOf("NETPACKET") == DiscoveredKey(Schema(NetPacketTable, Untagged, 3, false))
    ensures KindOf("JFSFILE") == DiscoveredKey(Schema(JfsFileTable, Untagged, 2, true))
    ensures KindOf("SEA") == DiscoveredKey(Schema(SeaTable, Untagged, 2, true))
    ensures KindOf("SEAPACKET") == DiscoveredKey(Schema(SeaPacketTable, Untagged, 2, true))
    ensures KindOf("SEACHPHY") == DiscoveredKey(Schema(SeaChPhyTable, Untagged, 2, true))
  {
  }

  /** The DISK and VG sections: an untagged header row, and data rows of more than two fields after it. */
  lemma KindOfDiskSchemas()
    ensures KindOf("DISKREAD") == DiscoveredKey(Schema(DiskReadTable, Untagged, 3, true))
    ensures KindOf("DISKWRITE") == DiscoveredKey(Schema(DiskWriteTable, Untagged, 3, true))
    ensures KindOf("DISKBUSY") == DiscoveredKey(Schema(DiskBusyTable, Untagged, 3, true))
    ensures KindOf("DISKWAIT") == DiscoveredKey(Schema(DiskWaitTable, Untagged, 3, true))
    ensures KindOf("VGREAD") == DiscoveredKey(Schema(VgReadTable, Untagged, 3, true))
    ensures KindOf("VGWRITE") == DiscoveredKey(Schema(VgWriteTable, Untagged, 3, true))
    ensures KindOf("VGBUSY") == DiscoveredKey(Schema(VgBusyTable, Untagged, 3, true))
    ensures KindOf("VGSIZE") == DiscoveredKey(Schema(VgSizeTable, Untagged, 3, true))
  {
  }

  // ---------------------------------------------------------------------------
  // What each kind of row becomes
  // ---------------------------------------------------------------------------

  /** `ZZZZ,tag,time,date` with at least four fields, and nothing else, is a timestamp row. */
  lemma ClassifyTimestamp(parts: seq<string>)
    requires |parts| >= 1
    ensures Classify(parts).Timestamp? <==> parts[0] == "ZZZZ" && |parts| >= 4
    ensures Classify(parts).Timestamp? ==> Classify(parts) == Timestamp(parts[1], parts[3], parts[2])
  {
  }

  /** `AAA,NodeName,x` and `AAA,date,x`, and nothing else, set the node and the fallback date. */
  lemma ClassifyMeta(parts: seq<string>)
    requires |parts| >= 1
    ensures Classify(parts).NodeName? <==> parts[0] == "AAA" && |parts| > 2 && parts[1] == "NodeName"
    ensures Classify(parts).FallbackDate? <==> parts[0] == "AAA" && |parts| > 2 && parts[1] == "date"
    ensures Classify(parts).NodeName? ==> Classify(parts).node == parts[2]
    ensures Classify(parts).FallbackDate? ==> Classify(parts).date == parts[2]
  {
  }

  /** A TOP row with a tag in its third field and a %CPU that decodes, and nothing else, is a sample. */
  lemma ClassifyProcess(parts: seq<string>)
    requires |parts| >= 1
    ensures Classify(parts).Process? <==>
      parts[0] == "TOP" && |parts| > 2 && StartsWithT(parts[2]) && DecodeTop(parts).Some?
    ensures Classify(parts).Process? ==> Classify(parts) == Process(parts[2], DecodeTop(parts).value)
  {
    if parts[0] == "TOP" {
      assert KindOf(parts[0]) == TopKey;
    } else {
      KindOfSound(parts[0]);
    }
  }

  /** A tagged `CPUnn` row whose user and system fields decode, and nothing else, is a core sample. */
  lemma ClassifyCore(parts: seq<string>)
    requires |parts| >= 1
    ensures Classify(parts).Core? <==> Tagged(parts) && IsCoreKey(parts[0]) && Numeric(parts, 2) && Numeric(parts, 3)
    ensures Classify(parts).Core? ==>
      Classify(parts) == Core(parts[1], parts[0][3..], Num(parts, 2).value, Num(parts, 3).value)
  {
  }

  /** Every row of a discovered-schema key, and nothing else, is a discovered-schema row. */
  lemma ClassifyDiscovered(parts: seq<string>)
    requires |parts| >= 1
    ensures Classify(parts).Discovered? <==> KindOf(parts[0]).DiscoveredKey?
    ensures Classify(parts).Discovered? ==>
      Classify(parts) == Discovered(parts[0], KindOf(parts[0]).schema, parts, RowValues(parts))
  {
  }

  /** A tagged row of a fixed-schema section other than MEM whose fields decode, and nothing else, is its record. */
  lemma ClassifyFixed(parts: seq<string>)
    requires |parts| >= 1
    ensures Classify(parts).Fixed? <==>
      KindOf(parts[0]).FixedKey? && Tagged(parts) && FixedDecode(KindOf(parts[0]).section, parts).Some?
    ensures Classify(parts).Fixed? ==>
      Classify(parts) == Fixed(KindOf(parts[0]).section, parts[1], FixedDecode(KindOf(parts[0]).section, parts).value)
  {
    match KindOf(parts[0])
    case FixedKey(s) =>
    case _ =>
  }

  /** A tagged MEM row whose percentages decode, and nothing else, is a memory row. */
  lemma ClassifyMem(parts: seq<string>)
    requires |parts| >= 1
    ensures Classify(parts).MemUsage? <==> parts[0] == "MEM" && Tagged(parts) && DecodeMem(parts).percent.Some?
    ensures Classify(parts).MemUsage? ==>
      Classify(parts) == MemUsage(parts[1], DecodeMem(parts).percent.value, DecodeMem(parts).megabytes)
  {
    if parts[0] == "MEM" {
      assert KindOf(parts[0]) == MemKey;
    } else {
      KindOfSound(parts[0]);
      match KindOf(parts[0])
      case MemKey =>
      case _ =>
    }
  }
}
