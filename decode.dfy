/**
 * How one comma-split row of a capture file is turned into named values:
 * the fixed-schema sections (CPU_ALL, LPAR, PROC, MEMNEW, MEM, MEMUSE, PAGE),
 * the column-by-column decode of discovered-schema sections, the TOP
 * process sample, the per-core CPU running sums and the ZZZZ timestamp.
 */
module Decode {
  import opened Wrappers
  import opened Text

  /**
   * One section's record for one tag. The fixed-schema sections have named
   * fields (each field's JSON key is written beside it); a discovered-schema
   * section maps its header's column names to values; `cpu_use` maps each
   * core id to its averages.
   */
  datatype Record =
    | CpuAll(user: real, sys: real, wait: real, idle: real)            // User% Sys% Wait% Idle%
    | Lpar(physicalCpu: real, virtualCpus: real, entitled: real)       // PhysicalCPU VirtualCPUs Entitled
    | Proc(runnable: real, swapIn: real, pswitch: real, syscall: real, // Runnable Swap-in pswitch syscall
           read: real, write: real, fork: real, exec: real,            // read write fork exec
           sem: real, msg: real)                                       // sem msg
    | MemNew(process: real, fsCache: real, system: real, free: real,   // Process% FScache% System% Free%
             pinned: real, userPct: real)                              // Pinned% User%
    | Mem(realUsed: real, virtualUsed: real)                           // Real_Used% Virtual_Used%
    | MemMb(realFree: real, virtualFree: real, realTotal: real,        // Real_Free_MB Virtual_Free_MB Real_Total_MB
            virtualTotal: real, realUsedMb: real, virtualUsedMb: real) // Virtual_Total_MB Real_Used_MB Virtual_Used_MB
    | MemUse(numperm: real, minperm: real, maxperm: real)              // numperm minperm maxperm
    | Page(pgin: real, pgout: real, pgsin: real, pgsout: real)         // pgin pgout pgsin pgsout
    | Columns(columns: map<string, real>)
    | CoreUse(cores: map<string, CoreAverage>)                         // {core: {user, sys}}

  // ---------------------------------------------------------------------------
  // Field coercion
  // ---------------------------------------------------------------------------

  /**
   * A required field of a fixed-schema row, `float(parts[i]) if parts[i].strip() else 0.0`:
   * `None` when the row is too short (IndexError) or the text is not a number
   * (ValueError); either one drops the whole row.
   */
  function Num(parts: seq<string>, i: nat): (r: Option<real>)
    ensures i >= |parts| ==> r == None
    ensures i < |parts| && Strip(parts[i]) == [] ==> r == Some(0.0)
  {
    if i < |parts| then (if Strip(parts[i]) == [] then Some(0.0) else ParseNum(parts[i])) else None
  }

  /**
   * An optional field, `float(parts[i]) if len(parts) > i and parts[i].strip() else 0.0`:
   * a missing or blank field reads 0.0, but text that is not a number still drops the row.
   */
  function OptNum(parts: seq<string>, i: nat): (r: Option<real>)
    ensures i >= |parts| ==> r == Some(0.0)
    ensures i < |parts| ==> r == Num(parts, i)
  {
    if i < |parts| && Strip(parts[i]) != [] then ParseNum(parts[i]) else Some(0.0)
  }

  /** The required field at `i` decodes. */
  predicate Numeric(parts: seq<string>, i: nat) {
    Num(parts, i).Some?
  }

  /** The optional field at `i` is missing, blank or a number. */
  predicate OptNumeric(parts: seq<string>, i: nat) {
    OptNum(parts, i).Some?
  }

  /**
   * One column of a discovered-schema row, `float(x.strip()) if x.strip() else 0.0`
   * with the ValueError caught: every column coerces to a number on its own.
   */
  function FieldValue(x: string): real {
    if Strip(x) == [] then 0.0 else ParseNum(Strip(x)).GetOr(0.0)
  }

  /**
   * `numeric_vals`: the value of every field after the first two, each
   * coerced on its own.
   */
  function RowValues(parts: seq<string>): (r: seq<real>)
    ensures |parts| >= 2 ==> |r| == |parts| - 2
  {
    if |parts| < 2 then [] else seq(|parts| - 2, i requires 0 <= i < |parts| - 2 => FieldValue(parts[2 + i]))
  }

  /** `keys[i]` is the last column with its name: the one whose value a dictionary keeps. */
  ghost predicate LastWithName(keys: seq<string>, i: int)
    requires 0 <= i < |keys|
  {
    forall j :: i < j < |keys| ==> keys[j] != keys[i]
  }

  /**
   * The dictionary `for i, name in enumerate(keys): d[name] = values[i]`
   * builds: exactly the names are keys, and each name holds the value of its
   * LAST occurrence, later columns overwriting earlier ones.
   */
  function Zip(keys: seq<string>, values: seq<real>): (r: map<string, real>)
    requires |keys| == |values|
    ensures forall k :: k in r <==> k in keys
    ensures forall i :: 0 <= i < |keys| && LastWithName(keys, i) ==> keys[i] in r && r[keys[i]] == values[i]
    decreases |keys|
  {
    if |keys| == 0 then map[]
    else
      var n := |keys| - 1;
      assert keys == keys[..n] + [keys[n]];
      Zip(keys[..n], values[..n])[keys[n] := values[n]]
  }

  /** `values[i] if i < len(values) else 0.0` for the first `n` positions: a missing column reads 0.0. */
  function Padded(values: seq<real>, n: nat): (r: seq<real>)
    ensures |r| == n && forall i :: 0 <= i < n ==> r[i] == if i < |values| then values[i] else 0.0
  {
    seq(n, i requires 0 <= i < n => if i < |values| then values[i] else 0.0)
  }

  /**
   * The record a data row decodes to against the column names `keys`: each
   * name holds the value of the last column with that name, 0.0 when the row
   * has fewer values than the header has names.
   */
  function DecodeColumns(keys: seq<string>, values: seq<real>): (r: map<string, real>)
    ensures forall k :: k in r <==> k in keys
    ensures forall i :: 0 <= i < |keys| && LastWithName(keys, i) ==>
      keys[i] in r && r[keys[i]] == if i < |values| then values[i] else 0.0
  {
    Zip(keys, Padded(values, |keys|))
  }

  // ---------------------------------------------------------------------------
  // Fixed-schema sections
  // ---------------------------------------------------------------------------

  /** CPU_ALL: User%, Sys%, Wait% and Idle% from positions 2 to 5, all required. */
  function DecodeCpuAll(parts: seq<string>): (r: Option<Record>)
    ensures r.Some? <==> Numeric(parts, 2) && Numeric(parts, 3) && Numeric(parts, 4) && Numeric(parts, 5)
    ensures |parts| <= 5 ==> r == None
    ensures r.Some? ==> (r.value.CpuAll? && Num(parts, 2) == Some(r.value.user) && Num(parts, 3) == Some(r.value.sys)
      && Num(parts, 4) == Some(r.value.wait) && Num(parts, 5) == Some(r.value.idle))
  {
    if Numeric(parts, 2) && Numeric(parts, 3) && Numeric(parts, 4) && Numeric(parts, 5) then
      Some(CpuAll(Num(parts, 2).value, Num(parts, 3).value, Num(parts, 4).value, Num(parts, 5).value))
    else None
  }

  /** LPAR: PhysicalCPU and VirtualCPUs required at 2 and 3, Entitled optional at 6. */
  function DecodeLpar(parts: seq<string>): (r: Option<Record>)
    ensures r.Some? <==> Numeric(parts, 2) && Numeric(parts, 3) && OptNumeric(parts, 6)
    ensures r.Some? ==> (r.value.Lpar? && Num(parts, 2) == Some(r.value.physicalCpu)
      && Num(parts, 3) == Some(r.value.virtualCpus) && OptNum(parts, 6) == Some(r.value.entitled))
    ensures r.Some? && |parts| <= 6 ==> r.value.entitled == 0.0
  {
    if Numeric(parts, 2) && Numeric(parts, 3) && OptNumeric(parts, 6) then
      Some(Lpar(Num(parts, 2).value, Num(parts, 3).value, OptNum(parts, 6).value))
    else None
  }

  /**
   * PROC: six required counters at positions 2 to 7, four optional ones at
   * 8 to 11. The source merges them into the tag's record with `update`;
   * since every PROC row sets all ten keys, the merge amounts to replacing it.
   */
  function DecodeProc(parts: seq<string>): (r: Option<Record>)
    ensures r.Some? <==> (Numeric(parts, 2) && Numeric(parts, 3) && Numeric(parts, 4) && Numeric(parts, 5)
      && Numeric(parts, 6) && Numeric(parts, 7) && OptNumeric(parts, 8) && OptNumeric(parts, 9)
      && OptNumeric(parts, 10) && OptNumeric(parts, 11))
    ensures |parts| <= 7 ==> r == None
    ensures r.Some? ==> (r.value.Proc? && Num(parts, 2) == Some(r.value.runnable) && Num(parts, 3) == Some(r.value.swapIn)
      && Num(parts, 4) == Some(r.value.pswitch) && Num(parts, 5) == Some(r.value.syscall)
      && Num(parts, 6) == Some(r.value.read) && Num(parts, 7) == Some(r.value.write)
      && OptNum(parts, 8) == Some(r.value.fork) && OptNum(parts, 9) == Some(r.value.exec)
      && OptNum(parts, 10) == Some(r.value.sem) && OptNum(parts, 11) == Some(r.value.msg))
  {
    if Numeric(parts, 2) && Numeric(parts, 3) && Numeric(parts, 4) && Numeric(parts, 5)
       && Numeric(parts, 6) && Numeric(parts, 7) && OptNumeric(parts, 8) && OptNumeric(parts, 9)
       && OptNumeric(parts, 10) && OptNumeric(parts, 11)
    then
      Some(Proc(Num(parts, 2).value, Num(parts, 3).value, Num(parts, 4).value, Num(parts, 5).value,
                Num(parts, 6).value, Num(parts, 7).value, OptNum(parts, 8).value, OptNum(parts, 9).value,
                OptNum(parts, 10).value, OptNum(parts, 11).value))
    else None
  }

  /** MEMNEW: Process%, FScache%, System%, Free% required at 2 to 5; Pinned% and User% optional at 6 and 7. */
  function DecodeMemNew(parts: seq<string>): (r: Option<Record>)
    ensures r.Some? <==> (Numeric(parts, 2) && Numeric(parts, 3) && Numeric(parts, 4) && Numeric(parts, 5)
      && OptNumeric(parts, 6) && OptNumeric(parts, 7))
    ensures r.Some? ==> (r.value.MemNew? && Num(parts, 2) == Some(r.value.process) && Num(parts, 3) == Some(r.value.fsCache)
      && Num(parts, 4) == Some(r.value.system) && Num(parts, 5) == Some(r.value.free)
      && OptNum(parts, 6) == Some(r.value.pinned) && OptNum(parts, 7) == Some(r.value.userPct))
  {
    if Numeric(parts, 2) && Numeric(parts, 3) && Numeric(parts, 4) && Numeric(parts, 5)
       && OptNumeric(parts, 6) && OptNumeric(parts, 7)
    then
      Some(MemNew(Num(parts, 2).value, Num(parts, 3).value, Num(parts, 4).value, Num(parts, 5).value,
                  OptNum(parts, 6).value, OptNum(parts, 7).value))
    else None
  }

  /** MEM percent record: the used percentages are `100 - free%` from positions 2 and 3. */
  function DecodeMemPercent(parts: seq<string>): (r: Option<Record>)
    ensures r.Some? <==> Numeric(parts, 2) && Numeric(parts, 3)
    ensures r.Some? ==> (r.value.Mem? && r.value.realUsed == 100.0 - Num(parts, 2).value
      && r.value.virtualUsed == 100.0 - Num(parts, 3).value)
  {
    if Numeric(parts, 2) && Numeric(parts, 3) then
      Some(Mem(100.0 - Num(parts, 2).value, 100.0 - Num(parts, 3).value))
    else None
  }

  /** MEM megabyte record: free and total MB from positions 4 to 7, used MB as total - free. */
  function DecodeMemMb(parts: seq<string>): (r: Option<Record>)
    ensures r.Some? <==> Numeric(parts, 4) && Numeric(parts, 5) && Numeric(parts, 6) && Numeric(parts, 7)
    ensures r.Some? ==> (r.value.MemMb?
      && Num(parts, 4) == Some(r.value.realFree) && Num(parts, 5) == Some(r.value.virtualFree)
      && Num(parts, 6) == Some(r.value.realTotal) && Num(parts, 7) == Some(r.value.virtualTotal)
      && r.value.realUsedMb == r.value.realTotal - r.value.realFree
      && r.value.virtualUsedMb == r.value.virtualTotal - r.value.virtualFree)
  {
    if Numeric(parts, 4) && Numeric(parts, 5) && Numeric(parts, 6) && Numeric(parts, 7) then
      Some(MemMb(Num(parts, 4).value, Num(parts, 5).value, Num(parts, 6).value, Num(parts, 7).value,
                 Num(parts, 6).value - Num(parts, 4).value, Num(parts, 7).value - Num(parts, 5).value))
    else None
  }

  /** What one MEM row stores: the `mem` percent record and, separately, the `mem_mb` record. */
  datatype MemRows = MemRows(percent: Option<Record>, megabytes: Option<Record>)

  /**
   * MEM: the percent record is stored before the megabyte fields are read,
   * so a row whose megabyte fields fail still stores its percent record,
   * and a row whose percent fields fail stores neither.
   */
  function DecodeMem(parts: seq<string>): (r: MemRows)
    ensures r.percent == DecodeMemPercent(parts)
    ensures r.megabytes.Some? <==> DecodeMemPercent(parts).Some? && DecodeMemMb(parts).Some?
    ensures r.megabytes.Some? ==> r.megabytes == DecodeMemMb(parts)
  {
    var percent := DecodeMemPercent(parts);
    MemRows(percent, if percent.Some? then DecodeMemMb(parts) else None)
  }

  /** MEMUSE: numperm, minperm, maxperm at positions 2 to 4, all required. */
  function DecodeMemUse(parts: seq<string>): (r: Option<Record>)
    ensures r.Some? <==> Numeric(parts, 2) && Numeric(parts, 3) && Numeric(parts, 4)
    ensures r.Some? ==> (r.value.MemUse? && Num(parts, 2) == Some(r.value.numperm)
      && Num(parts, 3) == Some(r.value.minperm) && Num(parts, 4) == Some(r.value.maxperm))
  {
    if Numeric(parts, 2) && Numeric(parts, 3) && Numeric(parts, 4) then
      Some(MemUse(Num(parts, 2).value, Num(parts, 3).value, Num(parts, 4).value))
    else None
  }

  function Abs(x: real): (r: real)
    ensures r >= 0.0 && (r == x || r == -x)
  {
    if x < 0.0 then -x else x
  }

  /**
   * PAGE: pgin, pgout, pgsin, pgsout from positions 3 to 6 (position 2 is
   * not read). Both "out" fields are stored as `-abs(value)`, so they are
   * never positive and plot below the axis; the "in" fields keep their values.
   */
  function DecodePage(parts: seq<string>): (r: Option<Record>)
    ensures r.Some? <==> Numeric(parts, 3) && Numeric(parts, 4) && Numeric(parts, 5) && Numeric(parts, 6)
    ensures r.Some? ==> r.value.Page? && Num(parts, 3) == Some(r.value.pgin) && Num(parts, 5) == Some(r.value.pgsin)
    ensures r.Some? ==> r.value.pgout <= 0.0 && r.value.pgsout <= 0.0
    ensures r.Some? ==> Abs(Num(parts, 4).value) == -r.value.pgout && Abs(Num(parts, 6).value) == -r.value.pgsout
  {
    if Numeric(parts, 3) && Numeric(parts, 4) && Numeric(parts, 5) && Numeric(parts, 6) then
      Some(Page(Num(parts, 3).value, -Abs(Num(parts, 4).value), Num(parts, 5).value, -Abs(Num(parts, 6).value)))
    else None
  }


  // ---------------------------------------------------------------------------
  // TOP process samples
  // ---------------------------------------------------------------------------

  /** One process of one time sample: `%CPU`, `Command`, `PID`, `CharIO`, `Memory`. */
  datatype TopSample = TopSample(cpu: real, command: string, pid: string, charIO: real, memory: real)

  /**
   * A TOP row `TOP,pid,tag,%cpu,...`: the PID is at position 1, %CPU at 3
   * (text "0" when missing), CharIO at 10, memory the sum of positions 8 and
   * 9, the command at 13 ("?" when missing). Only a %CPU that is not a number
   * drops the row; a CharIO or memory field that is missing or not a number
   * reads 0.0 on its own.
   */
  function DecodeTop(parts: seq<string>): (r: Option<TopSample>)
    requires |parts| > 2
    ensures r.Some? <==> (|parts| <= 3 || Strip(parts[3]) == [] || ParseNum(parts[3]).Some?)
    ensures r.Some? ==> r.value.pid == parts[1]
    ensures r.Some? ==> r.value.command == if |parts| > 13 then parts[13] else "?"
    ensures r.Some? && (|parts| <= 3 || Strip(parts[3]) == []) ==> r.value.cpu == 0.0
    ensures r.Some? && |parts| > 3 && Strip(parts[3]) != [] ==> r.value.cpu == ParseNum(parts[3]).value
    ensures r.Some? ==> r.value.charIO == if |parts| > 10 then ParseNum(parts[10]).GetOr(0.0) else 0.0
    ensures r.Some? && |parts| > 9 && ParseNum(parts[8]).Some? && ParseNum(parts[9]).Some? ==>
      r.value.memory == ParseNum(parts[8]).value + ParseNum(parts[9]).value
    ensures r.Some? && (|parts| <= 9 || ParseNum(parts[8]).None? || ParseNum(parts[9]).None?) ==> r.value.memory == 0.0
  {
    var cpuText := if |parts| > 3 then parts[3] else "0";
    var command := if |parts| > 13 then parts[13] else "?";
    var charIO := if |parts| > 10 then ParseNum(parts[10]).GetOr(0.0) else 0.0;
    var memory :=
      if |parts| > 9 then
        match (ParseNum(parts[8]), ParseNum(parts[9]))
        case (Some(a), Some(b)) => a + b
        case _ => 0.0
      else 0.0;
    if Strip(cpuText) == [] then Some(TopSample(0.0, command, parts[1], charIO, memory))
    else if |parts| <= 3 then Some(TopSample(0.0, command, parts[1], charIO, memory))
    else
      match ParseNum(cpuText)
      case Some(c) => Some(TopSample(c, command, parts[1], charIO, memory))
      case None => None
  }

  // ---------------------------------------------------------------------------
  // Per-core CPU utilisation (CPUnn rows)
  // ---------------------------------------------------------------------------

  type Count = n: int | n >= 1 witness 1

  /** Running sums for one tag and one core; `count` accepted rows contributed. */
  datatype CoreSum = CoreSum(userSum: real, sysSum: real, count: Count)

  /** The finalised value attached as `cpu_use`: average user and system percent. */
  datatype CoreAverage = CoreAverage(user: real, sys: real)

  /** Rows whose `user + sys` is at or below this are noise and not accumulated. */
  const NoiseFloor: real := 0.05

  type CoreSums = map<string, map<string, CoreSum>>

  function SumsOf(sums: CoreSums, tag: string): map<string, CoreSum> {
    if tag in sums then sums[tag] else map[]
  }

  /**
   * One CPUnn row `(user, sys)` for `core` under `tag`: accepted only when
   * `user + sys > 0.05`, it adds both values to the running sums and one to
   * the count; every other tag and core is left as it was.
   */
  function AddCoreSample(sums: CoreSums, tag: string, core: string, user: real, sys: real): (r: CoreSums)
    ensures user + sys <= NoiseFloor ==> r == sums
    ensures user + sys > NoiseFloor ==>
      && r.Keys == sums.Keys + {tag}
      && r[tag].Keys == SumsOf(sums, tag).Keys + {core}
      && (core in SumsOf(sums, tag) ==>
            r[tag][core] == CoreSum(sums[tag][core].userSum + user, sums[tag][core].sysSum + sys, sums[tag][core].count + 1))
      && (core !in SumsOf(sums, tag) ==> r[tag][core] == CoreSum(user, sys, 1))
      && (forall c :: c in SumsOf(sums, tag) && c != core ==> r[tag][c] == sums[tag][c])
      && (forall t :: t in sums && t != tag ==> r[t] == sums[t])
  {
    if user + sys > NoiseFloor then
      var cores := SumsOf(sums, tag);
      var next := if core in cores
        then CoreSum(cores[core].userSum + user, cores[core].sysSum + sys, cores[core].count + 1)
        else CoreSum(user, sys, 1);
      sums[tag := cores[core := next]]
    else sums
  }

  /** `{cpu: {"user": user_sum / count, "sys": sys_sum / count}}`: the mean of the accepted rows. */
  function Averages(cores: map<string, CoreSum>): (r: map<string, CoreAverage>)
    ensures r.Keys == cores.Keys
    ensures forall c :: c in cores ==>
      r[c].user * cores[c].count as real == cores[c].userSum && r[c].sys * cores[c].count as real == cores[c].sysSum
  {
    map c | c in cores :: CoreAverage(cores[c].userSum / cores[c].count as real, cores[c].sysSum / cores[c].count as real)
  }

  /**
   * A row below the noise floor leaves no trace in the average: readings
   * (0.02, 0.01) then (0.10, 0.20) for one core average to (0.10, 0.20).
   */
  lemma NoiseRowExcluded()
    ensures var sums := AddCoreSample(AddCoreSample(map[], "T0001", "01", 0.02, 0.01), "T0001", "01", 0.10, 0.20);
      Averages(sums["T0001"]) == map["01" := CoreAverage(0.10, 0.20)]
  {
    var first := AddCoreSample(map[], "T0001", "01", 0.02, 0.01);
    assert first == map[];
    var sums := AddCoreSample(first, "T0001", "01", 0.10, 0.20);
    assert sums["T0001"] == map["01" := CoreSum(0.10, 0.20, 1)];
  }

  // ---------------------------------------------------------------------------
  // Timestamps
  // ---------------------------------------------------------------------------

  /**
   * The timestamp of a ZZZZ row, `date + " " + time`. The date (stripped) is
   * kept when its upper-cased text reads DD-MMM-YYYY; otherwise the most
   * recent `AAA,date` fallback replaces it, or, when there is none yet, the
   * invalid date is kept verbatim.
   */
  function ResolveTimestamp(dateField: string, timeField: string, fallback: string): (r: string)
    ensures IsDateText(Strip(dateField)) ==> r == Strip(dateField) + " " + timeField
    ensures !IsDateText(Strip(dateField)) && fallback != [] ==> r == fallback + " " + timeField
    ensures !IsDateText(Strip(dateField)) && fallback == [] ==> r == Strip(dateField) + " " + timeField
    ensures |r| > |timeField|
  {
    var date := Strip(dateField);
    var chosen := if !IsDateText(date) && fallback != [] then fallback else date;
    chosen + " " + timeField
  }
}
