/**
 * The three passes `process_file` makes over the file after parsing it:
 * FCREAD/FCWRITE and FCXFERIN/FCXFEROUT, which name each value after the
 * adapter in the latest header of their key, and NETSIZE, which stores its
 * first four values under fixed names.
 */
module Rescan {
  import opened Wrappers
  import opened Text
  import opened Decode
  import opened Capture

  /** One tag's named values, as the source's inner dictionaries hold them. */
  type Named = map<string, real>

  /** Every tag's named values. */
  type ByTag = map<string, Named>

  /** A tag's values so far (`setdefault(tag, {})`). */
  function Entry(byTag: ByTag, tag: string): Named {
    if tag in byTag then byTag[tag] else map[]
  }

  /** `numeric_vals[i] if i < len(numeric_vals) else 0.0`. */
  function ValueAt(values: seq<real>, i: nat): real {
    if i < |values| then values[i] else 0.0
  }

  // ---------------------------------------------------------------------------
  // Naming the values of one row after a header
  // ---------------------------------------------------------------------------

  /** `for i, iface in enumerate(header): d[iface + suffix] = ValueAt(values, i)`, in order. */
  function Merge(d: Named, header: seq<string>, values: seq<real>, suffix: string): Named
    decreases |header|
  {
    if |header| == 0 then d
    else Merge(d, header[..|header| - 1], values, suffix)[header[|header| - 1] + suffix := ValueAt(values, |header| - 1)]
  }

  /** The last position of the header whose name, with `suffix`, is `k`. */
  function LastSlot(header: seq<string>, suffix: string, k: string): (r: Option<nat>)
    ensures r.Some? ==> r.value < |header| && header[r.value] + suffix == k
    ensures r.Some? ==> forall j :: r.value < j < |header| ==> header[j] + suffix != k
    ensures r.None? ==> forall j :: 0 <= j < |header| ==> header[j] + suffix != k
    decreases |header|
  {
    if |header| == 0 then None
    else if header[|header| - 1] + suffix == k then Some(|header| - 1)
    else LastSlot(header[..|header| - 1], suffix, k)
  }

  /**
   * A name taken by the header holds the value of its last position (a
   * value the row lacks reads 0.0); every other name keeps what it had.
   */
  lemma {:induction false} MergeValue(d: Named, header: seq<string>, values: seq<real>, suffix: string, k: string)
    ensures LastSlot(header, suffix, k).Some? ==>
      k in Merge(d, header, values, suffix) &&
      Merge(d, header, values, suffix)[k] == ValueAt(values, LastSlot(header, suffix, k).value)
    ensures LastSlot(header, suffix, k).None? ==>
      (k in Merge(d, header, values, suffix) <==> k in d) &&
      (k in d ==> Merge(d, header, values, suffix)[k] == d[k])
    decreases |header|
  {
    if |header| > 0 {
      MergeValue(d, header[..|header| - 1], values, suffix, k);
    }
  }

  // ---------------------------------------------------------------------------
  // FCREAD/FCWRITE and FCXFERIN/FCXFEROUT
  // ---------------------------------------------------------------------------

  /** The two keys of a pair scan and the suffixes their values are named with. */
  datatype PairKeys = PairKeys(inKey: string, outKey: string, inSuffix: string, outSuffix: string)

  const FcKeys: PairKeys := PairKeys("FCREAD", "FCWRITE", "-read", "-write")
  const FcXferKeys: PairKeys := PairKeys("FCXFERIN", "FCXFEROUT", "-in", "-out")

  /** The latest header of each key, and the values named so far. */
  datatype PairState = PairState(inHeader: seq<string>, outHeader: seq<string>, byTag: ByTag)

  /** A tagged row: nothing while the header is empty, otherwise its values named after the header. */
  function Collect(byTag: ByTag, tag: string, header: seq<string>, values: seq<real>, suffix: string): ByTag {
    if |header| == 0 then byTag else byTag[tag := Merge(Entry(byTag, tag), header, values, suffix)]
  }

  /** One line of a pair scan: an untagged row replaces its key's header, a tagged row is collected. */
  function PairStep(s: PairState, keys: PairKeys, line: string): PairState {
    match Fields(line)
    case None => s
    case Some(parts) =>
      if |parts| > 2 && parts[0] == keys.inKey && !StartsWithT(parts[1]) then s.(inHeader := parts[2..])
      else if |parts| > 2 && parts[0] == keys.outKey && !StartsWithT(parts[1]) then s.(outHeader := parts[2..])
      else if |parts| > 2 && parts[0] == keys.inKey then
        s.(byTag := Collect(s.byTag, parts[1], s.inHeader, RowValues(parts), keys.inSuffix))
      else if |parts| > 2 && parts[0] == keys.outKey then
        s.(byTag := Collect(s.byTag, parts[1], s.outHeader, RowValues(parts), keys.outSuffix))
      else s
  }

  function PairScan(lines: seq<string>, keys: PairKeys): PairState
    decreases |lines|
  {
    if |lines| == 0 then PairState([], [], map[])
    else PairStep(PairScan(lines[..|lines| - 1], keys), keys, lines[|lines| - 1])
  }

  /** The header an untagged row of `key` with more than two fields carries. */
  function LineHeaderOf(line: string, key: string): Option<seq<string>> {
    match Fields(line)
    case None => None
    case Some(parts) => if |parts| > 2 && parts[0] == key && !StartsWithT(parts[1]) then Some(parts[2..]) else None
  }

  /** The header of the last such row, [] when there is none. */
  function LatestHeader(lines: seq<string>, key: string): seq<string>
    decreases |lines|
  {
    if |lines| == 0 then []
    else LineHeaderOf(lines[|lines| - 1], key).GetOr(LatestHeader(lines[..|lines| - 1], key))
  }

  /** Unlike the main pass, every header row of these keys replaces the one before. */
  lemma {:induction false} PairHeadersAreLatest(lines: seq<string>, keys: PairKeys)
    requires keys.inKey != keys.outKey
    ensures PairScan(lines, keys).inHeader == LatestHeader(lines, keys.inKey)
    ensures PairScan(lines, keys).outHeader == LatestHeader(lines, keys.outKey)
    decreases |lines|
  {
    if |lines| > 0 {
      PairHeadersAreLatest(lines[..|lines| - 1], keys);
      PairStepHeaders(PairScan(lines[..|lines| - 1], keys), keys, lines[|lines| - 1]);
    }
  }

  lemma PairStepHeaders(s: PairState, keys: PairKeys, line: string)
    requires keys.inKey != keys.outKey
    ensures PairStep(s, keys, line).inHeader == LineHeaderOf(line, keys.inKey).GetOr(s.inHeader)
    ensures PairStep(s, keys, line).outHeader == LineHeaderOf(line, keys.outKey).GetOr(s.outHeader)
  {
    match Fields(line)
    case None =>
    case Some(parts) =>
  }

  /** The header and suffix a tagged row of `tag` is read with after `prefix`, if the row is one of the pair's. */
  function DataHeader(prefix: seq<string>, line: string, keys: PairKeys, tag: string): Option<(seq<string>, string, seq<real>)> {
    match Fields(line)
    case None => None
    case Some(parts) =>
      if |parts| > 2 && StartsWithT(parts[1]) && parts[1] == tag then
        if parts[0] == keys.inKey then Some((LatestHeader(prefix, keys.inKey), keys.inSuffix, RowValues(parts)))
        else if parts[0] == keys.outKey then Some((LatestHeader(prefix, keys.outKey), keys.outSuffix, RowValues(parts)))
        else None
      else None
  }

  /** What a line after `prefix` writes under name `k` of `tag`. */
  function LineValue(prefix: seq<string>, line: string, keys: PairKeys, tag: string, k: string): Option<real> {
    var d := DataHeader(prefix, line, keys, tag);
    if d.Some? && LastSlot(d.value.0, d.value.1, k).Some? then Some(ValueAt(d.value.2, LastSlot(d.value.0, d.value.1, k).value))
    else None
  }

  /** The value the last line that wrote name `k` of `tag` wrote. */
  function LastValue(lines: seq<string>, keys: PairKeys, tag: string, k: string): Option<real>
    decreases |lines|
  {
    if |lines| == 0 then None
    else
      var v := LineValue(lines[..|lines| - 1], lines[|lines| - 1], keys, tag, k);
      if v.Some? then v else LastValue(lines[..|lines| - 1], keys, tag, k)
  }

  /** Some line is a row of `tag` read with a non-empty header. */
  predicate Touched(lines: seq<string>, keys: PairKeys, tag: string)
    decreases |lines|
  {
    |lines| > 0 &&
    (Touched(lines[..|lines| - 1], keys, tag) ||
     var d := DataHeader(lines[..|lines| - 1], lines[|lines| - 1], keys, tag);
     d.Some? && |d.value.0| > 0)
  }

  /** What one line does to `tag`'s entry, given the headers it is read with. */
  lemma PairStepEntry(s: PairState, keys: PairKeys, prefix: seq<string>, line: string, tag: string, k: string)
    requires keys.inKey != keys.outKey
    requires s.inHeader == LatestHeader(prefix, keys.inKey) && s.outHeader == LatestHeader(prefix, keys.outKey)
    ensures var d := DataHeader(prefix, line, keys, tag);
      tag in PairStep(s, keys, line).byTag <==> tag in s.byTag || (d.Some? && |d.value.0| > 0)
    ensures var v := LineValue(prefix, line, keys, tag, k);
      var e := Entry(PairStep(s, keys, line).byTag, tag);
      (v.Some? ==> k in e && e[k] == v.value) &&
      (v.None? ==> (k in e <==> k in Entry(s.byTag, tag)) && (k in Entry(s.byTag, tag) ==> e[k] == Entry(s.byTag, tag)[k]))
  {
    match Fields(line)
    case None =>
    case Some(parts) =>
      var values := RowValues(parts);
      if |parts| > 2 && parts[0] == keys.inKey && StartsWithT(parts[1]) && parts[1] == tag {
        MergeValue(Entry(s.byTag, tag), s.inHeader, values, keys.inSuffix, k);
      } else if |parts| > 2 && parts[0] == keys.outKey && StartsWithT(parts[1]) && parts[1] == tag {
        MergeValue(Entry(s.byTag, tag), s.outHeader, values, keys.outSuffix, k);
      }
  }

  /**
   * A tag has an entry exactly when one of its rows was read with a
   * non-empty header, and each of its names holds the value the last row
   * that wrote that name wrote.
   */
  lemma {:induction false} PairValuesAreLatest(lines: seq<string>, keys: PairKeys, tag: string, k: string)
    requires keys.inKey != keys.outKey
    ensures tag in PairScan(lines, keys).byTag <==> Touched(lines, keys, tag)
    ensures k in Entry(PairScan(lines, keys).byTag, tag) <==> LastValue(lines, keys, tag, k).Some?
    ensures k in Entry(PairScan(lines, keys).byTag, tag) ==>
      Entry(PairScan(lines, keys).byTag, tag)[k] == LastValue(lines, keys, tag, k).value
    decreases |lines|
  {
    if |lines| > 0 {
      var prefix := lines[..|lines| - 1];
      PairValuesAreLatest(prefix, keys, tag, k);
      PairHeadersAreLatest(prefix, keys);
      PairStepEntry(PairScan(prefix, keys), keys, prefix, lines[|lines| - 1], tag, k);
    }
  }

  // ---------------------------------------------------------------------------
  // NETSIZE
  // ---------------------------------------------------------------------------

  /** The tag and values of a tagged NETSIZE row with more than two fields and at least four values. */
  function LineSizes(line: string): Option<(string, seq<real>)> {
    match Fields(line)
    case None => None
    case Some(parts) =>
      if parts[0] == "NETSIZE" && |parts| > 2 && StartsWithT(parts[1]) && |RowValues(parts)| >= 4
      then Some((parts[1], RowValues(parts))) else None
  }

  /** The four names the first four values are stored under, set one after the other. */
  function SetSizes(d: Named, values: seq<real>): Named
    requires |values| >= 4
  {
    d["en2-readsize" := values[0]]["lo0-readsize" := values[1]]["en2-writesize" := values[2]]["lo0-writesize" := values[3]]
  }

  /** The entry every stored NETSIZE row leaves: those four names and nothing else. */
  function SizeRecord(values: seq<real>): (r: Named)
    requires |values| >= 4
    ensures r.Keys == {"en2-readsize", "lo0-readsize", "en2-writesize", "lo0-writesize"}
  {
    map["en2-readsize" := values[0], "lo0-readsize" := values[1], "en2-writesize" := values[2], "lo0-writesize" := values[3]]
  }

  function SizeStep(sizes: ByTag, line: string): ByTag {
    match LineSizes(line)
    case None => sizes
    case Some((tag, values)) => sizes[tag := SetSizes(Entry(sizes, tag), values)]
  }

  function SizeScan(lines: seq<string>): ByTag
    decreases |lines|
  {
    if |lines| == 0 then map[] else SizeStep(SizeScan(lines[..|lines| - 1]), lines[|lines| - 1])
  }

  /** The values of the last stored NETSIZE row of `tag`. */
  function LastSizes(lines: seq<string>, tag: string): (r: Option<seq<real>>)
    ensures r.Some? ==> |r.value| >= 4
    decreases |lines|
  {
    if |lines| == 0 then None
    else
      var s := LineSizes(lines[|lines| - 1]);
      if s.Some? && s.value.0 == tag then Some(s.value.1) else LastSizes(lines[..|lines| - 1], tag)
  }

  /** Setting the four names over an entry that has no other names gives exactly the four. */
  lemma SetSizesRecord(d: Named, values: seq<real>)
    requires |values| >= 4
    requires d.Keys <= {"en2-readsize", "lo0-readsize", "en2-writesize", "lo0-writesize"}
    ensures SetSizes(d, values) == SizeRecord(values)
  {
    var r := SetSizes(d, values);
    assert r.Keys == SizeRecord(values).Keys;
  }

  /** A tag has NETSIZE values exactly when one of its rows was stored, and then they are the last such row's. */
  lemma {:induction false} SizesAreLatest(lines: seq<string>, tag: string)
    ensures tag in SizeScan(lines) <==> LastSizes(lines, tag).Some?
    ensures tag in SizeScan(lines) ==> SizeScan(lines)[tag] == SizeRecord(LastSizes(lines, tag).value)
    decreases |lines|
  {
    if |lines| > 0 {
      var prefix := lines[..|lines| - 1];
      SizesAreLatest(prefix, tag);
      var s := LineSizes(lines[|lines| - 1]);
      if s.Some? && s.value.0 == tag {
        SetSizesRecord(Entry(SizeScan(prefix), tag), s.value.1);
      }
    }
  }

  // ---------------------------------------------------------------------------
  // The passes as the source runs them
  // ---------------------------------------------------------------------------

  /** The inner loop of a tagged row: `setdefault(tag, {})[iface + suffix] = val` for each header name. */
  method CollectRow(byTag: ByTag, tag: string, header: seq<string>, values: seq<real>, suffix: string) returns (r: ByTag)
    ensures r == Collect(byTag, tag, header, values, suffix)
  {
    r := byTag;
    var i := 0;
    while i < |header|
      invariant 0 <= i <= |header|
      invariant r == if i == 0 then byTag else byTag[tag := Merge(Entry(byTag, tag), header[..i], values, suffix)]
    {
      assert header[..i + 1][..i] == header[..i];
      var val := if i < |values| then values[i] else 0.0;
      var entry := if tag in r then r[tag] else map[];
      r := r[tag := entry[header[i] + suffix := val]];
      i := i + 1;
    }
    assert header[..i] == header;
  }

  /** One pass over the file for a pair of keys. */
  method ScanPairs(lines: seq<string>, keys: PairKeys) returns (byTag: ByTag)
    ensures byTag == PairScan(lines, keys).byTag
  {
    var inHeader: seq<string> := [];
    var outHeader: seq<string> := [];
    byTag := map[];
    var n := 0;
    while n < |lines|
      invariant 0 <= n <= |lines|
      invariant PairState(inHeader, outHeader, byTag) == PairScan(lines[..n], keys)
    {
      assert lines[..n + 1][..n] == lines[..n];
      var fields := Fields(lines[n]);
      if fields.Some? {
        var parts := fields.value;
        if |parts| > 2 && parts[0] == keys.inKey && !StartsWithT(parts[1]) {
          inHeader := parts[2..];
        } else if |parts| > 2 && parts[0] == keys.outKey && !StartsWithT(parts[1]) {
          outHeader := parts[2..];
        } else if |parts| > 2 && parts[0] == keys.inKey {
          byTag := CollectRow(byTag, parts[1], inHeader, RowValues(parts), keys.inSuffix);
        } else if |parts| > 2 && parts[0] == keys.outKey {
          byTag := CollectRow(byTag, parts[1], outHeader, RowValues(parts), keys.outSuffix);
        }
      }
      n := n + 1;
    }
    assert lines[..n] == lines;
  }

  /** The NETSIZE pass. */
  method ScanNetSizes(lines: seq<string>) returns (sizes: ByTag)
    ensures sizes == SizeScan(lines)
  {
    sizes := map[];
    var n := 0;
    while n < |lines|
      invariant 0 <= n <= |lines|
      invariant sizes == SizeScan(lines[..n])
    {
      assert lines[..n + 1][..n] == lines[..n];
      sizes := SizeLine(sizes, lines[n]);
      n := n + 1;
    }
    assert lines[..n] == lines;
  }

  /** One line of the NETSIZE pass: untagged rows are skipped, a tagged row with four values sets the four names. */
  method SizeLine(sizes: ByTag, line: string) returns (r: ByTag)
    ensures r == SizeStep(sizes, line)
  {
    r := sizes;
    var fields := Fields(line);
    if fields.Some? {
      var parts := fields.value;
      if parts[0] == "NETSIZE" && |parts| > 2 && StartsWithT(parts[1]) {
        var values := RowValues(parts);
        if |values| >= 4 {
          var entry := if parts[1] in r then r[parts[1]] else map[];
          entry := entry["en2-readsize" := values[0]];
          entry := entry["lo0-readsize" := values[1]];
          entry := entry["en2-writesize" := values[2]];
          entry := entry["lo0-writesize" := values[3]];
          r := r[parts[1] := entry];
        }
      }
    }
  }
}
