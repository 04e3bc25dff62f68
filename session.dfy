/**
 * `parse_nmon_file` as the source runs it: one object whose dictionaries
 * and header flags are updated in place, line by line. Each update is
 * proved to be the pure `Step` of the Capture module, so every property
 * proved there about `ParseLines` holds of what this loop builds.
 */
module Session {
  import opened Wrappers
  import opened Decode
  import opened Capture
  import opened History

  class ParseSession {
    var zzzz: map<string, string>
    var zzzzOrder: seq<string>
    var node: string
    var fallbackDate: string
    var tables: map<Section, map<string, Record>>
    var headers: map<string, seq<string>>
    var cores: CoreSums
    var top: map<string, seq<TopSample>>
    var topOrder: seq<string>

    /** The dictionaries read as a value. */
    function State(): Capture
      reads this
    {
      Capture(zzzz, zzzzOrder, node, fallbackDate, tables, headers, cores, top, topOrder)
    }

    /** Every dictionary empty, no header taken, no node name or fallback date. */
    constructor()
      ensures State() == Initial()
    {
      zzzz, zzzzOrder := map[], [];
      node, fallbackDate := "", "";
      tables, headers := map[], map[];
      cores := map[];
      top, topOrder := map[], [];
    }

    /** One line of the file: blank lines are skipped, every other line is classified and applied. */
    method Feed(line: string)
      modifies this
      ensures State() == Step(old(State()), line)
    {
      var row := RowOf(line);
      ApplyRow(row);
    }

    /** `data_by_tag[tag] = record` for one section. */
    method PutRecord(s: Section, tag: string, r: Record)
      modifies this
      ensures State() == Put(old(State()), s, tag, r)
    {
      var records := if s in tables then tables[s] else map[];
      tables := tables[s := records[tag := r]];
    }

    /** The branch of the loop body a decoded row takes. */
    method ApplyRow(row: Row)
      modifies this
      ensures State() == Apply(old(State()), row)
    {
      match row
      case Skip =>
      case Timestamp(tag, dateField, timeField) =>
        SetTimestamp(tag, dateField, timeField);
      case NodeName(name) =>
        node := name;
      case FallbackDate(date) =>
        fallbackDate := date;
      case Process(tag, sample) =>
        AppendSample(tag, sample);
      case Core(tag, core, user, sys) =>
        AddReading(tag, core, user, sys);
      case Fixed(section, tag, record) =>
        PutRecord(section, tag, record);
      case MemUsage(tag, percent, megabytes) =>
        PutRecord(MemTable, tag, percent);
        if megabytes.Some? {
          PutRecord(MemMbTable, tag, megabytes.value);
        }
      case Discovered(key, schema, parts, values) =>
        DiscoveredRow(key, schema, parts, values);
    }

    /** `zzzz_map[tag] = parse_date_time(date_str, time_str)`, the date replaced by the fallback when it is not a date. */
    method SetTimestamp(tag: string, dateField: string, timeField: string)
      modifies this
      ensures State() == ApplyTimestamp(old(State()), tag, dateField, timeField)
    {
      var stamp := ResolveTimestamp(dateField, timeField, fallbackDate);
      if tag !in zzzz {
        zzzzOrder := zzzzOrder + [tag];
      }
      zzzz := zzzz[tag := stamp];
    }

    /** `top_data_by_tag.setdefault(tag, []).append(sample)`. */
    method AppendSample(tag: string, sample: TopSample)
      modifies this
      ensures State() == ApplyProcess(old(State()), tag, sample)
    {
      if tag !in top {
        top := top[tag := []];
        topOrder := topOrder + [tag];
      }
      top := top[tag := top[tag] + [sample]];
    }

    /** A CPUnn reading above the noise floor: create the tag's and the core's sums at zero, then add to them. */
    method AddReading(tag: string, core: string, user: real, sys: real)
      modifies this
      ensures State() == old(State()).(cores := AddCoreSample(old(cores), tag, core, user, sys))
    {
      if user + sys > NoiseFloor {
        var tagCores := if tag in cores then cores[tag] else map[];
        var userSum: real, sysSum: real, count: nat := 0.0, 0.0, 0;
        if core in tagCores {
          userSum, sysSum, count := tagCores[core].userSum, tagCores[core].sysSum, tagCores[core].count;
        }
        cores := cores[tag := tagCores[core := CoreSum(userSum + user, sysSum + sys, count + 1)]];
      }
    }

    /** A discovered-schema row: take the first header, or decode a data row against the header. */
    method DiscoveredRow(key: string, schema: Schema, parts: seq<string>, values: seq<real>)
      modifies this
      ensures State() == ApplyDiscovered(old(State()), key, schema, parts, values)
    {
      if key !in headers && HeaderRow(schema, parts) {
        headers := headers[key := parts[2..]];
      } else if DataRow(schema, parts) && (key in headers || !schema.needsHeader) {
        var columns := if key in headers then headers[key] else [];
        PutRecord(schema.table, parts[1], Columns(DecodeColumns(columns, values)));
      }
    }
  }

  /** `node` when an AAA,NodeName row gave a non-empty one, the file's stem otherwise. */
  function NodeOrStem(node: string, stem: string): (r: string)
    ensures node != "" ==> r == node
    ensures node == "" ==> r == stem
  {
    if node == "" then stem else node
  }

  /**
   * Read every line in order, then fall back to the file's stem for the
   * node name. The result is the fold of `Step` over the lines, and the
   * node is the last AAA,NodeName value, or the stem when there is none.
   */
  method ParseNmonFile(lines: seq<string>, stem: string) returns (capture: Capture, node: string)
    ensures capture == ParseLines(lines)
    ensures node == NodeOrStem(LastAaa(lines, "NodeName"), stem)
  {
    var session := new ParseSession();
    var i := 0;
    while i < |lines|
      invariant 0 <= i <= |lines|
      invariant session.State() == ParseLines(lines[..i])
    {
      assert lines[..i + 1][..i] == lines[..i];
      session.Feed(lines[i]);
      i := i + 1;
    }
    assert lines[..i] == lines;
    capture := session.State();
    MetaIsLast(lines);
    node := NodeOrStem(session.node, stem);
  }
}
