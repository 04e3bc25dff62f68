/**
 * From the parsed capture to the two document lists `process_file`
 * returns: one document per snapshot tag that has a timestamp and at least
 * one of the sixteen primary sections, in sorted tag order, with the
 * secondary sections attached afterwards; and one TOP document per process
 * sample.
 */
module Assemble {
  import opened Wrappers
  import opened Text
  import opened Decode
  import opened Capture
  import opened History
  import opened Rescan
  import opened Session

  /** A snapshot document: `@timestamp` and the sections present for its tag, by section. */
  datatype Doc = Doc(timestamp: string, sections: map<Section, Record>)

  /** A TOP document: `@timestamp` and the fields of one process sample. */
  datatype TopDoc = TopDoc(timestamp: string, sample: TopSample)

  // ---------------------------------------------------------------------------
  // sorted(): the tags in ascending order
  // ---------------------------------------------------------------------------

  predicate Ascending(r: seq<string>) {
    forall i, j :: 0 <= i < j < |r| ==> StrLess(r[i], r[j])
  }

  predicate IsLeast(m: string, s: set<string>) {
    m in s && forall y :: y in s ==> m == y || StrLess(m, y)
  }

  lemma {:induction false} LeastExists(s: set<string>)
    requires s != {}
    ensures exists m :: IsLeast(m, s)
    decreases |s|
  {
    var x :| x in s;
    if s != {x} {
      LeastExists(s - {x});
      var m :| IsLeast(m, s - {x});
      if m != x {
        StrLessTotal(x, m);
      }
      if StrLess(x, m) {
        forall y | y in s
          ensures x == y || StrLess(x, y)
        {
          if y != x && y != m {
            StrLessTransitive(x, m, y);
          }
        }
        assert IsLeast(x, s);
      } else {
        assert IsLeast(m, s);
      }
    } else {
      assert IsLeast(x, s);
    }
  }

  lemma LeastUnique(s: set<string>)
    ensures forall a, b :: IsLeast(a, s) && IsLeast(b, s) ==> a == b
  {
    forall a, b | IsLeast(a, s) && IsLeast(b, s)
      ensures a == b
    {
      if a != b {
        assert StrLess(a, b) && StrLess(b, a);
        StrLessAsymmetric(a, b);
      }
    }
  }

  /** The smallest tag of a non-empty set. */
  function Least(s: set<string>): (m: string)
    requires s != {}
    ensures IsLeast(m, s)
  {
    LeastExists(s);
    LeastUnique(s);
    var m :| IsLeast(m, s); m
  }

  /** `sorted(s)`: every element once, in ascending order. */
  function SortedTags(s: set<string>): (r: seq<string>)
    ensures Ascending(r)
    ensures forall t :: t in r <==> t in s
    decreases |s|
  {
    if s == {} then []
    else
      var m := Least(s);
      var rest := SortedTags(s - {m});
      assert forall t :: t in rest ==> StrLess(m, t);
      [m] + rest
  }

  // ---------------------------------------------------------------------------
  // build_all_docs
  // ---------------------------------------------------------------------------

  /** The sixteen sections `build_all_docs` receives, in the order it adds them to a document. */
  const DocSections: seq<Section> := [
    CpuAllTable, LparTable, ProcTable, FileIoTable, MemNewTable, MemTable, NetTable, NetPacketTable,
    DiskReadTable, DiskWriteTable, DiskBusyTable, DiskWaitTable,
    VgReadTable, VgWriteTable, VgBusyTable, VgSizeTable]

  /** `all_tags`: the tags of those sixteen tables and of the timestamp map. */
  function DocTags(c: Capture): set<string> {
    Table(c, CpuAllTable).Keys + Table(c, LparTable).Keys + Table(c, ProcTable).Keys + Table(c, FileIoTable).Keys
    + Table(c, MemNewTable).Keys + Table(c, MemTable).Keys + Table(c, NetTable).Keys + Table(c, NetPacketTable).Keys
    + Table(c, DiskReadTable).Keys + Table(c, DiskWriteTable).Keys + Table(c, DiskBusyTable).Keys
    + Table(c, DiskWaitTable).Keys + Table(c, VgReadTable).Keys + Table(c, VgWriteTable).Keys
    + Table(c, VgBusyTable).Keys + Table(c, VgSizeTable).Keys + c.zzzz.Keys
  }

  /** The sections of those sixteen that hold a record for `tag`. */
  function SectionsOf(c: Capture, tag: string): (r: map<Section, Record>)
    ensures forall s :: s in r <==> s in DocSections && tag in Table(c, s)
    ensures forall s :: s in r ==> r[s] == Table(c, s)[tag]
  {
    map s | s in DocSections && tag in Table(c, s) :: Table(c, s)[tag]
  }

  /** The document of `tag`: none without a (non-empty) timestamp, none when it would hold only the timestamp. */
  function DocFor(c: Capture, tag: string): Option<Doc> {
    if tag in c.zzzz && c.zzzz[tag] != "" && |SectionsOf(c, tag)| > 0
    then Some(Doc(c.zzzz[tag], SectionsOf(c, tag)))
    else None
  }

  /** The documents of `tags`, in their order. */
  function DocsOver(c: Capture, tags: seq<string>): seq<Doc>
    decreases |tags|
  {
    if |tags| == 0 then []
    else
      var d := DocFor(c, tags[|tags| - 1]);
      DocsOver(c, tags[..|tags| - 1]) + if d.Some? then [d.value] else []
  }

  /** The tags among `tags` that make a document, in their order. */
  function DocTagsOver(c: Capture, tags: seq<string>): seq<string>
    decreases |tags|
  {
    if |tags| == 0 then []
    else
      var t := tags[|tags| - 1];
      DocTagsOver(c, tags[..|tags| - 1]) + if DocFor(c, t).Some? then [t] else []
  }

  function AllDocs(c: Capture): seq<Doc> {
    DocsOver(c, SortedTags(DocTags(c)))
  }

  /** The tags of the documents `build_all_docs` returns, in their order. */
  function AllDocTags(c: Capture): seq<string> {
    DocTagsOver(c, SortedTags(DocTags(c)))
  }

  /** The documents over `tags` are the documents of the tags that make one, in their order. */
  lemma {:induction false} DocsOverDocs(c: Capture, tags: seq<string>)
    ensures |DocsOver(c, tags)| == |DocTagsOver(c, tags)|
    ensures forall i :: 0 <= i < |DocTagsOver(c, tags)| ==>
      DocFor(c, DocTagsOver(c, tags)[i]).Some? && DocsOver(c, tags)[i] == DocFor(c, DocTagsOver(c, tags)[i]).value
    decreases |tags|
  {
    if |tags| > 0 {
      DocsOverDocs(c, tags[..|tags| - 1]);
    }
  }

  /** A tag is kept exactly when it makes a document. */
  lemma {:induction false} DocTagsOverMembers(c: Capture, tags: seq<string>)
    ensures forall t :: t in DocTagsOver(c, tags) <==> t in tags && DocFor(c, t).Some?
    decreases |tags|
  {
    if |tags| > 0 {
      var prefix := tags[..|tags| - 1];
      DocTagsOverMembers(c, prefix);
      assert tags == prefix + [tags[|tags| - 1]];
    }
  }

  /** Keeping some tags of an ascending list keeps it ascending. */
  lemma {:induction false} DocTagsOverAscending(c: Capture, tags: seq<string>)
    requires Ascending(tags)
    ensures Ascending(DocTagsOver(c, tags))
    decreases |tags|
  {
    if |tags| > 0 {
      var prefix := tags[..|tags| - 1];
      var t := tags[|tags| - 1];
      assert Ascending(prefix);
      DocTagsOverAscending(c, prefix);
      DocTagsOverMembers(c, prefix);
      assert forall u :: u in DocTagsOver(c, prefix) ==> StrLess(u, t);
    }
  }

  /** Every tag with a timestamp is one of `all_tags`. */
  lemma TimestampedIsDocTag(c: Capture, t: string)
    requires t in c.zzzz
    ensures t in DocTags(c)
  {
  }

  /**
   * `build_all_docs`: the documents come in ascending tag order, one for
   * exactly each tag with a non-empty timestamp and at least one of the
   * sixteen sections; each carries that timestamp and those sections.
   */
  lemma AllDocsSound(c: Capture)
    ensures Ascending(AllDocTags(c))
    ensures |AllDocs(c)| == |AllDocTags(c)|
    ensures forall t :: t in AllDocTags(c) <==> t in c.zzzz && c.zzzz[t] != "" && |SectionsOf(c, t)| > 0
    ensures forall i :: 0 <= i < |AllDocs(c)| ==>
      var t := AllDocTags(c)[i];
      t in c.zzzz && AllDocs(c)[i] == Doc(c.zzzz[t], SectionsOf(c, t)) && |AllDocs(c)[i].sections| > 0
  {
    var tags := SortedTags(DocTags(c));
    DocsOverDocs(c, tags);
    DocTagsOverMembers(c, tags);
    DocTagsOverAscending(c, tags);
    forall t | t in c.zzzz {
      TimestampedIsDocTag(c, t);
    }
  }

  /** `build_all_docs`: the documents of the sorted tags. */
  method BuildAllDocs(c: Capture) returns (docs: seq<Doc>)
    ensures docs == AllDocs(c)
  {
    var tags := SortedTags(DocTags(c));
    docs := DocsOfTags(c, tags);
  }

  /** The document loop of `build_all_docs` over the tags in order. */
  method DocsOfTags(c: Capture, tags: seq<string>) returns (docs: seq<Doc>)
    ensures docs == DocsOver(c, tags)
  {
    docs := [];
    var i := 0;
    while i < |tags|
      invariant 0 <= i <= |tags|
      invariant docs == DocsOver(c, tags[..i])
    {
      assert tags[..i + 1][..i] == tags[..i];
      var d := DocOf(c, tags[i]);
      if d.Some? {
        docs := docs + [d.value];
      }
      i := i + 1;
    }
    assert tags[..i] == tags;
  }

  /** The body of the document loop for one tag. */
  method DocOf(c: Capture, tag: string) returns (d: Option<Doc>)
    ensures d == DocFor(c, tag)
  {
    d := None;
    if tag in c.zzzz && c.zzzz[tag] != "" {
      var sections := DocSectionsOf(c, tag);
      if |sections| > 0 {
        d := Some(Doc(c.zzzz[tag], sections));
      }
    }
  }

  /** `if tag in X_data_by_tag: doc["x"] = X_data_by_tag[tag]` for each of the sixteen sections. */
  method DocSectionsOf(c: Capture, tag: string) returns (sections: map<Section, Record>)
    ensures sections == SectionsOf(c, tag)
  {
    sections := map[];
    var j := 0;
    while j < |DocSections|
      invariant 0 <= j <= |DocSections|
      invariant forall s :: s in sections <==> s in DocSections[..j] && tag in Table(c, s)
      invariant forall s :: s in sections ==> sections[s] == Table(c, s)[tag]
    {
      var s := DocSections[j];
      if tag in Table(c, s) {
        sections := sections[s := Table(c, s)[tag]];
      }
      assert DocSections[..j + 1] == DocSections[..j] + [s];
      j := j + 1;
    }
    assert DocSections[..j] == DocSections;
  }

  // ---------------------------------------------------------------------------
  // The attach loop of process_file
  // ---------------------------------------------------------------------------

  /** The second-pass results the attach loop reads. */
  datatype Passes = Passes(netsize: ByTag, fc: ByTag, fcxfer: ByTag)

  /** The eleven sections attached after the fact, in the order the loop tests them. */
  const ExtraSections: seq<Section> := [
    NetSizeTable, FcTable, FcXferTable, JfsFileTable, MemUseTable, PageTable,
    SeaTable, SeaChPhyTable, SeaPacketTable, MemMbTable, CpuUseTable]

  /** What the loop attaches under section `s` for `tag`: `cpu_use` is each core's mean. */
  function Extra(c: Capture, p: Passes, s: Section, tag: string): Option<Record> {
    match s
    case NetSizeTable => if tag in p.netsize then Some(Columns(p.netsize[tag])) else None
    case FcTable => if tag in p.fc then Some(Columns(p.fc[tag])) else None
    case FcXferTable => if tag in p.fcxfer then Some(Columns(p.fcxfer[tag])) else None
    case CpuUseTable => if tag in c.cores then Some(CoreUse(Averages(c.cores[tag]))) else None
    case _ => if tag in Table(c, s) then Some(Table(c, s)[tag]) else None
  }

  /**
   * `the_tag`: the first tag, in the timestamp map's insertion order, whose
   * timestamp equals `dt`.
   */
  function FirstTag(order: seq<string>, zzzz: map<string, string>, dt: string): (r: Option<string>)
    ensures r.Some? ==> r.value in order && r.value in zzzz && zzzz[r.value] == dt
    ensures r.None? ==> forall t :: t in order && t in zzzz ==> zzzz[t] != dt
    decreases |order|
  {
    if |order| == 0 then None
    else if order[0] in zzzz && zzzz[order[0]] == dt then Some(order[0])
    else FirstTag(order[1..], zzzz, dt)
  }

  /** The first matching position decides `the_tag`. */
  lemma {:induction false} FirstTagIsFirst(order: seq<string>, zzzz: map<string, string>, dt: string, i: nat)
    requires i < |order| && order[i] in zzzz && zzzz[order[i]] == dt
    requires forall j :: 0 <= j < i ==> !(order[j] in zzzz && zzzz[order[j]] == dt)
    ensures FirstTag(order, zzzz, dt) == Some(order[i])
    decreases i
  {
    if i > 0 {
      FirstTagIsFirst(order[1..], zzzz, dt, i - 1);
    }
  }

  /** The attached sections of `tag`, added one after the other over `sections`. */
  function AddExtras(m: map<Section, Record>, c: Capture, p: Passes, sections: seq<Section>, tag: string): map<Section, Record>
    decreases |sections|
  {
    if |sections| == 0 then m
    else
      var prev := AddExtras(m, c, p, sections[..|sections| - 1], tag);
      var e := Extra(c, p, sections[|sections| - 1], tag);
      if e.Some? then prev[sections[|sections| - 1] := e.value] else prev
  }

  /** An attached section holds what `Extra` gives; every other section is kept. */
  lemma {:induction false} AddExtrasValue(m: map<Section, Record>, c: Capture, p: Passes, sections: seq<Section>, tag: string, s: Section)
    ensures s in sections && Extra(c, p, s, tag).Some? ==>
      s in AddExtras(m, c, p, sections, tag) && AddExtras(m, c, p, sections, tag)[s] == Extra(c, p, s, tag).value
    ensures !(s in sections && Extra(c, p, s, tag).Some?) ==>
      (s in AddExtras(m, c, p, sections, tag) <==> s in m) && (s in m ==> AddExtras(m, c, p, sections, tag)[s] == m[s])
    decreases |sections|
  {
    if |sections| > 0 {
      AddExtrasValue(m, c, p, sections[..|sections| - 1], tag, s);
      assert sections == sections[..|sections| - 1] + [sections[|sections| - 1]];
    }
  }

  /** One document after the attach step: nothing is attached when no tag, or only "", has its timestamp. */
  function Attached(d: Doc, c: Capture, p: Passes): Doc {
    var t := FirstTag(c.zzzzOrder, c.zzzz, d.timestamp);
    if t.Some? && t.value != "" then d.(sections := AddExtras(d.sections, c, p, ExtraSections, t.value)) else d
  }

  /** The sections the attach loop writes. */
  predicate Attaches(s: Section) {
    s.NetSizeTable? || s.FcTable? || s.FcXferTable? || s.JfsFileTable? || s.MemUseTable? || s.PageTable?
    || s.SeaTable? || s.SeaChPhyTable? || s.SeaPacketTable? || s.MemMbTable? || s.CpuUseTable?
  }

  lemma PrimaryNotAttached(s: Section)
    requires s in DocSections
    ensures !Attaches(s)
  {
  }

  lemma NotAttachedNotExtra(s: Section)
    requires !Attaches(s)
    ensures s !in ExtraSections
  {
  }

  /** The primary and the attached sections are distinct. */
  lemma SectionsDisjoint(s: Section)
    requires s in DocSections
    ensures s !in ExtraSections
  {
    PrimaryNotAttached(s);
    NotAttachedNotExtra(s);
  }

  /**
   * Once `the_tag` is a non-empty `tag`, the document keeps its timestamp,
   * every section `Extra` gives for `tag` is attached with that value, and
   * every other section is kept as it was.
   */
  lemma AttachedSections(d: Doc, c: Capture, p: Passes, tag: string)
    requires FirstTag(c.zzzzOrder, c.zzzz, d.timestamp) == Some(tag) && tag != ""
    ensures Attached(d, c, p).timestamp == d.timestamp
    ensures forall s :: s in ExtraSections && Extra(c, p, s, tag).Some? ==>
      s in Attached(d, c, p).sections && Attached(d, c, p).sections[s] == Extra(c, p, s, tag).value
    ensures forall s :: !(s in ExtraSections && Extra(c, p, s, tag).Some?) ==>
      (s in Attached(d, c, p).sections <==> s in d.sections) && (s in d.sections ==> Attached(d, c, p).sections[s] == d.sections[s])
  {
    var m := AddExtras(d.sections, c, p, ExtraSections, tag);
    assert Attached(d, c, p) == d.(sections := m);
    forall s {
      AddExtrasValue(d.sections, c, p, ExtraSections, tag, s);
    }
  }

  /**
   * When the document's own tag is the first with its timestamp (as it is
   * whenever timestamps are distinct), the sections attached are that
   * tag's; the timestamp and the primary sections stay as they were.
   */
  lemma AttachOwnTag(d: Doc, c: Capture, p: Passes, i: nat)
    requires i < |c.zzzzOrder| && c.zzzzOrder[i] in c.zzzz && c.zzzz[c.zzzzOrder[i]] == d.timestamp
    requires forall j :: 0 <= j < i ==> !(c.zzzzOrder[j] in c.zzzz && c.zzzz[c.zzzzOrder[j]] == d.timestamp)
    requires c.zzzzOrder[i] != ""
    ensures Attached(d, c, p).timestamp == d.timestamp
    ensures forall s :: s in DocSections && s in d.sections ==> s in Attached(d, c, p).sections && Attached(d, c, p).sections[s] == d.sections[s]
    ensures forall s :: s in ExtraSections && Extra(c, p, s, c.zzzzOrder[i]).Some? ==>
      s in Attached(d, c, p).sections && Attached(d, c, p).sections[s] == Extra(c, p, s, c.zzzzOrder[i]).value
  {
    FirstTagIsFirst(c.zzzzOrder, c.zzzz, d.timestamp, i);
    AttachedSections(d, c, p, c.zzzzOrder[i]);
    forall s | s in DocSections {
      SectionsDisjoint(s);
    }
  }

  /**
   * Two snapshots with the same timestamp share one `the_tag`: the second
   * snapshot's document receives the attached sections of the first.
   */
  lemma SharedTimestampAttachesFirst()
    ensures FirstTag(["T0001", "T0002"], map["T0001" := "07-JAN-2025 00:01:54", "T0002" := "07-JAN-2025 00:01:54"],
      "07-JAN-2025 00:01:54") == Some("T0001")
  {
  }

  /** The loop over the timestamp map that finds `the_tag`, stopping at the first match. */
  method FindTag(order: seq<string>, zzzz: map<string, string>, dt: string) returns (r: Option<string>)
    ensures r == FirstTag(order, zzzz, dt)
  {
    r := None;
    var i := 0;
    while i < |order|
      invariant 0 <= i <= |order|
      invariant FirstTag(order, zzzz, dt) == FirstTag(order[i..], zzzz, dt)
    {
      if order[i] in zzzz && zzzz[order[i]] == dt {
        r := Some(order[i]);
        return;
      }
      assert order[i..][1..] == order[i + 1..];
      i := i + 1;
    }
  }

  /** The eleven `if the_tag and the_tag in X: d["x"] = ...` tests of one document. */
  method AttachOne(d: Doc, c: Capture, p: Passes) returns (r: Doc)
    ensures r == Attached(d, c, p)
  {
    r := d;
    var tag := FindTag(c.zzzzOrder, c.zzzz, d.timestamp);
    if tag.Some? && tag.value != "" {
      var sections := d.sections;
      var j := 0;
      while j < |ExtraSections|
        invariant 0 <= j <= |ExtraSections|
        invariant sections == AddExtras(d.sections, c, p, ExtraSections[..j], tag.value)
      {
        assert ExtraSections[..j + 1][..j] == ExtraSections[..j];
        var e := Extra(c, p, ExtraSections[j], tag.value);
        if e.Some? {
          sections := sections[ExtraSections[j] := e.value];
        }
        j := j + 1;
      }
      assert ExtraSections[..j] == ExtraSections;
      r := d.(sections := sections);
    }
  }

  /** The attach loop: every document of the list is updated in place. */
  method AttachAll(docs: array<Doc>, c: Capture, p: Passes)
    modifies docs
    ensures forall i :: 0 <= i < docs.Length ==> docs[i] == Attached(old(docs[i]), c, p)
  {
    var i := 0;
    while i < docs.Length
      invariant 0 <= i <= docs.Length
      invariant forall k :: 0 <= k < i ==> docs[k] == Attached(old(docs[k]), c, p)
      invariant forall k :: i <= k < docs.Length ==> docs[k] == old(docs[k])
    {
      docs[i] := AttachOne(docs[i], c, p);
      i := i + 1;
    }
  }

  /** The list the attach loop works on, copied to an array and back. */
  method AttachDocs(built: seq<Doc>, c: Capture, p: Passes) returns (r: seq<Doc>)
    ensures |r| == |built|
    ensures forall i :: 0 <= i < |r| ==> r[i] == Attached(built[i], c, p)
  {
    var docs := new Doc[|built|](i requires 0 <= i < |built| => built[i]);
    AttachAll(docs, c, p);
    r := docs[..];
  }

  // ---------------------------------------------------------------------------
  // build_top_docs
  // ---------------------------------------------------------------------------

  /** The TOP documents of one tag: one per sample, in order, under the tag's timestamp; none without one. */
  function TagTopDocs(c: Capture, tag: string): (r: seq<TopDoc>)
    ensures tag in c.zzzz && c.zzzz[tag] != "" ==> |r| == |TopOf(c, tag)|
    ensures !(tag in c.zzzz && c.zzzz[tag] != "") ==> r == []
    ensures forall i :: 0 <= i < |r| ==> r[i] == TopDoc(c.zzzz[tag], TopOf(c, tag)[i])
  {
    if tag in c.zzzz && c.zzzz[tag] != "" then
      seq(|TopOf(c, tag)|, i requires 0 <= i < |TopOf(c, tag)| => TopDoc(c.zzzz[tag], TopOf(c, tag)[i]))
    else []
  }

  function TopDocsOver(c: Capture, order: seq<string>): seq<TopDoc>
    decreases |order|
  {
    if |order| == 0 then [] else TopDocsOver(c, order[..|order| - 1]) + TagTopDocs(c, order[|order| - 1])
  }

  /** `build_top_docs`: the tags in the order TOP first saw them. */
  function TopDocs(c: Capture): seq<TopDoc> {
    TopDocsOver(c, c.topOrder)
  }

  /** Every TOP document carries the non-empty timestamp of one of the tags and one of that tag's samples. */
  lemma {:induction false} TopDocsSound(c: Capture, order: seq<string>, i: nat)
    requires i < |TopDocsOver(c, order)|
    ensures exists t :: (t in order && t in c.zzzz && c.zzzz[t] != "" && TopDocsOver(c, order)[i].timestamp == c.zzzz[t]
      && TopDocsOver(c, order)[i].sample in TopOf(c, t))
    decreases |order|
  {
    var prefix := order[..|order| - 1];
    var t := order[|order| - 1];
    if i < |TopDocsOver(c, prefix)| {
      TopDocsSound(c, prefix, i);
      var u :| u in prefix && u in c.zzzz && c.zzzz[u] != "" && TopDocsOver(c, prefix)[i].timestamp == c.zzzz[u]
        && TopDocsOver(c, prefix)[i].sample in TopOf(c, u);
      assert u in order;
    } else {
      var k := i - |TopDocsOver(c, prefix)|;
      assert TopDocsOver(c, order)[i] == TagTopDocs(c, t)[k];
      assert TopDocsOver(c, order)[i].sample == TopOf(c, t)[k];
    }
  }

  /** A tag's TOP documents are its accepted TOP rows in file order, under the timestamp of its last ZZZZ row. */
  lemma TopDocsOfLines(lines: seq<string>, tag: string)
    ensures var ts := LastTimestamp(lines, tag);
      var docs := TagTopDocs(ParseLines(lines), tag);
      (ts.Some? && ts.value != "" ==>
        |docs| == |TopRows(lines, tag)| && forall i :: 0 <= i < |docs| ==> docs[i] == TopDoc(ts.value, TopRows(lines, tag)[i])) &&
      (!(ts.Some? && ts.value != "") ==> docs == [])
  {
    TimestampIsLast(lines, tag);
    TopIsRows(lines, tag);
  }

  /** The nested loop of `build_top_docs`. */
  method BuildTopDocs(c: Capture) returns (docs: seq<TopDoc>)
    ensures docs == TopDocs(c)
  {
    docs := [];
    var order := c.topOrder;
    var i := 0;
    while i < |order|
      invariant 0 <= i <= |order|
      invariant docs == TopDocsOver(c, order[..i])
    {
      assert order[..i + 1][..i] == order[..i];
      var tag := order[i];
      if tag in c.zzzz && c.zzzz[tag] != "" {
        var dt := c.zzzz[tag];
        var items := if tag in c.top then c.top[tag] else [];
        var j := 0;
        ghost var before := docs;
        while j < |items|
          invariant 0 <= j <= |items|
          invariant docs == before + TagTopDocs(c, tag)[..j]
        {
          assert TagTopDocs(c, tag)[..j + 1] == TagTopDocs(c, tag)[..j] + [TopDoc(dt, items[j])];
          docs := docs + [TopDoc(dt, items[j])];
          j := j + 1;
        }
        assert TagTopDocs(c, tag)[..j] == TagTopDocs(c, tag);
      }
      i := i + 1;
    }
    assert order[..i] == order;
  }

  // ---------------------------------------------------------------------------
  // process_file
  // ---------------------------------------------------------------------------

  /**
   * Parse, run the three second passes, build and attach the documents,
   * build the TOP documents. File output is not part of the model.
   */
  method ProcessFile(lines: seq<string>, stem: string) returns (node: string, allDocs: seq<Doc>, topDocs: seq<TopDoc>)
    ensures node == NodeOrStem(LastAaa(lines, "NodeName"), stem)
    ensures var c := ParseLines(lines);
      var p := Passes(SizeScan(lines), PairScan(lines, FcKeys).byTag, PairScan(lines, FcXferKeys).byTag);
      |allDocs| == |AllDocs(c)| && forall i :: 0 <= i < |allDocs| ==> allDocs[i] == Attached(AllDocs(c)[i], c, p)
    ensures topDocs == TopDocs(ParseLines(lines))
  {
    var capture;
    capture, node := ParseNmonFile(lines, stem);
    var fc := ScanPairs(lines, FcKeys);
    var sizes := ScanNetSizes(lines);
    var fcxfer := ScanPairs(lines, FcXferKeys);
    var built := BuildAllDocs(capture);
    allDocs := AttachDocs(built, capture, Passes(sizes, fc, fcxfer));
    topDocs := BuildTopDocs(capture);
  }
}
