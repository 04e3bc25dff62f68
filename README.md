# nmon2plotly: parsing and document assembly, modelled in Dafny

`nmon2plotly.py` reads an nmon performance capture, a text file of
comma-separated rows. Each row names a section (`ZZZZ`, `CPU_ALL`, `MEM`,
`DISKREAD`, `TOP`, ...) and, for data rows, a snapshot tag `Tnnnn`. The
script then writes two NDJSON document lists and HTML charts. This project
models the part that turns lines into documents:

- `parse_nmon_file`. It reads the lines in order and fills one dictionary per
  section, keyed by tag. It also keeps the tag-to-timestamp map, the first
  header row of every header-driven section, the TOP process samples, and
  the per-core CPU sums. The node name falls back to the file's stem.
- `parse_date_time`, and the date fallback used on `ZZZZ` rows.
- Three second passes in `process_file`. The `FCREAD`/`FCWRITE` and
  `FCXFERIN`/`FCXFEROUT` passes re-read the file with their own,
  latest-wins headers and name values `<iface>-read` and so on. The
  `NETSIZE` pass keeps four fixed names.
- `build_all_docs`. It makes one document per tag, over the union of the
  sixteen primary tables and the timestamp map, in sorted order. A tag
  gets a document only when it has a non-empty timestamp and at least one
  section.
- The attach loop. It looks up `the_tag` by scanning the timestamp map in
  insertion order for the document's timestamp. It then adds the eleven
  secondary sections; `cpu_use` holds each core's mean of the accepted
  readings.
- `build_top_docs`. It makes one document per TOP sample, in first-seen
  tag order.

Modules, in dependency order:
- `Wrappers`: an `Option` type.
- `Text`: Python's `strip` and `split(',')`, the date and `CPU\d+` regexes,
  `float()`, and Python's code-point string order.
- `Decode`: the field coercions, the fixed-schema record decoders, TOP
  samples, CPUnn sums and timestamps.
- `Capture`: the parse state as a value, and one line's effect `Step`.
  `Step` classifies the line (`Classify`), then applies the classified row
  (`Apply`). `ParseLines` folds it over the file.
- `CaptureLaws`: the invariant, and what classification means.
- `History`: each part of the final state equals an independent reference
  fold over the lines:
  - the last `AAA` value;
  - the last `ZZZZ` row of a tag;
  - the first header;
  - the last accepted record;
  - the TOP rows in file order;
  - the sums of the accepted core readings.
- `Session`: `parse_nmon_file` as the source runs it. It is a class whose
  dictionaries are updated in place line by line, proved equal to the fold.
- `Rescan`: the three second passes as loops, each proved equal to its fold,
  with the fold's meaning proved.
- `Assemble`: sorting, `build_all_docs`, the attach loop (over an array,
  updated in place), `build_top_docs`, and `process_file` end to end.

Take two CPUnn readings, (0.02, 0.01) and (0.10, 0.20). Averaging every
reading would give (0.06, 0.105). The code tests each row against the 0.05
floor before it accumulates anything, so the first row is dropped and the
average is (0.10, 0.20) (`Decode.NoiseRowExcluded`).

## Model

| member | source | states |
|---|---|---|
| `Text.Strip` | nmon2plotly.py:128 | the result is a sub-range of the input, and neither end is a Python whitespace character |
| `Text.StripSlice` | nmon2plotly.py:128 | the result is the slice of the input between a run of leading and a run of trailing whitespace, and it is empty exactly when the input is all whitespace |
| `Text.StripIdempotent` | nmon2plotly.py:128 | stripping twice is stripping once |
| `Text.Split` | nmon2plotly.py:131 | at least one field, and no field contains a comma |
| `Text.JoinSplit` | nmon2plotly.py:131 | joining the fields with commas gives back the line |
| `Text.SplitCommaFree` | nmon2plotly.py:131 | a line without commas is one field |
| `Text.Upper` | nmon2plotly.py:137 | same length, each character upper-cased |
| `Text.DateTextIsPattern` | nmon2plotly.py:137 | the date test is the DD-MMM-YYYY pattern applied to the upper-cased text |
| `Text.ParseNum` | nmon2plotly.py:148-151 | blank text is not a number; otherwise a decimal literal is read, as `float()` does |
| `Text.StrLessIrreflexive` | nmon2plotly.py:717 | no string sorts before itself |
| `Text.StrLessTransitive` | nmon2plotly.py:717 | the sort order is transitive |
| `Text.StrLessTotal` | nmon2plotly.py:717 | of two different strings, one sorts first |
| `Text.StrLessAsymmetric` | nmon2plotly.py:717 | never both a before b and b before a |
| `Decode.Num` | nmon2plotly.py:148-151 | a missing field fails the row; a blank field reads 0.0 |
| `Decode.OptNum` | nmon2plotly.py:181 | an optional trailing field reads 0.0 when absent, otherwise as a required one |
| `Decode.RowValues` | nmon2plotly.py:378-383 | one value per field after the tag |
| `Decode.Zip` | nmon2plotly.py:384-386 | keys are exactly the header names; each name takes the value of its last position |
| `Decode.Padded` | nmon2plotly.py:384-386 | exactly one value per header name, 0.0 past the end of the row |
| `Decode.DecodeColumns` | nmon2plotly.py:384-387 | keys are exactly the header names; a name takes its last column's value, or 0.0 past the end of the row |
| `Decode.DecodeCpuAll` | nmon2plotly.py:144-154 | a record exactly when fields 2-5 are numeric, holding their values |
| `Decode.DecodeLpar` | nmon2plotly.py:176-190 | a record exactly when fields 2, 3 and the optional 6 are numeric; entitled is 0.0 when field 6 is absent |
| `Decode.DecodeProc` | nmon2plotly.py:191-220 | a record exactly when the six required counters at fields 2-7 are numeric, with the four optional counters at 8-11 read when present; rows of seven fields or fewer give none |
| `Decode.DecodeMemNew` | nmon2plotly.py:277-291 | a record exactly when its fields are numeric, holding their values |
| `Decode.DecodeMemPercent` | nmon2plotly.py:292-303 | a record exactly when fields 2 and 3 are numeric; used is 100 minus free |
| `Decode.DecodeMemMb` | nmon2plotly.py:304-318 | a record exactly when fields 4-7 are numeric |
| `Decode.DecodeMem` | nmon2plotly.py:292-322 | the megabyte record exists only when the percent record does |
| `Decode.DecodeMemUse` | nmon2plotly.py:549-565 | a record exactly when fields 2-4 are numeric |
| `Decode.Abs` | nmon2plotly.py:566-592 | non-negative, and equal to the value or its negation |
| `Decode.DecodePage` | nmon2plotly.py:566-592 | a record exactly when fields 3-6 are numeric; page-outs are stored as minus their absolute value |
| `Decode.DecodeTop` | nmon2plotly.py:221-257 | fails only on a non-numeric CPU field; the PID is field 1; the command is field 13 or "?"; CharIO and Memory default to 0.0 |
| `Decode.AddCoreSample` | nmon2plotly.py:156-174 | a reading at or below 0.05 changes nothing; otherwise it adds to that core's sums and count and leaves every other core alone |
| `Decode.Averages` | nmon2plotly.py:2982-2984 | same cores; each mean times the count gives back the sum |
| `Decode.NoiseRowExcluded` | nmon2plotly.py:163 | a row below the floor does not enter the average |
| `Decode.ResolveTimestamp` | nmon2plotly.py:15-17 | a valid date is kept; else the fallback date is used; with no fallback the invalid date is kept; then the time is appended |
| `Capture.Put` | nmon2plotly.py:146 | one table gains the record; every other table and all other state are unchanged |
| `Capture.KindOf` | nmon2plotly.py:133-650 | a line is only treated as a per-core CPU row when its key matches `CPU` followed by digits |
| `Capture.ApplyDiscovered` | nmon2plotly.py:371-389 | a header-driven row changes only the tables and the headers |
| `Capture.ApplyMem` | nmon2plotly.py:292-322 | a MEM row changes only the tables |
| `Capture.Fields` | nmon2plotly.py:128-131 | a non-blank line has at least one field |
| `CaptureLaws.NameInjective` | nmon2plotly.py:721-760 | two sections never share a document key and none is `@timestamp`, so a document holds one entry per section beside its timestamp |
| `CaptureLaws.InitialInv` | nmon2plotly.py:39-122 | the empty state satisfies the invariant |
| `CaptureLaws.TimestampInv` | nmon2plotly.py:134-142 | a ZZZZ row keeps the invariant |
| `CaptureLaws.ProcessInv` | nmon2plotly.py:245-252 | a TOP row keeps the invariant |
| `CaptureLaws.ApplyInv` | nmon2plotly.py:128-650 | every row keeps the invariant |
| `CaptureLaws.ParseLinesInv` | nmon2plotly.py:125-650 | after any file: the order lists hold each key once, timestamps are non-empty, and every TOP tag has a sample |
| `CaptureLaws.KindOfNames` | nmon2plotly.py:133-566 | each fixed key dispatches to its own branch |
| `CaptureLaws.KindOfSound` | nmon2plotly.py:133-650 | a branch is taken only for its own key; a per-core row exactly for keys `CPU` followed by digits |
| `CaptureLaws.KindOfDiscoveredSound` | nmon2plotly.py:258-650 | a header-driven branch is taken exactly for the fifteen header-driven keys, each for its own table |
| `CaptureLaws.KindOfSchemas` | nmon2plotly.py:258-650 | the rules of FILE (File I/O marker, more than one field), NET and NETPACKET (values kept without a header, more than two fields), and JFSFILE, SEA, SEAPACKET and SEACHPHY (header required, more than one field) |
| `CaptureLaws.KindOfDiskSchemas` | nmon2plotly.py:371-526 | DISKREAD, DISKWRITE, DISKBUSY, DISKWAIT, VGREAD, VGWRITE, VGBUSY and VGSIZE each need a header and more than two fields |
| `CaptureLaws.ClassifyTimestamp` | nmon2plotly.py:134-142 | a timestamp row exactly for ZZZZ with at least four fields, taking tag, date and time from fields 1, 3 and 2 |
| `CaptureLaws.ClassifyMeta` | nmon2plotly.py:361-368 | node name and fallback date come exactly from AAA rows with more than two fields |
| `CaptureLaws.ClassifyProcess` | nmon2plotly.py:221-257 | a sample exactly for TOP rows whose field 2 is a tag and whose CPU field reads |
| `CaptureLaws.ClassifyCore` | nmon2plotly.py:156-174 | a core reading exactly for tagged `CPU` plus digits rows with numeric user and sys fields |
| `CaptureLaws.ClassifyDiscovered` | nmon2plotly.py:258-647 | a header-driven row exactly for the keys with a discovered schema |
| `CaptureLaws.ClassifyFixed` | nmon2plotly.py:144-220 | a fixed record exactly for tagged rows of a fixed section whose decoder succeeds |
| `CaptureLaws.ClassifyMem` | nmon2plotly.py:292-322 | a memory row exactly for tagged MEM rows whose percent fields read |
| `History.ApplyFrame` | nmon2plotly.py:128-650 | each kind of row changes only its own part of the state |
| `History.MetaIsLast` | nmon2plotly.py:361-368 | the node name and fallback date are the last AAA values in the file, or "" |
| `History.TimestampIsLast` | nmon2plotly.py:134-142 | a tag has a timestamp exactly when some ZZZZ row names it, and the timestamp is resolved from the last such row |
| `History.HeaderIsFirst` | nmon2plotly.py:371-375 | a section's header is its first header row, never replaced |
| `History.DroppedBeforeHeader` | nmon2plotly.py:376-389 | a data row arriving before its section's header changes nothing |
| `History.DataRowDecoded` | nmon2plotly.py:376-389 | a data row after the header stores its columns decoded against that header |
| `History.NetBeforeHeader` | nmon2plotly.py:323-341 | a NET data row with no header yet stores an empty record |
| `History.DiscoveredIsLatest` | nmon2plotly.py:258-650 | a header-driven section holds a record for a tag exactly when a data row of that tag was accepted; the record is the last such row decoded against the first header read before it, or against no columns for NET and NETPACKET rows before their header |
| `History.FixedIsLatest` | nmon2plotly.py:144-220 | a fixed-section tag holds the record of its last decodable row; a row that fails to decode leaves the earlier record |
| `History.TopIsRows` | nmon2plotly.py:221-257 | a tag's samples are its accepted TOP rows in file order |
| `History.CoresAreSums` | nmon2plotly.py:156-174 | a core appears exactly when it has an accepted reading; its sums and count are those readings' totals |
| `Session.ParseSession.constructor` | nmon2plotly.py:39-122 | every dictionary starts empty |
| `Session.ParseSession.Feed` | nmon2plotly.py:128-650 | one line updates the fields to the state `Step` gives |
| `Session.ParseSession.PutRecord` | nmon2plotly.py:146 | one table entry is written in place |
| `Session.ParseSession.ApplyRow` | nmon2plotly.py:133-650 | the branch taken updates the fields to `Apply` of the row |
| `Session.ParseSession.SetTimestamp` | nmon2plotly.py:134-142 | the tag's timestamp is set, and a new tag is appended to the order |
| `Session.ParseSession.AppendSample` | nmon2plotly.py:245-252 | the sample is appended to the tag's list, which is created on first use |
| `Session.ParseSession.AddReading` | nmon2plotly.py:163-171 | the core's sums are created at zero when missing, then added to |
| `Session.ParseSession.DiscoveredRow` | nmon2plotly.py:371-389 | the first header row is kept; a data row after it is decoded |
| `Session.NodeOrStem` | nmon2plotly.py:651-652 | an empty node name is replaced by the file's stem |
| `Session.ParseNmonFile` | nmon2plotly.py:34-683 | the state built in place is the fold over all lines; the node is the last AAA NodeName or the stem |
| `Rescan.LastSlot` | nmon2plotly.py:2842-2846 | the last header position whose suffixed name is the key |
| `Rescan.MergeValue` | nmon2plotly.py:2842-2846 | a merged key takes the value at its last header position (0.0 past the row); other keys keep theirs |
| `Rescan.PairHeadersAreLatest` | nmon2plotly.py:2827-2832 | each pass's two headers are the latest untagged header rows |
| `Rescan.PairValuesAreLatest` | nmon2plotly.py:2817-2858 | a tag appears exactly when a data row arrived after a non-empty header; each name holds the value from the last row that wrote it |
| `Rescan.SizeRecord` | nmon2plotly.py:2877-2881 | the four fixed NETSIZE names |
| `Rescan.LastSizes` | nmon2plotly.py:2868-2876 | the last tagged NETSIZE row with at least four values |
| `Rescan.SizesAreLatest` | nmon2plotly.py:2860-2881 | a tag appears exactly when it had such a row; its record is that row's first four values |
| `Rescan.CollectRow` | nmon2plotly.py:2842-2846 | the interface loop merges the row into the tag's entry |
| `Rescan.ScanPairs` | nmon2plotly.py:2817-2858 | the FC (and FCXFER) pass computes the fold |
| `Rescan.ScanNetSizes` | nmon2plotly.py:2860-2881 | the NETSIZE pass computes the fold |
| `Rescan.SizeLine` | nmon2plotly.py:2864-2881 | one NETSIZE line's effect |
| `Assemble.Least` | nmon2plotly.py:717 | the returned tag is in the set and sorts before every other one |
| `Assemble.SortedTags` | nmon2plotly.py:717 | ascending, and holding exactly the set's tags |
| `Assemble.SectionsOf` | nmon2plotly.py:722-758 | exactly the primary sections whose table holds the tag, with that table's record |
| `Assemble.AllDocsSound` | nmon2plotly.py:689-763 | tags ascend; a tag has a document exactly when its timestamp is non-empty and some primary table holds it; the document holds that timestamp and those sections |
| `Assemble.BuildAllDocs` | nmon2plotly.py:689-763 | the loop returns the documents `AllDocsSound` describes |
| `Assemble.DocSectionsOf` | nmon2plotly.py:722-758 | the sixteen section tests give `SectionsOf` |
| `Assemble.FirstTag` | nmon2plotly.py:2950-2954 | a found tag has the timestamp; when none is found, no tag in the order has it |
| `Assemble.FirstTagIsFirst` | nmon2plotly.py:2950-2954 | the first match in insertion order is the one found |
| `Assemble.SharedTimestampAttachesFirst` | nmon2plotly.py:2950-2954 | when two snapshots share one timestamp, the search finds the earlier one, whose sections the later snapshot's document then receives |
| `Assemble.FindTag` | nmon2plotly.py:2950-2954 | the early-exit loop finds the first match |
| `Assemble.AttachedSections` | nmon2plotly.py:2955-2984 | each secondary section present for `the_tag` is attached with its value; everything else is kept |
| `Assemble.AttachOwnTag` | nmon2plotly.py:2948-2984 | when the document's tag is the first with its timestamp, it gets its own tag's secondary sections; its primary sections are kept |
| `Assemble.AttachOne` | nmon2plotly.py:2949-2984 | one document's attach step |
| `Assemble.AttachAll` | nmon2plotly.py:2948-2984 | each array element becomes its attached document |
| `Assemble.TagTopDocs` | nmon2plotly.py:767-774 | one document per sample, in order, under the tag's timestamp; none without a timestamp |
| `Assemble.TopDocsSound` | nmon2plotly.py:765-775 | every TOP document carries a tag's non-empty timestamp and one of that tag's samples |
| `Assemble.TopDocsOfLines` | nmon2plotly.py:765-775 | a tag's TOP documents are its TOP rows in file order, under its last ZZZZ timestamp |
| `Assemble.BuildTopDocs` | nmon2plotly.py:765-775 | the nested loop returns `TopDocs` |
| `Assemble.ProcessFile` | nmon2plotly.py:2783-2985 | node, documents and TOP documents are those the folds above define |

## Left out

- File I/O is not modelled: `open`, `read_in_chunks`, `write_ndjson`, `os.path`, directory creation, command-line handling and `main`. The file arrives as a sequence of lines, and the stem of its name as a parameter.
- All HTML and chart generation is left out. It is not part of the parsing core.
- Documents are maps from section to record. Key order inside JSON objects, and JSON serialisation, are not modelled.
- Record values are real numbers. Floating-point rounding is not modelled, so sums and means are exact.
- A `try/except` around a whole row (the fixed-schema decoders, such as MEMNEW at nmon2plotly.py:277-290) is modelled as a decoding failure, and the row is skipped. A `try/except` around one column reads 0.0 for that column and keeps the row, as `Decode.FieldValue` models. These are the header-driven loops (nmon2plotly.py:266-270 and the like), the TOP CharIO and memory fields (236-245), and the rescans at 2836-2840 and 2873-2877.
- Text.ParseNum: reads decimal literals with an optional sign, fraction and exponent. Python's `float()` also accepts `inf`, `nan` and digit-group underscores; those read as non-numbers here. It also accepts decimal digits outside ASCII (Arabic-Indic digits, for instance), which `Text.ParseNum` rejects.
- Text.Upper: upper-cases ASCII letters only. Python's `upper()` is Unicode-aware, and so is `\d` in the date and `CPU\d+` patterns; the model accepts ASCII digits only.
- Missing values (`None` and empty strings), which Python treats as false, are modelled as the empty string.
- A snapshot timestamp is never empty after parsing; `CaptureLaws.ParseLinesInv` proves this. The `if not dt` branches are modelled anyway.
