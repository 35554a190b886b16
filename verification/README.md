# ZOE converter — a verified model of the record and file logic

The ZOE converter is an extract job that writes a pipe-delimited "ZOE" flat
file. The file holds:

- a schema line of 61 CDE tags;
- a header line (`1|LOAD|…` or `1|UPDT|…`);
- one `6|A|…` or `6|C|…` detail line per account record;
- a trailer line of four prefix fields and 19 `tag:value` pairs.

The job runs in one of two modes:

- **NEW** writes every extracted record as an addition.
- **DELTA** indexes an earlier ("old") and a later ("new") ZOE file, and writes only the records that are new or changed.

This project models, in Dafny, the parts of `zoe_converter.py` that decide
what goes into the file. It proves the properties the code promises about them.

| module | file | models |
|---|---|---|
| `Text` | `text.dfy` | the Python string built-ins the code uses: `split`, `join`, `strip`, `re.sub(r'\t+', ' ', …)`, `isdigit`/`int`, `str(int)` |
| `IdSelector` | `id_selector.dfy` | `parse_id`: the USA-first choice of one identity entry, padded to six parts |
| `DetailMapper` | `detail_mapper.dfy` | `build_detail_record`, and the per-row convert-and-filter step of `process_zoe_records` |
| `RecordFormatter` | `record_formatter.dfy` | `build_cde_record`, `build_header_record`, `build_trailer_record` |
| `FileIndexer` | `file_indexer.dfy` | `get_zoe_file_hash`: indexing an earlier ZOE file by field 6, with a running account hash |
| `Orchestrator` | `orchestrator.dfy` | the mode check of `run`, the NEW write loop and the DELTA comparison loop |

Modelling choices:

- **Output and inputs.** The output file is the sequence of lines written to it. An input file is a sequence of lines, or `None` when it does not exist.
- **Python dict.** The dict `get_zoe_file_hash` builds is a `ZoeIndex`: keys in insertion order plus a map. A repeated key overwrites the payload and keeps its place.
- **Clock.** The trailer's clock values (creation date, time of day, epoch) are parameters.
- **Source values.** A value read from the database is `Null` (Python `None`, rendered as "") or a string.
- **Loops.** The loops of `get_zoe_file_hash`, of NEW, of DELTA and of the per-row step are methods with loop invariants. Each is proved equal to a function that is its specification. The properties are proved about those functions.

The model follows the code where the code and its documentation or tests disagree:

- **USA rule.** `parse_id` looks for "USA" in part 3 of an entry. In the records the job receives, part 2 is the country, so a US licence is treated as foreign (`IdSelector.SelectIdOnMixedEntries`).
- **Short rows.** A row of fewer than 48 fields gives 49 detail entries, not 57. A row of 12 or fewer fields also gets one blank fewer after the customer id (`DetailMapper.AssembleFields`).
- **Index key.** The indexer keys each line by field 6. In a detail line that is the person number, not the account number (`Orchestrator.NewLineReindexed`).
- **Trailer lines.** Trailer lines are indexed too, keyed by their `CDE0110:<hash>` pair (`FileIndexer.TrailerIndexed`).
- **CDE0084.** The trailer's CDE0084 is the time followed by the single digit `0`. The milliseconds come from an epoch already truncated to whole seconds, so they are always 0.

## Model

| member | source | states |
|---|---|---|
| Text.Split | zoe_converter.py:514 | splitting on the pipe yields one field more than the line has separators, and no field holds the separator |
| Text.SplitJoin | zoe_converter.py:514-519 | splitting a join of separator-free fields gives the same fields back |
| Text.JoinSplit | zoe_converter.py:514-519 | joining the fields of a split gives the line back |
| Text.StripUnchanged | zoe_converter.py:512 | a line with no white space at either end is its own `strip()` |
| Text.StripKeepsCount | zoe_converter.py:118 | `strip()` keeps the count of every non-space character, so of every pipe |
| Text.CollapseTabs | zoe_converter.py:119 | after `re.sub(r'\t+', ' ', …)` no tab is left, the string is no longer, and every other non-space character keeps its count |
| Text.CollapseTabsAppend | zoe_converter.py:119 | the substitution works piecewise on two strings cut anywhere but inside a run of tabs |
| Text.CollapseTabRun | zoe_converter.py:119 | a run of one or more tabs, not followed by a tab, becomes a single space |
| Text.CollapseTabsRunBetween | zoe_converter.py:119 | a run of k >= 1 tabs between two non-tab neighbours becomes one space and the text on either side is collapsed on its own |
| Text.CollapseTabsUnchanged | zoe_converter.py:119 | a record without tabs is left unchanged |
| Text.NatToStringRoundTrip | zoe_converter.py:133 | reading back the decimal `str(seq_nbr + 1)` with `int` gives the same number |
| Text.IntToStringRoundTrip | zoe_converter.py:501 | `str(i)` reads back as `i`: decimal digits without a leading zero when `i >= 0`; a `-` followed by digits that read back as `-i` when `i < 0` |
| Text.IntToStringPlain | zoe_converter.py:498-501 | a rendered integer never holds a pipe or a colon |
| IdSelector.Issued | zoe_converter.py:405 | the filter keeps exactly the entries with more than three parts whose part 3 is (or is not) "USA" |
| IdSelector.IssuedAppend | zoe_converter.py:405 | the filter distributes over concatenation, so the kept entries stay in field order |
| IdSelector.FirstWithIdNumber | zoe_converter.py:409-412 | the search returns an entry with a non-empty part 4, or reports that no entry has one |
| IdSelector.PadToWidth | zoe_converter.py:411 | `entry[:6]` padded by the `while` loop: exactly six parts, part i of the entry or "" |
| IdSelector.NoId | zoe_converter.py:421-425 | with nothing chosen, the result is six empty strings |
| IdSelector.IdEntries | zoe_converter.py:399-402 | the field splits into one entry more than it has pipes, no part holds a colon, and entry i rejoined with colons is the i-th pipe-separated piece of the field |
| IdSelector.SelectId | zoe_converter.py:404-419 | the selection always yields exactly six parts |
| IdSelector.ParseId | zoe_converter.py:392-425 | `parse_id` returns exactly six strings, all empty for an organisation or an empty field |
| IdSelector.FirstIssuedWithIdNumber | zoe_converter.py:405-419 | the first entry a filter keeps that has an id number is the one the search finds |
| IdSelector.NoneIssued | zoe_converter.py:405 | a filter that matches no entry keeps nothing |
| IdSelector.SelectIdUsa | zoe_converter.py:404-412 | the first USA entry with an id number wins, whatever the foreign entries hold |
| IdSelector.SelectIdUsaWithoutNumber | zoe_converter.py:407-412 | when any entry is USA, foreign entries are never consulted: if no USA entry has an id number, the result is six blanks |
| IdSelector.SelectIdForeign | zoe_converter.py:413-419 | with no USA entry, the first foreign entry with an id number wins |
| IdSelector.SelectIdForeignWithoutNumber | zoe_converter.py:413-425 | with no USA entry and no foreign entry carrying an id number, the result is six blanks |
| IdSelector.SelectIdIgnoresShortEntries | zoe_converter.py:405 | when every entry has three or fewer parts, the result is six blanks |
| IdSelector.SelectIdOnMixedEntries | zoe_converter.py:399-419 | a Canadian licence listed before a Texan one is chosen, because part 3 of the Texan one is "TX", not "USA" |
| DetailMapper.FrontFields | zoe_converter.py:324-338 | card number, person number, customer id and the 2-12 block take 14 entries, or 13 for a row of 12 or fewer fields; entry k from 3 on is field k - 1 for a row of more than 12 fields and "" otherwise |
| DetailMapper.MiddleFields | zoe_converter.py:340-371 | email to phone indicator take exactly 18 entries |
| DetailMapper.TailFields | zoe_converter.py:373-380 | 24 entries for a full row; for a short row, as many blanks as bring the list to 48 entries |
| DetailMapper.AssembleFields | zoe_converter.py:324-386 | the list has 57 entries for a row of 48 or more fields and 49 otherwise, and ends with field 49 or "" |
| DetailMapper.DetailFields | zoe_converter.py:324-386 | with the identity parts `parse_id` picks, the list still has 57 or 49 entries and ends with field 49 or "" |
| DetailMapper.AssembleFieldsParts | zoe_converter.py:324-386 | proof helper: the front, middle and tail blocks sit at positions 0, e and e+18, where e is 14 or 13 |
| DetailMapper.AssembleFieldsHead | zoe_converter.py:324-331 | entries 0-1 are fields 0-1 verbatim; entry 2 is the enrichment customer id when the row is not an organisation and that value is non-empty, otherwise the person number |
| DetailMapper.MiddleFieldsLayout | zoe_converter.py:340-371 | proof helper: the email pair, fields 14-15, the six identity parts, fields 17-22 and the phone pair sit in that order |
| DetailMapper.AssembleFieldsMiddle | zoe_converter.py:340-371 | email and phone are the enrichment value followed by "1" under the override rule, otherwise field 13 or 23 (or "") followed by "0"; the identity parts sit between them |
| DetailMapper.DetailFieldsIds | zoe_converter.py:354-356 | the six identity entries are `parse_id(field 16, is_org)` |
| DetailMapper.AssembleFieldsFullRow | zoe_converter.py:333-375 | a full row copies fields 2-12, 14-15, 17-22 and 24-47 to entries 3-13, 16-17, 24-29 and 32-55 |
| DetailMapper.AssembleFieldsShortRow | zoe_converter.py:373-386 | in a short row every entry after the phone indicator is blank |
| DetailMapper.BuildDetailRecord | zoe_converter.py:319-322 | the record is empty exactly when the row has fewer than two fields |
| DetailMapper.Field48NeverRead | zoe_converter.py:373-386 | field 48 is never read: changing it leaves the record unchanged |
| DetailMapper.DetailRecordFields | zoe_converter.py:389 | when no value holds a pipe, splitting the record gives back the 57 or 49 entries |
| DetailMapper.ConvertedSpec | zoe_converter.py:305-311 | a batch contributes one non-empty record per row of two or more fields, in row order, and nothing for shorter rows |
| DetailMapper.ConvertedStep | zoe_converter.py:305-311 | proof helper: one more row adds its record when that record is non-empty |
| DetailMapper.ConvertedRecordsSpec | zoe_converter.py:305-311 | `build_detail_record` meets that condition, so the batch holds exactly its records for the rows of two or more fields |
| DetailMapper.AppendConverted | zoe_converter.py:305-311 | the row loop appends exactly the batch's non-empty records |
| DetailMapper.ConvertQueryRows | zoe_converter.py:293-311 | rows of the `cardOwnPersOrg` and `org` queries are converted with the organisation flag, and empty records are dropped |
| RecordFormatter.CdeTagsWellFormed | zoe_converter.py:585-595 | the schema has 61 tags, each "CDE" and four digits |
| RecordFormatter.CdeRecordFields | zoe_converter.py:585-595 | the schema line splits back into its 61 tags and holds 60 separators |
| RecordFormatter.CdeRecordEnds | zoe_converter.py:585-595 | the schema line begins with the tags CDE0380, CDE0377, CDE0276 and a pipe, and ends with `CDE0010` |
| RecordFormatter.HeaderFields | zoe_converter.py:428-436 | the header splits into exactly 1, file type, environment code, FTF |
| RecordFormatter.HeaderText | zoe_converter.py:428-436 | the header reads 1, the file type, the environment code and FTF, joined by pipes |
| RecordFormatter.HeaderEnvCode | zoe_converter.py:428-436 | the header is `1`, file type, `03`, `FTF` when test is "Y", and has `01` in place of `03` for any other value |
| RecordFormatter.TrailerTagsWellFormed | zoe_converter.py:468-473 | the trailer has 19 tags, each "CDE" and four digits |
| RecordFormatter.TrailerValues | zoe_converter.py:475-495 | one value per trailer tag |
| RecordFormatter.BuildTrailerRecord | zoe_converter.py:439-501 | a missing record count is reported first, then a missing account hash; otherwise a trailer is produced |
| RecordFormatter.TrailerErrorOrder | zoe_converter.py:450-453 | with both keys missing, the record-count error is the one reported |
| RecordFormatter.TrailerValuesPlain | zoe_converter.py:475-495 | no trailer value holds a pipe when the clock strings do not |
| RecordFormatter.TrailerPairsPlain | zoe_converter.py:498 | no pair holds a pipe when its value does not |
| RecordFormatter.TrailerFields | zoe_converter.py:461-501 | the trailer splits into 23 fields: 9, file type, environment code, FTF, then the 19 pairs in tag order |
| RecordFormatter.TrailerTaggedValues | zoe_converter.py:455-501 | CDE0083 holds the date, CDE0084 the time and "0", CDE0110 the hash, CDE0111/0120/0121 the counts (0 when missing), CDE0133 the record count, CDE0139 "ZOE", CDE0467 the epoch and CDE0676 "A" |
| RecordFormatter.TrailerEmptyPairs | zoe_converter.py:468-498 | CDE0123, CDE0151, CDE0674 and CDE0811 are written as bare `tag:` pairs |
| RecordFormatter.TrailerReservedPairs | zoe_converter.py:468-498 | CDE0165, CDE0418, CDE0419, CDE0429 and CDE0430 are written as bare `tag:` pairs |
| RecordFormatter.TrailerEnds | zoe_converter.py:461-501 | the trailer starts with `9` and ends with the empty CDE0811 pair, so with `:` |
| FileIndexer.EmptyIndex | zoe_converter.py:506-507 | the index starts empty and well formed |
| FileIndexer.Put | zoe_converter.py:520 | `hash_zoe[key] = value` sets that key, leaves every other key alone and keeps the existing key order as a prefix |
| FileIndexer.PutValid | zoe_converter.py:520 | storing keeps the dict well formed: an existing key keeps its place, a new key goes last |
| FileIndexer.ParseIndexLine | zoe_converter.py:512-524 | an indexed line's key holds no pipe |
| FileIndexer.GetZoeFileHash | zoe_converter.py:504-530 | a missing file gives an empty index and hash 0; otherwise the index and hash after reading every line in order, and the index is well formed |
| FileIndexer.IndexOfValid | zoe_converter.py:511-520 | the index is a well-formed ordered dict |
| FileIndexer.IndexOfKeys | zoe_converter.py:511-520 | a key is in the index exactly when some line is indexed under it |
| FileIndexer.IndexOfLastWins | zoe_converter.py:517-520 | the payload under a key is that of the last line indexed under it |
| FileIndexer.IndexOfOrderStable | zoe_converter.py:511-520 | reading more lines never reorders keys already read |
| FileIndexer.ChecksumOfAppend | zoe_converter.py:522-524 | the hash of two runs of lines is the sum of their hashes |
| FileIndexer.ParseJoinedLine | zoe_converter.py:512-524 | a clean joined line of more than six fields is indexed under field 6, with fields 5 onward as its payload and field 6's digits as its hash contribution |
| FileIndexer.SplitLineIndexed | zoe_converter.py:512-524 | the same holds for any clean line of more than six fields that does not start with C |
| FileIndexer.ShortLineSkipped | zoe_converter.py:515 | a line of six or fewer fields is skipped |
| FileIndexer.CdeLineSkipped | zoe_converter.py:513 | a line starting with "CDE" after stripping is skipped |
| FileIndexer.CdeRecordSkipped | zoe_converter.py:513 | the schema line is skipped |
| FileIndexer.HeaderSkipped | zoe_converter.py:515 | a header line has four fields and is skipped |
| FileIndexer.TrailerIndexed | zoe_converter.py:512-524 | a trailer line is indexed under its `CDE0110:<hash>` pair and adds nothing to the hash |
| Orchestrator.PrefixFields | zoe_converter.py:128-134 | the detail prefix has five separator-free fields |
| Orchestrator.DetailPrefixFields | zoe_converter.py:128-134 | the prefix splits back into 6, action, environment, FTF and the number, which reads back as `seq_nbr` |
| Orchestrator.CleanRecord | zoe_converter.py:118-119 | a cleaned record holds no tab |
| Orchestrator.CleanRecordKeepsSeparators | zoe_converter.py:118-121 | cleaning neither adds nor removes a pipe |
| Orchestrator.CleanRecordUnchanged | zoe_converter.py:118-119 | a record without tabs or surrounding white space is left unchanged |
| Orchestrator.KeptFieldsDropLast | zoe_converter.py:126-139 | for a record of at most 57 fields, the kept fields plus the dropped last field are all the fields; a longer record keeps its first 56 |
| Orchestrator.NewDetailLineFields | zoe_converter.py:118-139 | a NEW line splits into the five prefix fields followed by the kept fields: 5 + min(56, p) fields, where p is the record's pipe count |
| Orchestrator.NewLineDropsStatus | zoe_converter.py:126-139 | for a full detail record, NEW writes every entry but the account status |
| Orchestrator.NumberedLines | zoe_converter.py:117-140 | one line per record |
| Orchestrator.NumberedLinesAt | zoe_converter.py:117-140 | line j is record j rendered with number j + 1 |
| Orchestrator.NewDetailLines | zoe_converter.py:117-140 | NEW writes one line per record |
| Orchestrator.NewDetailLinesAt | zoe_converter.py:117-140 | NEW line j is record j's line with sequence number j + 1, so the numbers run 1..n with no gap |
| Orchestrator.NewStep | zoe_converter.py:117-140 | proof helper: one more record adds its line and its amount |
| Orchestrator.NewTurn | zoe_converter.py:118-139 | the loop body computes the record's detail line and its hash amount |
| Orchestrator.WriteNewDetails | zoe_converter.py:117-140 | the NEW loop writes the numbered lines of all records, ends with `seq_nbr` = `added` = n, and sums the all-digit field 3 values |
| Orchestrator.DeltaDetailLines | zoe_converter.py:176-209 | DELTA writes one line per emission |
| Orchestrator.DeltaDetailLinesAt | zoe_converter.py:176-209 | DELTA line j is emission j's line with sequence number j + 1 |
| Orchestrator.CountAction | zoe_converter.py:186-202 | a count of one action never exceeds the number of emissions |
| Orchestrator.EmittedKeys | zoe_converter.py:176 | every emission is of a key of the new index and carries that key's new payload |
| Orchestrator.EmitStep | zoe_converter.py:176-209 | proof helper: one more emission adds its line, one to its action's count and its amount |
| Orchestrator.EmittedStep | zoe_converter.py:176-209 | proof helper: one more key adds its emission, if it has one |
| Orchestrator.DeltaAdvanceCases | zoe_converter.py:176-209 | proof helper: a key DELTA writes adds its line, its count and its amount; any other key changes nothing |
| Orchestrator.DeltaRunStep | zoe_converter.py:176-209 | proof helper: the loop state after one more key |
| Orchestrator.DeltaTurn | zoe_converter.py:177-209 | the branches of the loop body compute one turn |
| Orchestrator.WriteDeltaDetails | zoe_converter.py:171-209 | the DELTA loop visits the new index's keys in order, starting from the new file's hash |
| Orchestrator.DeltaAdvanceSummary | zoe_converter.py:176-209 | a turn extends the summary by the key's emission |
| Orchestrator.DeltaRunSpec | zoe_converter.py:171-209 | the loop writes one line per emission, numbered from 1, counts the additions and changes, and adds each emitted payload's field 3 amount to the new file's hash |
| Orchestrator.EmittedSpec | zoe_converter.py:176-209 | a key is emitted as an addition exactly when it is new, and as a change exactly when its payload differs; a key only in the old index is never emitted |
| Orchestrator.CountActionTotal | zoe_converter.py:186-203 | additions and changes add up to the lines written |
| Orchestrator.DeltaLineFields | zoe_converter.py:180-193 | a DELTA line splits into the five prefix fields followed by the payload's fields |
| Orchestrator.PrefixedLineReindexed | zoe_converter.py:512-524 | a prefixed detail line is read back under the field after the sequence number, with the fields after the prefix as payload |
| Orchestrator.DeltaLineReindexed | zoe_converter.py:193 | reading a DELTA line back gives the payload it was written from, under the payload's field 1 |
| Orchestrator.NewLineReindexed | zoe_converter.py:139 | reading a NEW line back gives kept field 1 (the person number) as key and the kept fields as payload |
| Orchestrator.DeltaLineExamples | zoe_converter.py:180-209 | a production change line splits into 6, C, 01, FTF, 1 and the payload; a test addition line into 6, A, 03, FTF, 2 and the payload |
| Orchestrator.DeltaExample | zoe_converter.py:176-209 | with one changed key and one new key, the changed one is written first as C and the new one second as A |
| Orchestrator.FileIndex | zoe_converter.py:504-530 | the index of a present or missing file is well formed |
| Orchestrator.JobFileShape | zoe_converter.py:106-150 | schema line, header, the detail lines, then a trailer with the hash, added, changed, deleted 0 and a record count of details + 2 |
| Orchestrator.WriteJobFile | zoe_converter.py:106-150 | the writes produce exactly those lines |
| Orchestrator.WriteNewFile | zoe_converter.py:106-150 | NEW writes the NEW file |
| Orchestrator.NewFileShape | zoe_converter.py:106-150 | the NEW file has n + 3 lines: LOAD header, added = n, changed = deleted = 0, record count n + 2, and the NEW hash |
| Orchestrator.WriteDeltaOutput | zoe_converter.py:158-221 | DELTA writes the DELTA file for the emissions of the new index against the old |
| Orchestrator.WriteDeltaFile | zoe_converter.py:158-221 | DELTA indexes the old and the new file, then writes the DELTA file |
| Orchestrator.DeltaFileShape | zoe_converter.py:158-221 | the DELTA file has k + 3 lines: UPDT header, added + changed = k, deleted = 0, record count k + 2, and hash = new file's hash plus the emitted amounts |
| Orchestrator.RunJob | zoe_converter.py:52-223 | an invalid mode fails before any line is written; NEW and DELTA produce their files |

## Left out

- Database access is not modelled: the connection functions, `execute_sql_select` and the cursor paging of `process_zoe_records`. A batch of rows is a parameter, and only the per-row step is modelled.
- Building the enrichment map from the P2P query is not modelled. The map is a parameter.
- Threads are not modelled: `thread_sub`, the shared `Manager().list()`, the join barrier and the start delay. The extracted records are a given sequence, because their order depends on the thread schedule.
- Configuration, argument parsing and `initialize` are not modelled, and neither is printing.
- File-system effects are reduced to lines. The output is modelled as the lines it ends up holding, and inputs as their lines or `None`. Beyond that, the model leaves out:
  - `os.stat`;
  - newline handling on reading. `Orchestrator.NewLineReindexed` and `Orchestrator.DeltaLineReindexed` assume a written line reads back as one line. A database value holding `\n` or `\r` would split it under Python's universal newlines (zoe_converter.py:510-511);
  - the first CDE-only writing of the output, which the reopen overwrites;
  - an exception other than a missing file while an input is read;
  - aliasing between the output file and the input files. `Orchestrator.WriteDeltaFile` and `Orchestrator.RunJob` take the old and new files as values independent of the output, so they assume the output path differs from both input paths. In DELTA the output is opened for writing, and so emptied, before the old and new files are read (zoe_converter.py:158-171). An input path naming the output would read a truncated, probably empty, file and give an empty index.
- The clock is a set of parameters (date, time of day, epoch), not read from the system.
- The `isdigit` and `strip` models cover ASCII only. Python also accepts other Unicode digits and white space.
- Rendering is simplified: `str(val)` of a non-string database value (a number or a date) is modelled as a string the row already holds.
- Partial results are not modelled: the records a query had added before one of its rows raised an exception.
- FileIndexer.ParseIndexLine: its contract says only that a key holds no pipe. The skip and index rules are stated in `FileIndexer.ParseJoinedLine`, `FileIndexer.SplitLineIndexed`, `FileIndexer.ShortLineSkipped` and `FileIndexer.CdeLineSkipped`.
- IdSelector.SelectId: its contract gives only the width. Which entry is chosen is stated in `IdSelector.SelectIdUsa`, `IdSelector.SelectIdUsaWithoutNumber`, `IdSelector.SelectIdForeign`, `IdSelector.SelectIdForeignWithoutNumber` and `IdSelector.SelectIdIgnoresShortEntries`.
- Orchestrator.NumberedLines: its contract gives only the number of lines. Line contents are stated in `Orchestrator.NumberedLinesAt`. The same holds for Orchestrator.NewDetailLines (see `Orchestrator.NewDetailLinesAt`) and Orchestrator.DeltaDetailLines (see `Orchestrator.DeltaDetailLinesAt`).
- Orchestrator.CountAction: its contract gives only the bound. The totals are stated in `Orchestrator.CountActionTotal` and `Orchestrator.DeltaRunSpec`.
- RecordFormatter.TrailerValues: its contract gives only the number of values. What each pair of the written trailer holds is stated in `RecordFormatter.TrailerTaggedValues` (the filled pairs), `RecordFormatter.TrailerEmptyPairs` and `RecordFormatter.TrailerReservedPairs` (the empty ones).
- Orchestrator.WriteDeltaDetails: requires every key of the new index to be in its map. `FileIndexer.GetZoeFileHash` guarantees this for every index it builds.
- Orchestrator.NewLineDropsStatus: stated for records that cleaning leaves unchanged and that have no `|` inside a value.
- Orchestrator.DeltaLineExamples: stated for any payload without `|`, not for one literal payload.
- Orchestrator.DeltaExample: stated for either environment code, not for one literal value.
