/**
 * The record formatters: the schema line of 61 CDE tags, the header line
 * and the trailer line of a ZOE file.
 *
 * The trailer's clock values are parameters: `date` is the creation date
 * (`%Y%m%d` of the current time), `time` the `%H%M%S` of the file epoch,
 * and `epoch` the whole-second file epoch.  The millisecond part the
 * source appends is always the integer 0, because the epoch is truncated
 * to whole seconds before it is read, so CDE0084 is `time` followed by "0".
 */
module RecordFormatter {
  import opened Text

  /** The tags of the schema line, ten to a row as the source lists them. */
  const CdeRow0: seq<string> := ["CDE0380", "CDE0377", "CDE0276", "CDE0157", "CDE0557", "CDE0014", "CDE0011", "CDE1023", "CDE0019", "CDE1024"]
  const CdeRow1: seq<string> := ["CDE1025", "CDE0023", "CDE0029", "CDE0032", "CDE0033", "CDE0036", "CDE0055", "CDE0056", "CDE0077", "CDE0100"]
  const CdeRow2: seq<string> := ["CDE1026", "CDE0141", "CDE0145", "CDE0166", "CDE0175", "CDE0182", "CDE0192", "CDE0199", "CDE0206", "CDE0215"]
  const CdeRow3: seq<string> := ["CDE0216", "CDE0219", "CDE0222", "CDE0227", "CDE0233", "CDE0277", "CDE1027", "CDE0238", "CDE0283", "CDE0284"]
  const CdeRow4: seq<string> := ["CDE0290", "CDE0299", "CDE0309", "CDE0319", "CDE0320", "CDE0321", "CDE0322", "CDE0323", "CDE0324", "CDE0334"]
  const CdeRow5: seq<string> := ["CDE0345", "CDE0354", "CDE0408", "CDE0409", "CDE0802", "CDE1275", "CDE1271", "CDE1272", "CDE1273", "CDE1274"]

  /** The 61 tags of the schema line, in order. */
  const CdeTags: seq<string> := CdeRow0 + CdeRow1 + CdeRow2 + CdeRow3 + CdeRow4 + CdeRow5 + ["CDE0010"]

  /** A tag is "CDE" followed by four digits. */
  predicate IsCdeTag(t: string)
  {
    |t| == 7 && t[..3] == "CDE" && forall i :: 3 <= i < 7 ==> IsDigit(t[i])
  }

  predicate AllCdeTags(ts: seq<string>)
  {
    forall i :: 0 <= i < |ts| ==> IsCdeTag(ts[i])
  }

  lemma {:induction false} AllCdeTagsAppend(a: seq<string>, b: seq<string>)
    requires AllCdeTags(a) && AllCdeTags(b)
    ensures AllCdeTags(a + b)
  {
    forall i | 0 <= i < |a + b| ensures IsCdeTag((a + b)[i]) {
      if i < |a| {
        assert (a + b)[i] == a[i];
      } else {
        assert (a + b)[i] == b[i - |a|];
      }
    }
  }

  /** A tag never contains the field or the pair separator. */
  lemma CdeTagPlain(t: string)
    requires IsCdeTag(t)
    ensures '|' !in t && ':' !in t
  {
    assert t == t[..3] + t[3..];
    assert forall i :: 0 <= i < |t| ==> t[i] != '|' && t[i] != ':';
  }

  lemma CdeHeadRowsWellFormed()
    ensures AllCdeTags(CdeRow0) && AllCdeTags(CdeRow1) && AllCdeTags(CdeRow2)
  {
  }

  lemma CdeTailRowsWellFormed()
    ensures AllCdeTags(CdeRow3) && AllCdeTags(CdeRow4) && AllCdeTags(CdeRow5) && AllCdeTags(["CDE0010"])
  {
  }

  /** The schema has 61 tags, each "CDE" and four digits. */
  lemma CdeTagsWellFormed()
    ensures |CdeTags| == 61 && AllCdeTags(CdeTags)
  {
    CdeHeadRowsWellFormed();
    CdeTailRowsWellFormed();
    AllCdeTagsAppend(CdeRow0, CdeRow1);
    AllCdeTagsAppend(CdeRow0 + CdeRow1, CdeRow2);
    AllCdeTagsAppend(CdeRow0 + CdeRow1 + CdeRow2, CdeRow3);
    AllCdeTagsAppend(CdeRow0 + CdeRow1 + CdeRow2 + CdeRow3, CdeRow4);
    AllCdeTagsAppend(CdeRow0 + CdeRow1 + CdeRow2 + CdeRow3 + CdeRow4, CdeRow5);
    AllCdeTagsAppend(CdeRow0 + CdeRow1 + CdeRow2 + CdeRow3 + CdeRow4 + CdeRow5, ["CDE0010"]);
  }

  /** `build_cde_record()`: the tags joined with `|`. */
  function BuildCdeRecord(): string
  {
    Join(CdeTags, '|')
  }

  /** The schema line splits back into its 61 tags, so it holds 60 separators. */
  lemma CdeRecordFields()
    ensures Split(BuildCdeRecord(), '|') == CdeTags
    ensures CountChar(BuildCdeRecord(), '|') == 60
    ensures AllCdeTags(Split(BuildCdeRecord(), '|'))
  {
    CdeTagsWellFormed();
    forall i | 0 <= i < |CdeTags| ensures '|' !in CdeTags[i] {
      CdeTagPlain(CdeTags[i]);
    }
    SplitJoin(CdeTags, '|');
  }

  /** The schema line opens with CDE0380, CDE0377, CDE0276 and closes with CDE0010. */
  lemma CdeRecordEnds()
    ensures StartsWith(BuildCdeRecord(), "CDE0380|CDE0377|CDE0276|")
    ensures StartsWith(BuildCdeRecord(), "CDE")
    ensures BuildCdeRecord()[|BuildCdeRecord()| - 7..] == "CDE0010"
  {
    var r := BuildCdeRecord();
    assert CdeTags[..3] == ["CDE0380", "CDE0377", "CDE0276"];
    JoinAppend(CdeTags[..3], CdeTags[3..], '|');
    assert CdeTags[..3] + CdeTags[3..] == CdeTags;
    var head: seq<string> := ["CDE0380", "CDE0377", "CDE0276"];
    assert head[1..][1..] == ["CDE0276"];
    assert Join(head[1..], '|') == "CDE0377" + "|" + "CDE0276";
    assert Join(head, '|') == "CDE0380|CDE0377|CDE0276";
    JoinAppend(CdeTags[..60], [CdeTags[60]], '|');
    assert CdeTags[..60] + [CdeTags[60]] == CdeTags;
  }

  /** The environment code: "03" for a test run, "01" otherwise. */
  function EnvCode(test: string): (r: string)
    ensures r == "03" <==> test == "Y"
    ensures r == "01" <==> test != "Y"
  {
    if test == "Y" then "03" else "01"
  }

  /** `build_header_record({'test': test, 'fileType': fileType})`. */
  function BuildHeaderRecord(test: string, fileType: string): string
  {
    Join(["1", fileType, EnvCode(test), "FTF"], '|')
  }

  /** The header has exactly four fields: record type 1, file type, environment code, FTF. */
  lemma HeaderFields(test: string, fileType: string)
    requires '|' !in fileType
    ensures Split(BuildHeaderRecord(test, fileType), '|') == ["1", fileType, EnvCode(test), "FTF"]
  {
    SplitJoin(["1", fileType, EnvCode(test), "FTF"], '|');
  }

  /** The header written out: `1|<file type>|<environment code>|FTF`. */
  lemma HeaderText(test: string, fileType: string)
    ensures BuildHeaderRecord(test, fileType) == "1|" + fileType + "|" + EnvCode(test) + "|FTF"
  {
    var f := ["1", fileType, EnvCode(test), "FTF"];
    assert f[1..][1..][1..] == ["FTF"];
    assert Join(f[2..], '|') == EnvCode(test) + "|" + "FTF";
    assert Join(f[1..], '|') == fileType + "|" + (EnvCode(test) + "|" + "FTF");
    assert Join(f, '|') == "1" + "|" + (fileType + "|" + (EnvCode(test) + "|" + "FTF"));
  }

  /**
   * The environment code in the header is 03 for a test run (`test` is
   * "Y") and 01 for any other value of `test`.
   */
  lemma HeaderEnvCode(test: string, fileType: string)
    ensures test == "Y" ==> BuildHeaderRecord(test, fileType) == "1|" + fileType + "|03|FTF"
    ensures test != "Y" ==> BuildHeaderRecord(test, fileType) == "1|" + fileType + "|01|FTF"
  {
    HeaderText(test, fileType);
  }

  // ---------------------------------------------------------------------
  // trailer
  // ---------------------------------------------------------------------

  /** The keys of the trailer's argument dictionary; a missing key is `None`. */
  datatype TrailerArgs = TrailerArgs(
    recordCt: Option<int>,
    acctHash: Option<int>,
    added: Option<int>,
    changed: Option<int>,
    deleted: Option<int>,
    test: string,
    fileType: string)

  /** The clock values the trailer reads. */
  datatype Clock = Clock(date: string, time: string, epoch: int)

  datatype TrailerError = RecordCountUndefined | AccountHashUndefined

  /** The 19 tags of the trailer's `tag:value` pairs, in order, five to a row. */
  const TrailerTags: seq<string> :=
    ["CDE0083", "CDE0084", "CDE0110", "CDE0111", "CDE0120"] +
    ["CDE0121", "CDE0123", "CDE0133", "CDE0139", "CDE0151"] +
    ["CDE0165", "CDE0418", "CDE0419", "CDE0429", "CDE0430"] +
    ["CDE0467", "CDE0674", "CDE0676", "CDE0811"]

  /** The trailer's tags are well formed, so no pair tag holds a separator. */
  lemma TrailerTagsWellFormed()
    ensures |TrailerTags| == 19 && AllCdeTags(TrailerTags)
  {
    var r0: seq<string> := ["CDE0083", "CDE0084", "CDE0110", "CDE0111", "CDE0120"];
    var r1: seq<string> := ["CDE0121", "CDE0123", "CDE0133", "CDE0139", "CDE0151"];
    var r2: seq<string> := ["CDE0165", "CDE0418", "CDE0419", "CDE0429", "CDE0430"];
    var r3: seq<string> := ["CDE0467", "CDE0674", "CDE0676", "CDE0811"];
    assert AllCdeTags(r0) && AllCdeTags(r1) by {}
    assert AllCdeTags(r2) && AllCdeTags(r3) by {}
    AllCdeTagsAppend(r0, r1);
    AllCdeTagsAppend(r0 + r1, r2);
    AllCdeTagsAppend(r0 + r1 + r2, r3);
  }

  /** `args.get(key, 0)`. */
  function OrZero(v: Option<int>): (r: int)
    ensures v.Some? ==> r == v.value
    ensures v.None? ==> r == 0
  {
    match v
    case Some(n) => n
    case None => 0
  }

  /**
   * The 19 trailer values, in tag order: creation date, time with the
   * millisecond digit, account hash, added, changed, deleted, an empty
   * field, record count, "ZOE", six empty fields, the epoch, an empty
   * field, "A" and an empty client id.
   */
  function TrailerValues(recordCt: int, acctHash: int, args: TrailerArgs, clock: Clock): (r: seq<string>)
    ensures |r| == |TrailerTags|
  {
    [clock.date, clock.time + "0", IntToString(acctHash),
     IntToString(OrZero(args.added)), IntToString(OrZero(args.changed))] +
    [IntToString(OrZero(args.deleted)), "", IntToString(recordCt), "ZOE", ""] +
    ["", "", "", "", ""] +
    [IntToString(clock.epoch), "", "A", ""]
  }

  /** One `tag:value` pair. */
  function Pair(tag: string, value: string): (r: string)
    ensures |r| == |tag| + 1 + |value|
    ensures r[..|tag|] == tag && r[|tag|] == ':' && r[|tag| + 1..] == value
  {
    tag + ":" + value
  }

  /** The `tag:value` pairs, tag by tag. */
  function TrailerPairs(values: seq<string>): (r: seq<string>)
    requires |values| == |TrailerTags|
    ensures |r| == |TrailerTags|
    ensures forall i :: 0 <= i < |r| ==> r[i] == Pair(TrailerTags[i], values[i])
  {
    seq(|TrailerTags|, i requires 0 <= i < |TrailerTags| => Pair(TrailerTags[i], values[i]))
  }

  /**
   * `build_trailer_record(args, file_stat)`: the record count is checked
   * first, then the account hash; otherwise the trailer is the four prefix
   * fields followed by the 19 pairs.
   */
  function BuildTrailerRecord(args: TrailerArgs, clock: Clock): (r: Result<string, TrailerError>)
    ensures args.recordCt.None? <==> r == Failure(RecordCountUndefined)
    ensures args.recordCt.Some? && args.acctHash.None? <==> r == Failure(AccountHashUndefined)
    ensures args.recordCt.Some? && args.acctHash.Some? <==> r.Success?
  {
    if args.recordCt.None? then Failure(RecordCountUndefined)
    else if args.acctHash.None? then Failure(AccountHashUndefined)
    else
      var values := TrailerValues(args.recordCt.value, args.acctHash.value, args, clock);
      Success(Join(["9", args.fileType, EnvCode(args.test), "FTF"] + TrailerPairs(values), '|'))
  }

  /** No trailer value contains `|` when the clock strings do not. */
  lemma TrailerValuesPlain(recordCt: int, acctHash: int, args: TrailerArgs, clock: Clock)
    requires '|' !in clock.date && '|' !in clock.time
    ensures NoSeparator(TrailerValues(recordCt, acctHash, args, clock), '|')
  {
    IntToStringPlain(acctHash);
    IntToStringPlain(OrZero(args.added));
    IntToStringPlain(OrZero(args.changed));
    IntToStringPlain(OrZero(args.deleted));
    IntToStringPlain(recordCt);
    IntToStringPlain(clock.epoch);
    var v0 := [clock.date, clock.time + "0", IntToString(acctHash),
               IntToString(OrZero(args.added)), IntToString(OrZero(args.changed))];
    var v1 := [IntToString(OrZero(args.deleted)), "", IntToString(recordCt), "ZOE", ""];
    var v2: seq<string> := ["", "", "", "", ""];
    var v3 := [IntToString(clock.epoch), "", "A", ""];
    assert NoSeparator(v0, '|') && NoSeparator(v1, '|') && NoSeparator(v2, '|') && NoSeparator(v3, '|');
    NoSeparatorAppend(v0, v1, '|');
    NoSeparatorAppend(v0 + v1, v2, '|');
    NoSeparatorAppend(v0 + v1 + v2, v3, '|');
  }

  /** No pair of the trailer contains `|` when the clock strings do not. */
  lemma TrailerPairsPlain(values: seq<string>)
    requires |values| == |TrailerTags| && NoSeparator(values, '|')
    ensures NoSeparator(TrailerPairs(values), '|')
  {
    TrailerTagsWellFormed();
    var pairs := TrailerPairs(values);
    forall i | 0 <= i < |pairs| ensures '|' !in pairs[i] {
      CdeTagPlain(TrailerTags[i]);
      assert pairs[i] == TrailerTags[i] + ":" + values[i];
    }
  }

  /**
   * The fields of a successful trailer: 4 prefix fields and 19 pairs, each
   * pair its tag, a colon and its value.
   */
  lemma TrailerFields(args: TrailerArgs, clock: Clock)
    requires args.recordCt.Some? && args.acctHash.Some?
    requires '|' !in args.fileType && '|' !in clock.date && '|' !in clock.time
    ensures var values := TrailerValues(args.recordCt.value, args.acctHash.value, args, clock);
      var f := Split(BuildTrailerRecord(args, clock).value, '|');
      && |f| == 23
      && f[..4] == ["9", args.fileType, EnvCode(args.test), "FTF"]
      && (forall i :: 0 <= i < 19 ==> f[4 + i] == Pair(TrailerTags[i], values[i]))
  {
    var values := TrailerValues(args.recordCt.value, args.acctHash.value, args, clock);
    var pairs := TrailerPairs(values);
    var prefix := ["9", args.fileType, EnvCode(args.test), "FTF"];
    TrailerValuesPlain(args.recordCt.value, args.acctHash.value, args, clock);
    TrailerPairsPlain(values);
    assert NoSeparator(prefix, '|');
    NoSeparatorAppend(prefix, pairs, '|');
    SplitJoin(prefix + pairs, '|');
    assert (prefix + pairs)[..4] == prefix;
  }

  /**
   * The totals sit under their tags: CDE0110 the account hash, CDE0111 /
   * CDE0120 / CDE0121 the added, changed and deleted counts (0 when
   * absent), CDE0133 the record count, CDE0139 "ZOE", CDE0467 the epoch
   * and CDE0676 "A"; CDE0084 is the time followed by the digit 0.
   */
  lemma TrailerTaggedValues(args: TrailerArgs, clock: Clock)
    requires args.recordCt.Some? && args.acctHash.Some?
    requires '|' !in args.fileType && '|' !in clock.date && '|' !in clock.time
    ensures var f := Split(BuildTrailerRecord(args, clock).value, '|');
      && |f| == 23
      && f[4] == Pair("CDE0083", clock.date)
      && f[5] == Pair("CDE0084", clock.time + "0")
      && f[6] == Pair("CDE0110", IntToString(args.acctHash.value))
      && f[7] == Pair("CDE0111", IntToString(OrZero(args.added)))
      && f[8] == Pair("CDE0120", IntToString(OrZero(args.changed)))
      && f[9] == Pair("CDE0121", IntToString(OrZero(args.deleted)))
      && f[11] == Pair("CDE0133", IntToString(args.recordCt.value))
      && f[12] == Pair("CDE0139", "ZOE")
      && f[19] == Pair("CDE0467", IntToString(clock.epoch))
      && f[21] == Pair("CDE0676", "A")
  {
    TrailerFields(args, clock);
    var values := TrailerValues(args.recordCt.value, args.acctHash.value, args, clock);
    assert values[..5] == [clock.date, clock.time + "0", IntToString(args.acctHash.value),
                           IntToString(OrZero(args.added)), IntToString(OrZero(args.changed))];
    assert values[5..10] == [IntToString(OrZero(args.deleted)), "", IntToString(args.recordCt.value), "ZOE", ""];
    assert values[15..] == [IntToString(clock.epoch), "", "A", ""];
    assert TrailerTags[..5] == ["CDE0083", "CDE0084", "CDE0110", "CDE0111", "CDE0120"];
    assert TrailerTags[5..10] == ["CDE0121", "CDE0123", "CDE0133", "CDE0139", "CDE0151"];
    assert TrailerTags[15..] == ["CDE0467", "CDE0674", "CDE0676", "CDE0811"];
    var f := Split(BuildTrailerRecord(args, clock).value, '|');
    assert f[4] == Pair(TrailerTags[0], values[0]) && f[5] == Pair(TrailerTags[1], values[1]);
    assert f[6] == Pair(TrailerTags[2], values[2]) && f[7] == Pair(TrailerTags[3], values[3]);
    assert f[8] == Pair(TrailerTags[4], values[4]) && f[9] == Pair(TrailerTags[5], values[5]);
    assert f[11] == Pair(TrailerTags[7], values[7]) && f[12] == Pair(TrailerTags[8], values[8]);
    assert f[19] == Pair(TrailerTags[15], values[15]) && f[21] == Pair(TrailerTags[17], values[17]);
  }

  /** The values left blank outside the third row of tags. */
  lemma TrailerValuesBlank(recordCt: int, acctHash: int, args: TrailerArgs, clock: Clock)
    ensures var values := TrailerValues(recordCt, acctHash, args, clock);
      values[6] == "" && values[9] == "" && values[16] == "" && values[18] == ""
  {
  }

  /**
   * Four tags the converter has no value for are written as bare `tag:`
   * pairs: CDE0123, CDE0151, CDE0674 and CDE0811 (see also
   * `TrailerReservedPairs`).
   */
  lemma TrailerEmptyPairs(args: TrailerArgs, clock: Clock)
    requires args.recordCt.Some? && args.acctHash.Some?
    requires '|' !in args.fileType && '|' !in clock.date && '|' !in clock.time
    ensures var f := Split(BuildTrailerRecord(args, clock).value, '|');
      && |f| == 23
      && f[10] == "CDE0123:" && f[13] == "CDE0151:"
      && f[20] == "CDE0674:" && f[22] == "CDE0811:"
  {
    TrailerFields(args, clock);
    var values := TrailerValues(args.recordCt.value, args.acctHash.value, args, clock);
    TrailerValuesBlank(args.recordCt.value, args.acctHash.value, args, clock);
    assert TrailerTags[5..10] == ["CDE0121", "CDE0123", "CDE0133", "CDE0139", "CDE0151"];
    assert TrailerTags[15..] == ["CDE0467", "CDE0674", "CDE0676", "CDE0811"];
    var f := Split(BuildTrailerRecord(args, clock).value, '|');
    assert f[10] == Pair(TrailerTags[6], values[6]) && f[13] == Pair(TrailerTags[9], values[9]);
    assert f[20] == Pair(TrailerTags[16], values[16]) && f[22] == Pair(TrailerTags[18], values[18]);
  }

  /**
   * The third row of five tags, CDE0165, CDE0418, CDE0419, CDE0429 and
   * CDE0430, is written as bare `tag:` pairs.
   */
  lemma TrailerReservedPairs(args: TrailerArgs, clock: Clock)
    requires args.recordCt.Some? && args.acctHash.Some?
    requires '|' !in args.fileType && '|' !in clock.date && '|' !in clock.time
    ensures var f := Split(BuildTrailerRecord(args, clock).value, '|');
      && |f| == 23
      && f[14] == "CDE0165:" && f[15] == "CDE0418:" && f[16] == "CDE0419:"
      && f[17] == "CDE0429:" && f[18] == "CDE0430:"
  {
    TrailerFields(args, clock);
    var values := TrailerValues(args.recordCt.value, args.acctHash.value, args, clock);
    assert values[10..15] == ["", "", "", "", ""];
    assert TrailerTags[10..15] == ["CDE0165", "CDE0418", "CDE0419", "CDE0429", "CDE0430"];
    var f := Split(BuildTrailerRecord(args, clock).value, '|');
    assert f[14] == Pair(TrailerTags[10], values[10]) && f[15] == Pair(TrailerTags[11], values[11]);
    assert f[16] == Pair(TrailerTags[12], values[12]) && f[17] == Pair(TrailerTags[13], values[13]);
    assert f[18] == Pair(TrailerTags[14], values[14]);
  }

  /** The order of the two checks: a missing record count is reported even when the hash is missing too. */
  lemma TrailerErrorOrder(test: string, fileType: string, clock: Clock)
    ensures BuildTrailerRecord(TrailerArgs(None, None, None, None, None, test, fileType), clock)
      == Failure(RecordCountUndefined)
    ensures BuildTrailerRecord(TrailerArgs(Some(100), None, None, None, None, test, fileType), clock)
      == Failure(AccountHashUndefined)
  {
  }

  /**
   * The trailer starts with its record type 9 and ends with the empty
   * CDE0811 pair, so with `:`.
   */
  lemma TrailerEnds(args: TrailerArgs, clock: Clock)
    requires args.recordCt.Some? && args.acctHash.Some?
    requires '|' !in args.fileType && '|' !in clock.date && '|' !in clock.time
    ensures var t := BuildTrailerRecord(args, clock).value;
      |t| > 0 && t[0] == '9' && t[|t| - 1] == ':'
  {
    var t := BuildTrailerRecord(args, clock).value;
    var values := TrailerValues(args.recordCt.value, args.acctHash.value, args, clock);
    TrailerFields(args, clock);
    var f := Split(t, '|');
    JoinSplit(t, '|');
    assert f[0] == "9";
    assert f[22] == Pair(TrailerTags[18], values[18]);
    JoinEnds(f, '|');
  }
}
