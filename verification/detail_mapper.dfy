/**
 * The detail mapper (`build_detail_record`) and the per-row step of the
 * extraction (`process_zoe_records`): a positional source row, plus an
 * optional enrichment record keyed by person number, becomes one
 * `|`-joined detail record.
 *
 * Field layout of a full row (48 or more source fields), as output positions:
 *   0-1 card and person number, 2 customer id, 3-13 source fields 2-12,
 *   14-15 email and its 0/1 flag, 16-17 source fields 14-15,
 *   18-23 the six identity parts, 24-29 source fields 17-22,
 *   30-31 phone and its 0/1 flag, 32-55 source fields 24-47,
 *   56 account status (source field 49; source field 48 is never read).
 * A shorter row (2 to 47 fields) is padded to 48 entries before the status,
 * so it yields 49 entries; a row of 12 or fewer fields also gets one blank
 * fewer in the block after the customer id, which moves every later field
 * one position to the left.
 */
module DetailMapper {
  import opened Text
  import IdSelector

  /** A source value: SQL NULL (Python `None`) or a string. */
  datatype Field = Null | Str(s: string)

  /** `str(val) if val is not None else ''`. */
  function Render(f: Field): string
  {
    match f
    case Null => ""
    case Str(s) => s
  }

  /** Python truthiness of a looked-up enrichment value. */
  predicate Truthy(f: Field)
  {
    f.Str? && f.s != ""
  }

  /** The enrichment columns the mapper consults. */
  datatype Enrichment = Enrichment(customerId: Field, email: Field, phone: Field)

  /** Enrichment records keyed by person number. */
  type EnrichmentMap = map<Field, Enrichment>

  datatype EnrichedColumn = CustomerId | Email | Phone

  function Column(e: Enrichment, c: EnrichedColumn): Field
  {
    match c
    case CustomerId => e.customerId
    case Email => e.email
    case Phone => e.phone
  }

  /**
   * The override rule shared by customer id, email and phone: the row is
   * not an organisation, its person number has an enrichment record, and
   * that record's column is non-empty.
   */
  predicate Overrides(row: seq<Field>, enrich: EnrichmentMap, isOrg: bool, c: EnrichedColumn)
    requires |row| >= 2
  {
    !isOrg && row[1] in enrich && Truthy(Column(enrich[row[1]], c))
  }

  function OverrideValue(row: seq<Field>, enrich: EnrichmentMap, isOrg: bool, c: EnrichedColumn): string
    requires |row| >= 2 && Overrides(row, enrich, isOrg, c)
  {
    Column(enrich[row[1]], c).s
  }

  /** `record_ary[i] if len(record_ary) > i else ""`. */
  function Cell(row: seq<Field>, i: nat): string
  {
    if i < |row| then Render(row[i]) else ""
  }

  /** `record_ary[lo:hi]`, rendered. */
  function Cells(row: seq<Field>, lo: nat, hi: nat): (r: seq<string>)
    requires lo <= hi <= |row|
    ensures |r| == hi - lo && forall k :: 0 <= k < hi - lo ==> r[k] == Render(row[lo + k])
  {
    seq(hi - lo, k requires 0 <= k < hi - lo => Render(row[lo + k]))
  }

  function Blanks(n: nat): (r: seq<string>)
    ensures |r| == n && forall k :: 0 <= k < n ==> r[k] == ""
  {
    seq(n, _ => "")
  }

  /** Customer id: the enrichment value, else the person number. */
  function CustomerIdField(row: seq<Field>, enrich: EnrichmentMap, isOrg: bool): string
    requires |row| >= 2
  {
    if Overrides(row, enrich, isOrg, CustomerId) then OverrideValue(row, enrich, isOrg, CustomerId)
    else Render(row[1])
  }

  /** A contact value and its indicator: the enrichment value and 1, else source field `i` and 0. */
  function ContactFields(row: seq<Field>, enrich: EnrichmentMap, isOrg: bool, c: EnrichedColumn, i: nat): seq<string>
    requires |row| >= 2
  {
    if Overrides(row, enrich, isOrg, c) then [OverrideValue(row, enrich, isOrg, c), "1"]
    else [Cell(row, i), "0"]
  }

  /** The output position of the email field: 14 for rows of 13 or more fields, 13 otherwise. */
  function EmailPos(row: seq<Field>): nat
  {
    if |row| > 12 then 14 else 13
  }

  /**
   * Card number, person number, customer id and the block of source fields
   * 2-12: output field `k` of the block is source field `k - 1` when the
   * row has more than twelve fields, and empty otherwise.
   */
  function FrontFields(row: seq<Field>, enrich: EnrichmentMap, isOrg: bool): (r: seq<string>)
    requires |row| >= 2
    ensures |r| == EmailPos(row)
    ensures forall k :: 3 <= k < |r| ==> r[k] == (if |row| > 12 then Render(row[k - 1]) else "")
  {
    [Render(row[0]), Render(row[1]), CustomerIdField(row, enrich, isOrg)]
    + (if |row| > 12 then Cells(row, 2, 13) else Blanks(10))
  }

  /** Email, source fields 14-15, the six identity parts `ids`, source fields 17-22 and phone. */
  function MiddleFields(row: seq<Field>, enrich: EnrichmentMap, isOrg: bool, ids: seq<string>): (r: seq<string>)
    requires |row| >= 2 && |ids| == IdSelector.IdWidth
    ensures |r| == 18
  {
    ContactFields(row, enrich, isOrg, Email, 13)
    + (if |row| > 15 then Cells(row, 14, 16) else Blanks(2))
    + ids
    + (if |row| > 22 then Cells(row, 17, 23) else Blanks(6))
    + ContactFields(row, enrich, isOrg, Phone, 23)
  }

  /** Source fields 24-47, or the blanks that pad a short row to 48 entries. */
  function TailFields(row: seq<Field>): (r: seq<string>)
    ensures |r| == if |row| > 47 then 24 else 48 - EmailPos(row) - 18
  {
    if |row| > 47 then Cells(row, 24, 48) else Blanks(48 - EmailPos(row) - 18)
  }

  /**
   * The detail list for the identity parts `ids`: 57 entries for a full
   * row, 49 for a short one, the last being the account status.  The
   * lemmas below state the rest of the layout, for any `ids`.
   */
  function AssembleFields(row: seq<Field>, enrich: EnrichmentMap, isOrg: bool, ids: seq<string>): (r: seq<string>)
    requires |row| >= 2 && |ids| == IdSelector.IdWidth
    ensures |r| == if |row| >= 48 then 57 else 49
    ensures r[|r| - 1] == Cell(row, 49)
  {
    FrontFields(row, enrich, isOrg) + MiddleFields(row, enrich, isOrg, ids) + TailFields(row) + [Cell(row, 49)]
  }

  /**
   * The list `build_detail_record` joins, for a row of at least two fields:
   * the identity parts are those the ID selector picks from source field 16.
   */
  function DetailFields(row: seq<Field>, enrich: EnrichmentMap, isOrg: bool): (r: seq<string>)
    requires |row| >= 2
    ensures |r| == if |row| >= 48 then 57 else 49
    ensures r[|r| - 1] == Cell(row, 49)
  {
    AssembleFields(row, enrich, isOrg, IdSelector.ParseId(Cell(row, 16), isOrg))
  }

  /** Where the front, middle and tail parts sit, in output positions. */
  lemma AssembleFieldsParts(row: seq<Field>, enrich: EnrichmentMap, isOrg: bool, ids: seq<string>)
    requires |row| >= 2 && |ids| == IdSelector.IdWidth
    ensures var r := AssembleFields(row, enrich, isOrg, ids);
      var e := EmailPos(row);
      && r[..e] == FrontFields(row, enrich, isOrg)
      && r[e..e + 18] == MiddleFields(row, enrich, isOrg, ids)
      && r[e + 18..|r| - 1] == TailFields(row)
  {
    var f := FrontFields(row, enrich, isOrg);
    var m := MiddleFields(row, enrich, isOrg, ids);
    var t := TailFields(row);
    var r := f + m + t + [Cell(row, 49)];
    assert r[..|f|] == f;
    assert r[|f|..|f| + 18] == m;
    assert r[|f| + 18..|r| - 1] == t;
  }

  /** Entries 0-2: card number, person number, and the customer id rule. */
  lemma AssembleFieldsHead(row: seq<Field>, enrich: EnrichmentMap, isOrg: bool, ids: seq<string>)
    requires |row| >= 2 && |ids| == IdSelector.IdWidth
    ensures var r := AssembleFields(row, enrich, isOrg, ids);
      && r[0] == Render(row[0]) && r[1] == Render(row[1])
      && r[2] == (if Overrides(row, enrich, isOrg, CustomerId)
                  then OverrideValue(row, enrich, isOrg, CustomerId) else Render(row[1]))
  {
    AssembleFieldsParts(row, enrich, isOrg, ids);
    var r := AssembleFields(row, enrich, isOrg, ids);
    var f := FrontFields(row, enrich, isOrg);
    assert r[0] == f[0] && r[1] == f[1] && r[2] == f[2];
  }

  /** Where each block of the middle part sits. */
  lemma MiddleFieldsLayout(row: seq<Field>, enrich: EnrichmentMap, isOrg: bool, ids: seq<string>)
    requires |row| >= 2 && |ids| == IdSelector.IdWidth
    ensures var m := MiddleFields(row, enrich, isOrg, ids);
      && m[..2] == ContactFields(row, enrich, isOrg, Email, 13)
      && m[2..4] == (if |row| > 15 then Cells(row, 14, 16) else Blanks(2))
      && m[4..10] == ids
      && m[10..16] == (if |row| > 22 then Cells(row, 17, 23) else Blanks(6))
      && m[16..] == ContactFields(row, enrich, isOrg, Phone, 23)
  {
    var c := ContactFields(row, enrich, isOrg, Email, 13);
    var a := if |row| > 15 then Cells(row, 14, 16) else Blanks(2);
    var b := if |row| > 22 then Cells(row, 17, 23) else Blanks(6);
    var d := ContactFields(row, enrich, isOrg, Phone, 23);
    var m := c + a + ids + b + d;
    assert m[..2] == c;
    assert m[2..4] == a;
    assert m[4..10] == ids;
    assert m[10..16] == b;
    assert m[16..] == d;
  }

  /**
   * Email and phone: the enrichment value followed by "1" when the override
   * rule holds, otherwise source field 13 (email) or 23 (phone) followed by
   * "0"; and between them the six identity parts.
   */
  lemma AssembleFieldsMiddle(row: seq<Field>, enrich: EnrichmentMap, isOrg: bool, ids: seq<string>)
    requires |row| >= 2 && |ids| == IdSelector.IdWidth
    ensures var r := AssembleFields(row, enrich, isOrg, ids);
      var e := EmailPos(row);
      && r[e] == (if Overrides(row, enrich, isOrg, Email) then OverrideValue(row, enrich, isOrg, Email) else Cell(row, 13))
      && r[e + 1] == (if Overrides(row, enrich, isOrg, Email) then "1" else "0")
      && r[e + 4..e + 10] == ids
      && r[e + 16] == (if Overrides(row, enrich, isOrg, Phone) then OverrideValue(row, enrich, isOrg, Phone) else Cell(row, 23))
      && r[e + 17] == (if Overrides(row, enrich, isOrg, Phone) then "1" else "0")
  {
    AssembleFieldsParts(row, enrich, isOrg, ids);
    MiddleFieldsLayout(row, enrich, isOrg, ids);
    var r := AssembleFields(row, enrich, isOrg, ids);
    var e := EmailPos(row);
    var m := MiddleFields(row, enrich, isOrg, ids);
    assert r[e] == m[0] && r[e + 1] == m[1] && r[e + 16] == m[16] && r[e + 17] == m[17];
    assert r[e + 4..e + 10] == m[4..10];
    assert m[0] == m[..2][0] && m[1] == m[..2][1];
    assert m[16] == m[16..][0] && m[17] == m[16..][1];
  }

  /** The identity parts of a detail list are the ones the ID selector picks from source field 16. */
  lemma DetailFieldsIds(row: seq<Field>, enrich: EnrichmentMap, isOrg: bool)
    requires |row| >= 2
    ensures var e := EmailPos(row);
      DetailFields(row, enrich, isOrg)[e + 4..e + 10] == IdSelector.ParseId(Cell(row, 16), isOrg)
  {
    AssembleFieldsMiddle(row, enrich, isOrg, IdSelector.ParseId(Cell(row, 16), isOrg));
  }

  /** A full row (48 or more fields) keeps every verbatim block in place. */
  lemma AssembleFieldsFullRow(row: seq<Field>, enrich: EnrichmentMap, isOrg: bool, ids: seq<string>)
    requires |row| >= 48 && |ids| == IdSelector.IdWidth
    ensures var r := AssembleFields(row, enrich, isOrg, ids);
      && (forall k :: 2 <= k < 13 ==> r[k + 1] == Render(row[k]))
      && r[16] == Render(row[14]) && r[17] == Render(row[15])
      && (forall k :: 17 <= k < 23 ==> r[k + 7] == Render(row[k]))
      && (forall k :: 24 <= k < 48 ==> r[k + 8] == Render(row[k]))
  {
    AssembleFieldsParts(row, enrich, isOrg, ids);
    MiddleFieldsLayout(row, enrich, isOrg, ids);
    var r := AssembleFields(row, enrich, isOrg, ids);
    var f := FrontFields(row, enrich, isOrg);
    var m := MiddleFields(row, enrich, isOrg, ids);
    var t := TailFields(row);
    forall k | 2 <= k < 13 ensures r[k + 1] == Render(row[k]) {
      assert r[k + 1] == r[..14][k + 1] == f[k + 1];
    }
    assert r[16] == m[2] == m[2..4][0];
    assert r[17] == m[3] == m[2..4][1];
    forall k | 17 <= k < 23 ensures r[k + 7] == Render(row[k]) {
      assert r[k + 7] == r[14..32][k - 7] == m[k - 7] == m[10..16][k - 17];
    }
    forall k | 24 <= k < 48 ensures r[k + 8] == Render(row[k]) {
      assert r[k + 8] == r[32..56][k - 24] == t[k - 24];
    }
  }

  /** A short row (2 to 47 fields): every entry after the phone indicator is blank. */
  lemma AssembleFieldsShortRow(row: seq<Field>, enrich: EnrichmentMap, isOrg: bool, ids: seq<string>)
    requires 2 <= |row| < 48 && |ids| == IdSelector.IdWidth
    ensures var r := AssembleFields(row, enrich, isOrg, ids);
      forall k :: EmailPos(row) + 18 <= k < |r| ==> r[k] == ""
  {
    AssembleFieldsParts(row, enrich, isOrg, ids);
    var r := AssembleFields(row, enrich, isOrg, ids);
    var e := EmailPos(row);
    forall k | e + 18 <= k < |r| ensures r[k] == "" {
      if k < |r| - 1 {
        assert r[k] == TailFields(row)[k - e - 18];
      }
    }
  }

  /** `build_detail_record(record_ary, p2p_cust, is_org)`. */
  function BuildDetailRecord(row: seq<Field>, enrich: EnrichmentMap, isOrg: bool): (r: string)
    ensures r == "" <==> |row| < 2
  {
    if |row| < 2 then "" else Join(DetailFields(row, enrich, isOrg), '|')
  }

  /** Source field 48 is never read: changing it leaves the record unchanged. */
  lemma Field48NeverRead(row: seq<Field>, enrich: EnrichmentMap, isOrg: bool, x: Field)
    requires |row| > 48
    ensures BuildDetailRecord(row[48 := x], enrich, isOrg) == BuildDetailRecord(row, enrich, isOrg)
  {
    var row' := row[48 := x];
    assert row'[..48] == row[..48];
    FrontFieldsPrefix(row, row', enrich, isOrg);
    assert Cell(row', 16) == Cell(row, 16);
    MiddleFieldsPrefix(row, row', enrich, isOrg, IdSelector.ParseId(Cell(row, 16), isOrg));
    TailFieldsPrefix(row, row');
    assert Cell(row', 49) == Cell(row, 49);
  }

  /** The front part reads only the first 13 source fields. */
  lemma FrontFieldsPrefix(row: seq<Field>, row': seq<Field>, enrich: EnrichmentMap, isOrg: bool)
    requires |row| == |row'| >= 48 && row[..48] == row'[..48]
    ensures FrontFields(row', enrich, isOrg) == FrontFields(row, enrich, isOrg)
  {
    assert row[0] == row'[0] && row[1] == row'[1];
    assert Cells(row', 2, 13) == Cells(row, 2, 13) by {
      forall k | 2 <= k < 13 ensures row'[k] == row[k] {
        assert row'[k] == row'[..48][k];
      }
    }
  }

  /** The middle part reads only source fields 1, 13-15 and 17-23 besides the identity parts. */
  lemma MiddleFieldsPrefix(row: seq<Field>, row': seq<Field>, enrich: EnrichmentMap, isOrg: bool, ids: seq<string>)
    requires |row| == |row'| >= 48 && row[..48] == row'[..48] && |ids| == IdSelector.IdWidth
    ensures MiddleFields(row', enrich, isOrg, ids) == MiddleFields(row, enrich, isOrg, ids)
  {
    forall k | 0 <= k < 48 ensures row'[k] == row[k] {
      assert row'[k] == row'[..48][k];
    }
    assert Cells(row', 14, 16) == Cells(row, 14, 16);
    assert Cells(row', 17, 23) == Cells(row, 17, 23);
    assert ContactFields(row', enrich, isOrg, Email, 13) == ContactFields(row, enrich, isOrg, Email, 13);
    assert ContactFields(row', enrich, isOrg, Phone, 23) == ContactFields(row, enrich, isOrg, Phone, 23);
  }

  /** The tail part of a full row reads only source fields 24-47. */
  lemma TailFieldsPrefix(row: seq<Field>, row': seq<Field>)
    requires |row| == |row'| >= 48 && row[..48] == row'[..48]
    ensures TailFields(row') == TailFields(row)
  {
    assert Cells(row', 24, 48) == Cells(row, 24, 48) by {
      forall k | 24 <= k < 48 ensures row'[k] == row[k] {
        assert row'[k] == row'[..48][k];
      }
    }
  }

  /**
   * When no rendered value contains `|`, splitting the record on `|`
   * recovers the joined list, so downstream readers see 57 fields for a
   * full row and 49 for a short one.
   */
  lemma DetailRecordFields(row: seq<Field>, enrich: EnrichmentMap, isOrg: bool)
    requires |row| >= 2
    requires NoSeparator(DetailFields(row, enrich, isOrg), '|')
    ensures Split(BuildDetailRecord(row, enrich, isOrg), '|') == DetailFields(row, enrich, isOrg)
    ensures |Split(BuildDetailRecord(row, enrich, isOrg), '|')| == if |row| >= 48 then 57 else 49
  {
    SplitJoin(DetailFields(row, enrich, isOrg), '|');
  }

  // ---------------------------------------------------------------------
  // the per-row step of the extraction
  // ---------------------------------------------------------------------

  /** The six partitioned extraction queries, in the order a worker runs them. */
  const QueryKeys: seq<string> :=
    ["cardTaxRptForPers", "cardOwnPers", "noCardTaxRptForPers", "noCardOwnPers", "cardOwnPersOrg", "org"]

  /**
   * Rows of the two organisation queries, the last two of `QueryKeys`, are
   * mapped with the organisation flag set.
   */
  predicate IsOrgQuery(key: string)
  {
    key in QueryKeys[4..]
  }

  /**
   * The records a batch of rows contributes under the row converter
   * `convert`: one per row, empty records dropped.
   */
  function Converted(rows: seq<seq<Field>>, convert: seq<Field> -> string): seq<string>
  {
    if rows == [] then []
    else
      var prev := Converted(rows[..|rows| - 1], convert);
      var line := convert(rows[|rows| - 1]);
      if line != "" then prev + [line] else prev
  }

  /** `build_detail_record` with the enrichment map and the organisation flag fixed. */
  function Converter(enrich: EnrichmentMap, isOrg: bool): seq<Field> -> string
  {
    row => BuildDetailRecord(row, enrich, isOrg)
  }

  /** The records `build_detail_record` contributes for a batch. */
  function ConvertedRecords(rows: seq<seq<Field>>, enrich: EnrichmentMap, isOrg: bool): seq<string>
  {
    Converted(rows, Converter(enrich, isOrg))
  }

  /** Rows of at least two fields, in order. */
  function ConvertibleRows(rows: seq<seq<Field>>): seq<seq<Field>>
  {
    if rows == [] then []
    else if |rows[0]| >= 2 then [rows[0]] + ConvertibleRows(rows[1..])
    else ConvertibleRows(rows[1..])
  }

  lemma {:induction false} ConvertibleRowsAppend(rows: seq<seq<Field>>, row: seq<Field>)
    ensures ConvertibleRows(rows + [row]) == ConvertibleRows(rows) + (if |row| >= 2 then [row] else [])
  {
    if rows == [] {
      assert rows + [row] == [row];
    } else {
      assert (rows + [row])[1..] == rows[1..] + [row];
      ConvertibleRowsAppend(rows[1..], row);
    }
  }

  /**
   * For a converter that gives the empty record exactly for rows of fewer
   * than two fields, a batch contributes one record per row of two or more
   * fields, in row order, and every contributed record is non-empty.
   */
  lemma {:induction false} ConvertedSpec(rows: seq<seq<Field>>, convert: seq<Field> -> string)
    requires forall row :: convert(row) == "" <==> |row| < 2
    ensures var out := Converted(rows, convert);
      var kept := ConvertibleRows(rows);
      && |out| == |kept|
      && forall j :: 0 <= j < |out| ==> out[j] != "" && out[j] == convert(kept[j])
  {
    if rows != [] {
      var init := rows[..|rows| - 1];
      var last := rows[|rows| - 1];
      ConvertedSpec(init, convert);
      assert init + [last] == rows;
      ConvertibleRowsAppend(init, last);
    }
  }

  /** One more row extends the batch's records by that row's record, when non-empty. */
  lemma ConvertedStep(rows: seq<seq<Field>>, i: nat, convert: seq<Field> -> string)
    requires i < |rows|
    ensures Converted(rows[..i + 1], convert)
      == Converted(rows[..i], convert) + (if convert(rows[i]) != "" then [convert(rows[i])] else [])
  {
    assert rows[..i + 1][..i] == rows[..i];
  }

  /** `build_detail_record` is such a converter. */
  lemma ConvertedRecordsSpec(rows: seq<seq<Field>>, enrich: EnrichmentMap, isOrg: bool)
    ensures var out := ConvertedRecords(rows, enrich, isOrg);
      var kept := ConvertibleRows(rows);
      && |out| == |kept|
      && forall j :: 0 <= j < |out| ==> out[j] != "" && out[j] == BuildDetailRecord(kept[j], enrich, isOrg)
  {
    ConvertedSpec(rows, Converter(enrich, isOrg));
  }

  /**
   * The loop of `process_zoe_records` over one fetched batch of the query
   * `key`: convert each row and append the non-empty records.
   */
  method ConvertQueryRows(key: string, rows: seq<seq<Field>>, enrich: EnrichmentMap)
    returns (appended: seq<string>)
    ensures appended == ConvertedRecords(rows, enrich, IsOrgQuery(key))
  {
    appended := AppendConverted(rows, Converter(enrich, IsOrgQuery(key)));
  }

  /** The row loop itself, for the converter `convert`. */
  method AppendConverted(rows: seq<seq<Field>>, convert: seq<Field> -> string)
    returns (appended: seq<string>)
    ensures appended == Converted(rows, convert)
  {
    appended := [];
    var i := 0;
    while i < |rows|
      invariant 0 <= i <= |rows|
      invariant appended == Converted(rows[..i], convert)
    {
      ConvertedStep(rows, i, convert);
      var line := convert(rows[i]);
      if line != "" {
        appended := appended + [line];
      }
      i := i + 1;
    }
    assert rows[..|rows|] == rows;
  }
}
