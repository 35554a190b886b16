/**
 * The job driver (`run`): the mode check, and the two ways of writing the
 * ZOE file.
 *
 * NEW writes the schema line, a LOAD header, one "A" detail line per
 * extracted record and a trailer.  Each record is stripped, its tab runs
 * become single spaces, its last field (the account status) is dropped
 * and at most 56 fields are kept behind the five-field detail prefix.
 *
 * DELTA indexes a previous file and a new file, then walks the new index
 * in its insertion order: a key absent from the old index gives an "A"
 * line, a key present with a different payload a "C" line, and the line
 * is the detail prefix followed by the new payload.  Keys only in the old
 * file produce nothing, and the deleted count stays 0.
 *
 * The output file is modelled as the sequence of lines written to it.
 */
module Orchestrator {
  import opened Text
  import RecordFormatter
  import FileIndexer
  import DetailMapper

  // ---------------------------------------------------------------------
  // detail prefix
  // ---------------------------------------------------------------------

  datatype Action = Add | Change

  /** The action letter of a detail line. */
  function ActionCode(a: Action): (r: string)
    ensures |r| == 1 && r != "6"
    ensures r == "A" <==> a == Add
  {
    match a
    case Add => "A"
    case Change => "C"
  }

  /** The five prefix fields: record type 6, action, environment, FTF and the sequence number. */
  function PrefixFields(a: Action, test: string, seqNbr: nat): (r: seq<string>)
    ensures |r| == 5 && NoSeparator(r, '|')
  {
    var r := ["6", ActionCode(a), RecordFormatter.EnvCode(test), "FTF", NatToString(seqNbr)];
    assert forall i :: 0 <= i < |NatToString(seqNbr)| ==> NatToString(seqNbr)[i] != '|';
    r
  }

  /** `detail_first5`: the prefix fields joined with `|`. */
  function DetailPrefix(a: Action, test: string, seqNbr: nat): string
  {
    Join(PrefixFields(a, test, seqNbr), '|')
  }

  /** The prefix splits back into its five fields and its sequence number reads back as `seqNbr`. */
  lemma DetailPrefixFields(a: Action, test: string, seqNbr: nat)
    ensures Split(DetailPrefix(a, test, seqNbr), '|') == PrefixFields(a, test, seqNbr)
    ensures DigitsValue(Split(DetailPrefix(a, test, seqNbr), '|')[4]) == seqNbr
    ensures DetailPrefix(a, test, seqNbr)[0] == '6'
  {
    var p := PrefixFields(a, test, seqNbr);
    SplitJoin(p, '|');
    NatToStringRoundTrip(seqNbr);
    assert DetailPrefix(a, test, seqNbr) == "6" + "|" + Join(p[1..], '|');
  }

  /** The account-hash contribution of a split line: field 3 when it is all digits. */
  function FieldAmount(fields: seq<string>): (r: nat)
    ensures |fields| > 3 && IsDigits(fields[3]) ==> r == DigitsValue(fields[3])
    ensures |fields| <= 3 || !IsDigits(fields[3]) ==> r == 0
  {
    if |fields| > 3 then FileIndexer.DigitsOrZero(fields[3]) else 0
  }

  // ---------------------------------------------------------------------
  // NEW
  // ---------------------------------------------------------------------

  /** `str(record).strip()` followed by `re.sub(r'\t+', ' ', ...)`. */
  function CleanRecord(rec: string): (r: string)
    ensures '\t' !in r
  {
    CollapseTabs(Strip(rec))
  }

  /** Cleaning a record neither adds nor removes a field separator. */
  lemma CleanRecordKeepsSeparators(rec: string)
    ensures CountChar(CleanRecord(rec), '|') == CountChar(rec, '|')
  {
    StripKeepsCount(rec, '|');
  }

  /** The fields written behind the prefix: all but the last, at most 56. */
  function KeptFields(clean: string): (r: seq<string>)
    ensures var f := Split(clean, '|');
      && |r| == (if |f| - 1 <= 56 then |f| - 1 else 56)
      && r == f[..|r|]
    ensures NoSeparator(r, '|')
  {
    var f := Split(clean, '|');
    var body := f[..|f| - 1];
    if |body| <= 56 then body else body[..56]
  }

  /** The detail line NEW writes for one record with sequence number `seqNbr`. */
  function NewDetailLine(rec: string, seqNbr: nat, test: string): string
  {
    Join([DetailPrefix(Add, test, seqNbr)] + KeptFields(CleanRecord(rec)), '|')
  }

  /** What one record adds to the NEW account hash. */
  function NewRecordAmount(rec: string): nat
  {
    FieldAmount(Split(CleanRecord(rec), '|'))
  }

  /** The NEW account hash of `records`. */
  function NewChecksum(records: seq<string>): nat
  {
    if records == [] then 0
    else NewChecksum(records[..|records| - 1]) + NewRecordAmount(records[|records| - 1])
  }

  /** Lines numbered from 1: the line of `xs[j]` is rendered with number `j + 1`. */
  function NumberedLines(xs: seq<string>, render: (string, nat) -> string): (r: seq<string>)
    ensures |r| == |xs|
  {
    if xs == [] then []
    else NumberedLines(xs[..|xs| - 1], render) + [render(xs[|xs| - 1], |xs|)]
  }

  /** Line `j` is `xs[j]` rendered with number `j + 1`. */
  lemma {:induction false} NumberedLinesAt(xs: seq<string>, render: (string, nat) -> string, j: nat)
    requires j < |xs|
    ensures NumberedLines(xs, render)[j] == render(xs[j], j + 1)
  {
    var init := xs[..|xs| - 1];
    if j < |init| {
      NumberedLinesAt(init, render, j);
      assert xs[j] == init[j];
    }
  }

  /** The NEW line renderer for environment `test`. */
  function NewLineRenderer(test: string): (string, nat) -> string
  {
    (rec: string, seqNbr: nat) => NewDetailLine(rec, seqNbr, test)
  }

  /** The NEW detail lines of `records`, numbered from 1. */
  function NewDetailLines(records: seq<string>, test: string): (r: seq<string>)
    ensures |r| == |records|
  {
    NumberedLines(records, NewLineRenderer(test))
  }

  /** Line `j` of the NEW detail lines is record `j`'s line, with sequence number `j + 1`. */
  lemma NewDetailLinesAt(records: seq<string>, test: string, j: nat)
    requires j < |records|
    ensures NewDetailLines(records, test)[j] == NewDetailLine(records[j], j + 1, test)
  {
    NumberedLinesAt(records, NewLineRenderer(test), j);
  }

  /** One more record extends the lines and the hash by that record's line and amount. */
  lemma NewStep(records: seq<string>, i: nat, test: string)
    requires i < |records|
    ensures NewDetailLines(records[..i + 1], test) == NewDetailLines(records[..i], test) + [NewDetailLine(records[i], i + 1, test)]
    ensures NewChecksum(records[..i + 1]) == NewChecksum(records[..i]) + NewRecordAmount(records[i])
  {
    assert records[..i + 1][..i] == records[..i];
  }

  /** The body of the NEW write loop for one record: its detail line and its amount. */
  method NewTurn(rec: string, seqNbr: nat, test: string) returns (line: string, amount: nat)
    ensures line == NewDetailLine(rec, seqNbr, test)
    ensures amount == NewRecordAmount(rec)
  {
    var record := CleanRecord(rec);
    var lineAry := Split(record, '|');
    amount := 0;
    if |lineAry| > 3 {
      amount := FileIndexer.DigitsOrZero(lineAry[3]);
    }
    lineAry := lineAry[..|lineAry| - 1];
    var prefix := DetailPrefix(Add, test, seqNbr);
    var kept := if |lineAry| <= 56 then lineAry else lineAry[..56];
    assert kept == KeptFields(record);
    line := Join([prefix] + kept, '|');
  }

  /** The NEW write loop over the extracted records. */
  method WriteNewDetails(records: seq<string>, test: string)
    returns (lines: seq<string>, seqNbr: nat, added: nat, acctHash: nat)
    ensures lines == NewDetailLines(records, test)
    ensures seqNbr == |records| && added == |records|
    ensures acctHash == NewChecksum(records)
  {
    lines := [];
    seqNbr := 0;
    added := 0;
    acctHash := 0;
    var i := 0;
    while i < |records|
      invariant 0 <= i <= |records|
      invariant lines == NewDetailLines(records[..i], test)
      invariant seqNbr == i && added == i
      invariant acctHash == NewChecksum(records[..i])
    {
      NewStep(records, i, test);
      var line, amount := NewTurn(records[i], seqNbr + 1, test);
      acctHash := acctHash + amount;
      seqNbr := seqNbr + 1;
      added := added + 1;
      lines := lines + [line];
      i := i + 1;
    }
    assert records[..i] == records;
  }

  /**
   * A NEW line splits into the five prefix fields followed by the kept
   * fields, so it has 5 + min(56, p) fields where p is the number of `|`
   * in the raw record.
   */
  lemma NewDetailLineFields(rec: string, seqNbr: nat, test: string)
    ensures var kept := KeptFields(CleanRecord(rec));
      Split(NewDetailLine(rec, seqNbr, test), '|') == PrefixFields(Add, test, seqNbr) + kept
    ensures var p := CountChar(rec, '|');
      |Split(NewDetailLine(rec, seqNbr, test), '|')| == 5 + (if p <= 56 then p else 56)
  {
    var kept := KeptFields(CleanRecord(rec));
    var p := PrefixFields(Add, test, seqNbr);
    CleanRecordKeepsSeparators(rec);
    if kept == [] {
      assert [DetailPrefix(Add, test, seqNbr)] + kept == [DetailPrefix(Add, test, seqNbr)];
      assert p + kept == p;
    } else {
      JoinAppend([DetailPrefix(Add, test, seqNbr)], kept, '|');
      JoinAppend(p, kept, '|');
    }
    NoSeparatorAppend(p, kept, '|');
    SplitJoin(p + kept, '|');
  }

  /** A record with no tab and no white space at either end is left as it is by cleaning. */
  lemma CleanRecordUnchanged(rec: string)
    requires '\t' !in rec
    requires rec == [] || (!IsSpace(rec[0]) && !IsSpace(rec[|rec| - 1]))
    ensures CleanRecord(rec) == rec
  {
    StripUnchanged(rec);
    CollapseTabsUnchanged(rec);
  }

  /**
   * A record `build_detail_record` made from a full row loses exactly its
   * account status in NEW (when cleaning leaves it unchanged, see
   * `CleanRecordUnchanged`): the kept fields are the detail list without
   * its last entry.
   */
  lemma NewLineDropsStatus(row: seq<DetailMapper.Field>, enrich: DetailMapper.EnrichmentMap, isOrg: bool)
    requires |row| >= 48
    requires NoSeparator(DetailMapper.DetailFields(row, enrich, isOrg), '|')
    ensures KeptFields(DetailMapper.BuildDetailRecord(row, enrich, isOrg)) + [DetailMapper.Cell(row, 49)]
      == DetailMapper.DetailFields(row, enrich, isOrg)
  {
    DetailMapper.DetailRecordFields(row, enrich, isOrg);
    KeptFieldsDropLast(DetailMapper.BuildDetailRecord(row, enrich, isOrg));
  }

  /**
   * A clean record of at most 57 fields keeps every field but its last;
   * a longer one keeps its first 56.
   */
  lemma KeptFieldsDropLast(rec: string)
    ensures var f := Split(rec, '|');
      |f| <= 57 ==> KeptFields(rec) + [f[|f| - 1]] == f
    ensures var f := Split(rec, '|');
      |f| > 57 ==> KeptFields(rec) == f[..56]
  {
    var f := Split(rec, '|');
    assert f == f[..|f| - 1] + [f[|f| - 1]];
  }

  // ---------------------------------------------------------------------
  // DELTA
  // ---------------------------------------------------------------------

  /** A key of the new index that DELTA writes, how, and the new payload it writes. */
  datatype Emission = Emission(key: string, action: Action, payload: string)

  /** The action DELTA takes for key `k` of the new index, if any. */
  function DeltaAction(k: string, newIx: FileIndexer.ZoeIndex, oldIx: FileIndexer.ZoeIndex): (r: Option<Action>)
    requires k in newIx.payload
    ensures r == Some(Add) <==> k !in oldIx.payload
    ensures r == Some(Change) <==> k in oldIx.payload && newIx.payload[k] != oldIx.payload[k]
    ensures r == None <==> k in oldIx.payload && newIx.payload[k] == oldIx.payload[k]
  {
    if k in oldIx.payload then
      if newIx.payload[k] != oldIx.payload[k] then Some(Change) else None
    else Some(Add)
  }

  /** The emissions for `keys`, in order. */
  function Emitted(keys: seq<string>, newIx: FileIndexer.ZoeIndex, oldIx: FileIndexer.ZoeIndex): seq<Emission>
    requires forall k :: k in keys ==> k in newIx.payload
  {
    if keys == [] then []
    else
      var prev := Emitted(keys[..|keys| - 1], newIx, oldIx);
      var k := keys[|keys| - 1];
      match DeltaAction(k, newIx, oldIx)
      case None => prev
      case Some(a) => prev + [Emission(k, a, newIx.payload[k])]
  }

  /** The line DELTA writes for one emission: the prefix, `|`, the new payload. */
  function DeltaLine(a: Action, seqNbr: nat, test: string, payload: string): string
  {
    DetailPrefix(a, test, seqNbr) + "|" + payload
  }

  /** The DELTA detail lines for the emissions `em`, numbered from 1. */
  function DeltaDetailLines(em: seq<Emission>, test: string): (r: seq<string>)
    ensures |r| == |em|
  {
    if em == [] then []
    else
      var e := em[|em| - 1];
      DeltaDetailLines(em[..|em| - 1], test) + [DeltaLine(e.action, |em|, test, e.payload)]
  }

  /** Line `j` of the DELTA detail lines is emission `j`'s line, with sequence number `j + 1`. */
  lemma {:induction false} DeltaDetailLinesAt(em: seq<Emission>, test: string, j: nat)
    requires j < |em|
    ensures DeltaDetailLines(em, test)[j] == DeltaLine(em[j].action, j + 1, test, em[j].payload)
  {
    var init := em[..|em| - 1];
    var e := em[|init|];
    var last := DeltaLine(e.action, |em|, test, e.payload);
    assert DeltaDetailLines(em, test) == DeltaDetailLines(init, test) + [last];
    if j < |init| {
      DeltaDetailLinesAt(init, test, j);
      assert em[j] == init[j];
    }
  }

  /** The number of emissions with action `a`. */
  function CountAction(em: seq<Emission>, a: Action): (r: nat)
    ensures r <= |em|
  {
    if em == [] then 0
    else CountAction(em[..|em| - 1], a) + (if em[|em| - 1].action == a then 1 else 0)
  }

  /** What the emitted payloads add to the account hash. */
  function DeltaAmount(em: seq<Emission>): nat
  {
    if em == [] then 0
    else DeltaAmount(em[..|em| - 1]) + FieldAmount(Split(em[|em| - 1].payload, '|'))
  }

  /** Every emission is of one of the keys, and carries that key's payload in the new index. */
  lemma {:induction false} EmittedKeys(keys: seq<string>, newIx: FileIndexer.ZoeIndex, oldIx: FileIndexer.ZoeIndex)
    requires forall k :: k in keys ==> k in newIx.payload
    ensures forall j :: 0 <= j < |Emitted(keys, newIx, oldIx)| ==> Emitted(keys, newIx, oldIx)[j].key in keys
    ensures forall j :: 0 <= j < |Emitted(keys, newIx, oldIx)| ==>
      Emitted(keys, newIx, oldIx)[j].payload == newIx.payload[Emitted(keys, newIx, oldIx)[j].key]
  {
    if keys != [] {
      var init := keys[..|keys| - 1];
      var last := keys[|keys| - 1];
      assert forall k :: k in init ==> k in keys;
      EmittedKeys(init, newIx, oldIx);
      var prev := Emitted(init, newIx, oldIx);
      var em := Emitted(keys, newIx, oldIx);
      assert em == match DeltaAction(last, newIx, oldIx)
        case None => prev
        case Some(a) => prev + [Emission(last, a, newIx.payload[last])];
      forall j | 0 <= j < |em| ensures em[j].key in keys && em[j].payload == newIx.payload[em[j].key] {
        if j < |prev| {
          assert em[j] == prev[j] && prev[j].key in init;
        } else {
          assert em[j] == Emission(last, DeltaAction(last, newIx, oldIx).value, newIx.payload[last]);
        }
      }
    }
  }

  /** Appending one emission extends the lines, the counts and the amount by that emission's share. */
  lemma EmitStep(em: seq<Emission>, e: Emission, test: string)
    ensures DeltaDetailLines(em + [e], test) == DeltaDetailLines(em, test) + [DeltaLine(e.action, |em| + 1, test, e.payload)]
    ensures CountAction(em + [e], Add) == CountAction(em, Add) + (if e.action == Add then 1 else 0)
    ensures CountAction(em + [e], Change) == CountAction(em, Change) + (if e.action == Change then 1 else 0)
    ensures DeltaAmount(em + [e]) == DeltaAmount(em) + FieldAmount(Split(e.payload, '|'))
  {
    assert (em + [e])[..|em|] == em;
  }

  /** The emissions of one more key. */
  lemma EmittedStep(keys: seq<string>, i: nat, newIx: FileIndexer.ZoeIndex, oldIx: FileIndexer.ZoeIndex)
    requires i < |keys| && forall k :: k in keys ==> k in newIx.payload
    ensures forall k :: k in keys[..i] ==> k in newIx.payload
    ensures forall k :: k in keys[..i + 1] ==> k in newIx.payload
    ensures DeltaAction(keys[i], newIx, oldIx).None? ==>
      Emitted(keys[..i + 1], newIx, oldIx) == Emitted(keys[..i], newIx, oldIx)
    ensures DeltaAction(keys[i], newIx, oldIx).Some? ==>
      Emitted(keys[..i + 1], newIx, oldIx)
        == Emitted(keys[..i], newIx, oldIx)
             + [Emission(keys[i], DeltaAction(keys[i], newIx, oldIx).value, newIx.payload[keys[i]])]
  {
    assert keys[..i + 1][..i] == keys[..i];
    assert forall k :: k in keys[..i + 1] ==> k in keys;
    assert forall k :: k in keys[..i] ==> k in keys;
  }

  /**
   * What the DELTA loop has written and counted so far: the detail lines,
   * the sequence number, the added and changed counts and the account hash.
   */
  datatype DeltaState = DeltaState(lines: seq<string>, seqNbr: nat, added: nat, changed: nat, acctHash: nat)

  /** One turn of the DELTA loop, for key `k` of the new index. */
  function DeltaAdvance(st: DeltaState, k: string, newIx: FileIndexer.ZoeIndex, oldIx: FileIndexer.ZoeIndex,
                        test: string): DeltaState
    requires k in newIx.payload
  {
    match DeltaAction(k, newIx, oldIx)
    case None => st
    case Some(a) =>
      var payload := newIx.payload[k];
      DeltaState(st.lines + [DeltaLine(a, st.seqNbr + 1, test, payload)], st.seqNbr + 1,
                 st.added + (if a == Add then 1 else 0), st.changed + (if a == Change then 1 else 0),
                 st.acctHash + FieldAmount(Split(payload, '|')))
  }

  /** A key DELTA writes adds its line, its count and its amount; any other key changes nothing. */
  lemma DeltaAdvanceCases(st: DeltaState, k: string, newIx: FileIndexer.ZoeIndex, oldIx: FileIndexer.ZoeIndex,
                          test: string)
    requires k in newIx.payload
    ensures DeltaAction(k, newIx, oldIx).None? ==> DeltaAdvance(st, k, newIx, oldIx, test) == st
    ensures DeltaAction(k, newIx, oldIx).Some? ==>
              var a, payload := DeltaAction(k, newIx, oldIx).value, newIx.payload[k];
              DeltaAdvance(st, k, newIx, oldIx, test)
                == DeltaState(st.lines + [DeltaLine(a, st.seqNbr + 1, test, payload)], st.seqNbr + 1,
                              st.added + (if a == Add then 1 else 0), st.changed + (if a == Change then 1 else 0),
                              st.acctHash + FieldAmount(Split(payload, '|')))
  {
  }

  /** The DELTA loop over `keys`, starting from the new file's hash. */
  function DeltaRun(keys: seq<string>, newIx: FileIndexer.ZoeIndex, oldIx: FileIndexer.ZoeIndex,
                    newHash: nat, test: string): DeltaState
    requires forall k :: k in keys ==> k in newIx.payload
  {
    if keys == [] then DeltaState([], 0, 0, 0, newHash)
    else
      var init := keys[..|keys| - 1];
      assert forall k :: k in init ==> k in keys;
      DeltaAdvance(DeltaRun(init, newIx, oldIx, newHash, test), keys[|keys| - 1], newIx, oldIx, test)
  }

  /** The loop state after one more key. */
  lemma DeltaRunStep(keys: seq<string>, i: nat, newIx: FileIndexer.ZoeIndex, oldIx: FileIndexer.ZoeIndex,
                     newHash: nat, test: string)
    requires i < |keys| && forall k :: k in keys ==> k in newIx.payload
    ensures forall k :: k in keys[..i] ==> k in newIx.payload
    ensures forall k :: k in keys[..i + 1] ==> k in newIx.payload
    ensures DeltaRun(keys[..i + 1], newIx, oldIx, newHash, test)
      == DeltaAdvance(DeltaRun(keys[..i], newIx, oldIx, newHash, test), keys[i], newIx, oldIx, test)
  {
    assert keys[..i + 1][..i] == keys[..i];
    assert forall k :: k in keys[..i + 1] ==> k in keys;
    assert forall k :: k in keys[..i] ==> k in keys;
  }

  /** One turn of the DELTA write loop: the branches of the source for key `k`. */
  method DeltaTurn(st: DeltaState, k: string, newIx: FileIndexer.ZoeIndex, oldIx: FileIndexer.ZoeIndex, test: string)
    returns (next: DeltaState)
    requires k in newIx.payload
    ensures next == DeltaAdvance(st, k, newIx, oldIx, test)
  {
    var lines, seqNbr, added, changed, acctHash := st.lines, st.seqNbr, st.added, st.changed, st.acctHash;
    var newRecord := newIx.payload[k];
    var action := None;
    if k in oldIx.payload {
      if newRecord != oldIx.payload[k] {
        action := Some(Change);
        changed := changed + 1;
      }
    } else {
      action := Some(Add);
      added := added + 1;
    }
    if action.Some? {
      var line := DeltaLine(action.value, seqNbr + 1, test, newRecord);
      seqNbr := seqNbr + 1;
      var lineAry := Split(newRecord, '|');
      if |lineAry| > 3 {
        acctHash := acctHash + FileIndexer.DigitsOrZero(lineAry[3]);
      }
      lines := lines + [line];
    }
    next := DeltaState(lines, seqNbr, added, changed, acctHash);
    DeltaAdvanceCases(st, k, newIx, oldIx, test);
  }

  /** The DELTA write loop over the new index. */
  method WriteDeltaDetails(newIx: FileIndexer.ZoeIndex, oldIx: FileIndexer.ZoeIndex, newHash: nat, test: string)
    returns (lines: seq<string>, seqNbr: nat, added: nat, changed: nat, acctHash: nat)
    requires forall k :: k in newIx.keys ==> k in newIx.payload
    ensures DeltaState(lines, seqNbr, added, changed, acctHash) == DeltaRun(newIx.keys, newIx, oldIx, newHash, test)
  {
    var keys := newIx.keys;
    var st := DeltaState([], 0, 0, 0, newHash);
    var i := 0;
    while i < |keys|
      invariant 0 <= i <= |keys|
      invariant forall k :: k in keys[..i] ==> k in newIx.payload
      invariant st == DeltaRun(keys[..i], newIx, oldIx, newHash, test)
    {
      DeltaRunStep(keys, i, newIx, oldIx, newHash, test);
      st := DeltaTurn(st, keys[i], newIx, oldIx, test);
      i := i + 1;
    }
    assert keys[..i] == keys;
    lines, seqNbr, added, changed, acctHash := st.lines, st.seqNbr, st.added, st.changed, st.acctHash;
  }

  /**
   * What the DELTA loop has produced once it has handled the emissions
   * `em`: one line per emission numbered from 1, the addition and change
   * counts, and the new file's hash plus each emitted payload's amount.
   */
  function DeltaSummary(em: seq<Emission>, newHash: nat, test: string): DeltaState
  {
    DeltaState(DeltaDetailLines(em, test), |em|, CountAction(em, Add), CountAction(em, Change),
               newHash + DeltaAmount(em))
  }

  /** A turn of the loop extends the summary by the key's emission, if any. */
  lemma DeltaAdvanceSummary(em: seq<Emission>, k: string, newIx: FileIndexer.ZoeIndex, oldIx: FileIndexer.ZoeIndex,
                            newHash: nat, test: string)
    requires k in newIx.payload
    ensures DeltaAction(k, newIx, oldIx).None? ==>
              DeltaAdvance(DeltaSummary(em, newHash, test), k, newIx, oldIx, test) == DeltaSummary(em, newHash, test)
    ensures DeltaAction(k, newIx, oldIx).Some? ==>
              var e := Emission(k, DeltaAction(k, newIx, oldIx).value, newIx.payload[k]);
              DeltaAdvance(DeltaSummary(em, newHash, test), k, newIx, oldIx, test) == DeltaSummary(em + [e], newHash, test)
  {
    var act := DeltaAction(k, newIx, oldIx);
    DeltaAdvanceCases(DeltaSummary(em, newHash, test), k, newIx, oldIx, test);
    if act.Some? {
      EmitStep(em, Emission(k, act.value, newIx.payload[k]), test);
    }
  }

  /**
   * The DELTA loop writes one line per emission, numbered from 1, counts
   * the additions and the changes among them, and adds each emitted
   * payload's amount to the new file's hash.
   */
  lemma {:induction false} DeltaRunSpec(keys: seq<string>, newIx: FileIndexer.ZoeIndex, oldIx: FileIndexer.ZoeIndex,
                                        newHash: nat, test: string)
    requires forall k :: k in keys ==> k in newIx.payload
    ensures DeltaRun(keys, newIx, oldIx, newHash, test) == DeltaSummary(Emitted(keys, newIx, oldIx), newHash, test)
  {
    if keys != [] {
      var n := |keys| - 1;
      DeltaRunStep(keys, n, newIx, oldIx, newHash, test);
      EmittedStep(keys, n, newIx, oldIx);
      assert keys[..n + 1] == keys;
      DeltaRunSpec(keys[..n], newIx, oldIx, newHash, test);
      DeltaAdvanceSummary(Emitted(keys[..n], newIx, oldIx), keys[n], newIx, oldIx, newHash, test);
    }
  }

  // ---------------------------------------------------------------------
  // properties of the DELTA emissions
  // ---------------------------------------------------------------------

  /**
   * Key `k` is emitted as an addition exactly when it is a key of the new
   * index missing from the old one, and as a change exactly when it is in
   * both with different payloads; a key only in the old index is never
   * emitted.
   */
  lemma {:induction false} EmittedSpec(keys: seq<string>, newIx: FileIndexer.ZoeIndex, oldIx: FileIndexer.ZoeIndex, k: string)
    requires forall key :: key in keys ==> key in newIx.payload
    ensures var em := Emitted(keys, newIx, oldIx);
      && ((exists j :: 0 <= j < |em| && em[j].key == k && em[j].action == Add) <==> k in keys && k !in oldIx.payload)
      && ((exists j :: 0 <= j < |em| && em[j].key == k && em[j].action == Change) <==>
            k in keys && k in oldIx.payload && newIx.payload[k] != oldIx.payload[k])
      && ((exists j :: 0 <= j < |em| && em[j].key == k) ==> k in keys)
  {
    if keys != [] {
      var init := keys[..|keys| - 1];
      var last := keys[|keys| - 1];
      assert forall key :: key in init ==> key in keys;
      assert keys == init + [last];
      EmittedSpec(init, newIx, oldIx, k);
      var prev := Emitted(init, newIx, oldIx);
      var em := Emitted(keys, newIx, oldIx);
      assert Emitted(keys, newIx, oldIx) == match DeltaAction(last, newIx, oldIx)
        case None => prev
        case Some(a) => prev + [Emission(last, a, newIx.payload[last])];
      forall j | 0 <= j < |prev| ensures em[j] == prev[j] {
      }
      assert k in keys <==> k in init || k == last;
      if DeltaAction(last, newIx, oldIx).Some? {
        var e := Emission(last, DeltaAction(last, newIx, oldIx).value, newIx.payload[last]);
        assert em == prev + [e] && em[|prev|] == e;
        if k == last {
          assert em[|prev|].key == k;
          assert e.action == Add <==> k !in oldIx.payload;
          assert e.action == Change <==> k in oldIx.payload && newIx.payload[k] != oldIx.payload[k];
        }
      }
    }
  }

  /** Every emission is an addition or a change, so the two counts add up to the lines written. */
  lemma {:induction false} CountActionTotal(em: seq<Emission>)
    ensures CountAction(em, Add) + CountAction(em, Change) == |em|
  {
    if em != [] {
      CountActionTotal(em[..|em| - 1]);
    }
  }

  /** A DELTA line splits into the five prefix fields followed by the fields of the payload. */
  lemma DeltaLineFields(a: Action, seqNbr: nat, test: string, payload: string)
    ensures Split(DeltaLine(a, seqNbr, test, payload), '|') == PrefixFields(a, test, seqNbr) + Split(payload, '|')
  {
    var p := PrefixFields(a, test, seqNbr);
    var f := Split(payload, '|');
    JoinSplit(payload, '|');
    JoinAppend(p, f, '|');
    NoSeparatorAppend(p, f, '|');
    SplitJoin(p + f, '|');
  }

  /**
   * A detail line made of the prefix and at least two further fields is
   * read back by the indexer under the field behind the prefix's number
   * (field 6 of the line), with the fields behind the prefix as payload.
   */
  lemma PrefixedLineReindexed(a: Action, test: string, seqNbr: nat, f: seq<string>)
    requires |f| >= 2 && NoSeparator(f, '|')
    requires var l := Join(PrefixFields(a, test, seqNbr) + f, '|'); !IsSpace(l[|l| - 1])
    ensures FileIndexer.ParseIndexLine(Join(PrefixFields(a, test, seqNbr) + f, '|'))
      == Some(FileIndexer.IndexEntry(f[1], Join(f, '|'), FileIndexer.DigitsOrZero(f[1])))
  {
    var p := PrefixFields(a, test, seqNbr);
    var fields := p + f;
    var l := Join(fields, '|');
    NoSeparatorAppend(p, f, '|');
    JoinAppend(p, f, '|');
    DetailPrefixFields(a, test, seqNbr);
    assert l[0] == '6';
    FirstCharNotStartsWith(l, "CDE");
    assert fields[5..] == f && fields[6] == f[1];
    FileIndexer.ParseJoinedLine(fields);
  }

  /**
   * Reading a DELTA line back with the indexer gives the payload it was
   * written from, under the payload's field 1: a DELTA file can serve as
   * the old file of the next run.
   */
  lemma DeltaLineReindexed(a: Action, seqNbr: nat, test: string, payload: string)
    requires '|' in payload && !IsSpace(payload[|payload| - 1])
    ensures var e := FileIndexer.ParseIndexLine(DeltaLine(a, seqNbr, test, payload));
      && e.Some?
      && |Split(payload, '|')| >= 2
      && e.value.key == Split(payload, '|')[1]
      && e.value.payload == payload
  {
    var p := PrefixFields(a, test, seqNbr);
    var f := Split(payload, '|');
    CountCharPresentCount(payload, '|');
    JoinSplit(payload, '|');
    JoinAppend(p, f, '|');
    assert Join(p + f, '|') == DeltaLine(a, seqNbr, test, payload);
    PrefixedLineReindexed(a, test, seqNbr, f);
  }

  /**
   * Reading a NEW line back with the indexer: its key is kept field 1 (the
   * person number of a detail record) and its payload the kept fields.
   */
  lemma NewLineReindexed(rec: string, seqNbr: nat, test: string)
    requires |KeptFields(CleanRecord(rec))| >= 2
    requires var line := NewDetailLine(rec, seqNbr, test); !IsSpace(line[|line| - 1])
    ensures var kept := KeptFields(CleanRecord(rec));
      FileIndexer.ParseIndexLine(NewDetailLine(rec, seqNbr, test))
        == Some(FileIndexer.IndexEntry(kept[1], Join(kept, '|'), FileIndexer.DigitsOrZero(kept[1])))
  {
    var kept := KeptFields(CleanRecord(rec));
    var p := PrefixFields(Add, test, seqNbr);
    JoinAppend([DetailPrefix(Add, test, seqNbr)], kept, '|');
    JoinAppend(p, kept, '|');
    assert Join(p + kept, '|') == NewDetailLine(rec, seqNbr, test);
    PrefixedLineReindexed(Add, test, seqNbr, kept);
  }

  /**
   * The fields of a change line of a production run and of an addition
   * line of a test run, for a one-field payload.
   */
  lemma DeltaLineExamples(payload: string)
    requires '|' !in payload
    ensures Split(DeltaLine(Change, 1, "N", payload), '|') == ["6", "C", "01", "FTF", "1", payload]
    ensures Split(DeltaLine(Add, 2, "Y", payload), '|') == ["6", "A", "03", "FTF", "2", payload]
  {
    assert NatToString(1) == "1" && NatToString(2) == "2";
    DeltaLineFields(Change, 1, "N", payload);
    DeltaLineFields(Add, 2, "Y", payload);
    SplitWithoutSeparator(payload, '|');
  }

  /**
   * Two keys, one changed and one new: the changed key is written first
   * as a "C" line and the new one second as an "A" line, in the order of
   * the new index.
   */
  lemma DeltaExample(test: string)
    ensures var oldIx := FileIndexer.ZoeIndex(["ACC001"], map["ACC001" := "A"]);
      var newIx := FileIndexer.ZoeIndex(["ACC001", "ACC002"], map["ACC001" := "B", "ACC002" := "C"]);
      var em := Emitted(newIx.keys, newIx, oldIx);
      && em == [Emission("ACC001", Change, "B"), Emission("ACC002", Add, "C")]
      && DeltaDetailLines(em, test) == [DeltaLine(Change, 1, test, "B"), DeltaLine(Add, 2, test, "C")]
  {
    var oldIx := FileIndexer.ZoeIndex(["ACC001"], map["ACC001" := "A"]);
    var newIx := FileIndexer.ZoeIndex(["ACC001", "ACC002"], map["ACC001" := "B", "ACC002" := "C"]);
    var em := Emitted(newIx.keys, newIx, oldIx);
    var e1, e2 := Emission("ACC001", Change, "B"), Emission("ACC002", Add, "C");
    assert em == [e1, e2] by {
      assert "ACC001" != "ACC002" by {
        assert "ACC001"[5] != "ACC002"[5];
      }
      assert newIx.keys[..1] == ["ACC001"];
      assert newIx.keys[..1][..0] == [];
    }
    assert DeltaDetailLines([e1, e2], test) == [DeltaLine(Change, 1, test, "B"), DeltaLine(Add, 2, test, "C")] by {
      assert [e1, e2][..1] == [e1] && [e1][..0] == [];
    }
  }

  // ---------------------------------------------------------------------
  // the job
  // ---------------------------------------------------------------------

  datatype Mode = New | Delta

  datatype RunError = InvalidMode

  /** The mode check at the start of `run`. */
  function ParseMode(mode: string): (r: Result<Mode, RunError>)
    ensures r == Success(New) <==> mode == "NEW"
    ensures r == Success(Delta) <==> mode == "DELTA"
    ensures r == Failure(InvalidMode) <==> mode != "NEW" && mode != "DELTA"
  {
    if mode == "NEW" then Success(New)
    else if mode == "DELTA" then Success(Delta)
    else Failure(InvalidMode)
  }

  /** The index `get_zoe_file_hash` returns for a file that may be missing. */
  function FileIndex(file: Option<seq<string>>): (r: FileIndexer.ZoeIndex)
    ensures FileIndexer.Valid(r)
  {
    match file
    case None => FileIndexer.EmptyIndex()
    case Some(lines) => FileIndexer.IndexOfValid(lines); FileIndexer.IndexOf(lines)
  }

  /** The hash `get_zoe_file_hash` returns for a file that may be missing. */
  function FileChecksum(file: Option<seq<string>>): nat
  {
    match file
    case None => 0
    case Some(lines) => FileIndexer.ChecksumOf(lines)
  }

  /** The trailer arguments both modes pass: deleted is always 0. */
  function JobTrailerArgs(details: nat, acctHash: nat, added: nat, changed: nat, test: string, fileType: string)
    : (r: RecordFormatter.TrailerArgs)
    ensures r.recordCt == Some(details + 2) && r.acctHash == Some(acctHash)
    ensures r.deleted == Some(0)
  {
    RecordFormatter.TrailerArgs(Some(details + 2), Some(acctHash), Some(added), Some(changed), Some(0), test, fileType)
  }

  /**
   * The lines both modes write: schema line, header, the detail lines and
   * the trailer built from the totals.
   */
  function JobFile(test: string, fileType: string, details: seq<string>, seqNbr: nat, acctHash: nat,
                   added: nat, changed: nat, clock: RecordFormatter.Clock): seq<string>
  {
    var args := JobTrailerArgs(seqNbr, acctHash, added, changed, test, fileType);
    [RecordFormatter.BuildCdeRecord(), RecordFormatter.BuildHeaderRecord(test, fileType)]
      + details
      + [RecordFormatter.BuildTrailerRecord(args, clock).value]
  }

  /**
   * The layout of a written file: the detail lines sit between header and
   * trailer, and the trailer carries the hash, the added and changed
   * counts, a deleted count of 0 and a record count two above the number
   * of detail lines.
   */
  lemma JobFileShape(test: string, fileType: string, details: seq<string>, seqNbr: nat, acctHash: nat,
                     added: nat, changed: nat, clock: RecordFormatter.Clock)
    requires '|' !in fileType && '|' !in clock.date && '|' !in clock.time
    ensures var f := JobFile(test, fileType, details, seqNbr, acctHash, added, changed, clock);
      && |f| == |details| + 3
      && f[0] == RecordFormatter.BuildCdeRecord()
      && f[1] == RecordFormatter.BuildHeaderRecord(test, fileType)
      && f[2..|f| - 1] == details
      && var t := Split(f[|f| - 1], '|');
      && |t| == 23
      && t[6] == RecordFormatter.Pair("CDE0110", IntToString(acctHash))
      && t[7] == RecordFormatter.Pair("CDE0111", IntToString(added))
      && t[8] == RecordFormatter.Pair("CDE0120", IntToString(changed))
      && t[9] == RecordFormatter.Pair("CDE0121", "0")
      && t[11] == RecordFormatter.Pair("CDE0133", IntToString(seqNbr + 2))
  {
    var args := JobTrailerArgs(seqNbr, acctHash, added, changed, test, fileType);
    RecordFormatter.TrailerTaggedValues(args, clock);
    var f := JobFile(test, fileType, details, seqNbr, acctHash, added, changed, clock);
    assert f[|f| - 1] == RecordFormatter.BuildTrailerRecord(args, clock).value;
    assert f[2..|f| - 1] == details;
    assert IntToString(0) == "0";
  }

  /** The lines of the file NEW writes. */
  function NewFile(test: string, records: seq<string>, clock: RecordFormatter.Clock): seq<string>
  {
    JobFile(test, "LOAD", NewDetailLines(records, test), |records|, NewChecksum(records), |records|, 0, clock)
  }

  /**
   * The lines of the file DELTA writes for the emissions `em`: one detail
   * line per emission, and the trailer totals taken from the emissions.
   */
  function DeltaFile(test: string, em: seq<Emission>, newHash: nat, clock: RecordFormatter.Clock): seq<string>
  {
    JobFile(test, "UPDT", DeltaDetailLines(em, test), |em|, newHash + DeltaAmount(em),
            CountAction(em, Add), CountAction(em, Change), clock)
  }

  /** The writes both modes make: schema line, header, the detail lines, trailer. */
  method WriteJobFile(test: string, fileType: string, details: seq<string>, seqNbr: nat, acctHash: nat,
                      added: nat, changed: nat, clock: RecordFormatter.Clock)
    returns (out: seq<string>)
    ensures out == JobFile(test, fileType, details, seqNbr, acctHash, added, changed, clock)
  {
    out := [RecordFormatter.BuildCdeRecord()];
    out := out + [RecordFormatter.BuildHeaderRecord(test, fileType)];
    out := out + details;
    var trailer := RecordFormatter.BuildTrailerRecord(JobTrailerArgs(seqNbr, acctHash, added, changed, test, fileType), clock);
    out := out + [trailer.value];
  }

  /**
   * The NEW branch of `run`.  The file is first opened and given the
   * schema line, then reopened and rewritten from the start, so only the
   * second writing is modelled.
   */
  method WriteNewFile(test: string, records: seq<string>, clock: RecordFormatter.Clock) returns (out: seq<string>)
    ensures out == NewFile(test, records, clock)
  {
    var lines, seqNbr, added, acctHash := WriteNewDetails(records, test);
    out := WriteJobFile(test, "LOAD", lines, |records|, acctHash, added, 0, clock);
  }

  /** The lines DELTA writes, given the two indexes and the new file's hash. */
  method WriteDeltaOutput(test: string, oldIx: FileIndexer.ZoeIndex, newIx: FileIndexer.ZoeIndex, newHash: nat,
                          clock: RecordFormatter.Clock)
    returns (out: seq<string>)
    requires forall k :: k in newIx.keys ==> k in newIx.payload
    ensures out == DeltaFile(test, Emitted(newIx.keys, newIx, oldIx), newHash, clock)
  {
    var lines, seqNbr, added, changed, acctHash := WriteDeltaDetails(newIx, oldIx, newHash, test);
    DeltaRunSpec(newIx.keys, newIx, oldIx, newHash, test);
    out := WriteJobFile(test, "UPDT", lines, seqNbr, acctHash, added, changed, clock);
  }

  /** The DELTA branch of `run`: index the old and the new file, then write. */
  method WriteDeltaFile(test: string, oldFile: Option<seq<string>>, newFile: Option<seq<string>>, clock: RecordFormatter.Clock)
    returns (out: seq<string>)
    ensures var newIx := FileIndex(newFile);
      out == DeltaFile(test, Emitted(newIx.keys, newIx, FileIndex(oldFile)), FileChecksum(newFile), clock)
  {
    var oldIx, _ := FileIndexer.GetZoeFileHash(oldFile);
    var newIx, newHash := FileIndexer.GetZoeFileHash(newFile);
    out := WriteDeltaOutput(test, oldIx, newIx, newHash, clock);
  }

  /**
   * `run`: an invalid mode fails before anything is written; NEW writes the
   * extracted `records`; DELTA compares the files `oldFile` and `newFile`
   * (`None` when missing).  The result is the lines of the output file.
   */
  method RunJob(mode: string, test: string, records: seq<string>,
                oldFile: Option<seq<string>>, newFile: Option<seq<string>>, clock: RecordFormatter.Clock)
    returns (r: Result<seq<string>, RunError>)
    ensures r == Failure(InvalidMode) <==> mode != "NEW" && mode != "DELTA"
    ensures mode == "NEW" ==> r == Success(NewFile(test, records, clock))
    ensures mode == "DELTA" ==>
      var newIx := FileIndex(newFile);
      r == Success(DeltaFile(test, Emitted(newIx.keys, newIx, FileIndex(oldFile)), FileChecksum(newFile), clock))
  {
    var m := ParseMode(mode);
    if m.Failure? {
      return Failure(m.error);
    }
    var out;
    if m.value == New {
      out := WriteNewFile(test, records, clock);
    } else {
      out := WriteDeltaFile(test, oldFile, newFile, clock);
    }
    r := Success(out);
  }

  /**
   * The NEW file: schema line, LOAD header, one detail line per record,
   * trailer.  The trailer counts every line but the schema line, reports
   * every record as added and nothing as changed or deleted, and carries
   * the NEW account hash.
   */
  lemma NewFileShape(test: string, records: seq<string>, clock: RecordFormatter.Clock)
    requires '|' !in clock.date && '|' !in clock.time
    ensures var f := NewFile(test, records, clock);
      && |f| == |records| + 3
      && f[0] == RecordFormatter.BuildCdeRecord()
      && f[1] == RecordFormatter.BuildHeaderRecord(test, "LOAD")
      && f[2..|f| - 1] == NewDetailLines(records, test)
      && var t := Split(f[|f| - 1], '|');
      && |t| == 23
      && t[6] == RecordFormatter.Pair("CDE0110", IntToString(NewChecksum(records)))
      && t[7] == RecordFormatter.Pair("CDE0111", IntToString(|records|))
      && t[8] == RecordFormatter.Pair("CDE0120", "0")
      && t[9] == RecordFormatter.Pair("CDE0121", "0")
      && t[11] == RecordFormatter.Pair("CDE0133", IntToString(|f| - 1))
  {
    JobFileShape(test, "LOAD", NewDetailLines(records, test), |records|, NewChecksum(records), |records|, 0, clock);
    assert IntToString(0) == "0";
  }

  /**
   * The DELTA file: schema line, UPDT header, one detail line per
   * emission, trailer.  The trailer counts every line but the schema
   * line, its added and changed counts add up to the detail lines, and
   * nothing is ever reported deleted.
   */
  lemma DeltaFileShape(test: string, em: seq<Emission>, newHash: nat, clock: RecordFormatter.Clock)
    requires '|' !in clock.date && '|' !in clock.time
    ensures var f := DeltaFile(test, em, newHash, clock);
      && |f| == |em| + 3
      && f[0] == RecordFormatter.BuildCdeRecord()
      && f[1] == RecordFormatter.BuildHeaderRecord(test, "UPDT")
      && f[2..|f| - 1] == DeltaDetailLines(em, test)
      && CountAction(em, Add) + CountAction(em, Change) == |f| - 3
      && var t := Split(f[|f| - 1], '|');
      && |t| == 23
      && t[6] == RecordFormatter.Pair("CDE0110", IntToString(newHash + DeltaAmount(em)))
      && t[7] == RecordFormatter.Pair("CDE0111", IntToString(CountAction(em, Add)))
      && t[8] == RecordFormatter.Pair("CDE0120", IntToString(CountAction(em, Change)))
      && t[9] == RecordFormatter.Pair("CDE0121", "0")
      && t[11] == RecordFormatter.Pair("CDE0133", IntToString(|f| - 1))
  {
    JobFileShape(test, "UPDT", DeltaDetailLines(em, test), |em|, newHash + DeltaAmount(em),
                 CountAction(em, Add), CountAction(em, Change), clock);
    CountActionTotal(em);
  }
}
