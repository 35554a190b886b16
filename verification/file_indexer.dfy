/**
 * The ZOE file indexer (`get_zoe_file_hash`): every line of a previously
 * written ZOE file that is not blank, does not start with "CDE", holds a
 * `|` and has more than six fields is indexed under its field 6, with the
 * fields from 5 onwards as its payload.  A later line with the same key
 * replaces the payload but keeps the key's place in the iteration order,
 * as a Python dict does.  The running account hash adds field 6 of every
 * indexed line whose field 6 is all digits.
 *
 * The file is given as its lines; `None` stands for a file that does not
 * exist, which yields an empty index and a hash of 0.
 */
module FileIndexer {
  import opened Text
  import RecordFormatter

  /** An insertion-ordered dictionary from key to payload. */
  datatype ZoeIndex = ZoeIndex(keys: seq<string>, payload: map<string, string>)

  /** Every key appears once in the order and the order lists exactly the dictionary's keys. */
  ghost predicate Valid(ix: ZoeIndex)
  {
    && (forall i, j :: 0 <= i < j < |ix.keys| ==> ix.keys[i] != ix.keys[j])
    && (forall k :: k in ix.payload <==> k in ix.keys)
  }

  function EmptyIndex(): (r: ZoeIndex)
    ensures Valid(r) && r.keys == [] && r.payload == map[]
  {
    ZoeIndex([], map[])
  }

  /** `hash_zoe[key] = value`. */
  function Put(ix: ZoeIndex, key: string, value: string): (r: ZoeIndex)
    ensures key in r.payload && r.payload[key] == value
    ensures forall k :: k != key ==> (k in r.payload <==> k in ix.payload)
    ensures forall k :: k != key && k in ix.payload ==> r.payload[k] == ix.payload[k]
    ensures |ix.keys| <= |r.keys| && r.keys[..|ix.keys|] == ix.keys
  {
    var keys := if key in ix.keys then ix.keys else ix.keys + [key];
    ZoeIndex(keys, ix.payload[key := value])
  }

  /** Storing a key keeps the dictionary well formed: an existing key keeps its place. */
  lemma PutValid(ix: ZoeIndex, key: string, value: string)
    requires Valid(ix)
    ensures Valid(Put(ix, key, value))
    ensures key in ix.payload ==> Put(ix, key, value).keys == ix.keys
    ensures key !in ix.payload ==> Put(ix, key, value).keys == ix.keys + [key]
  {
  }

  /** What one indexed line contributes: its key, its payload and its addition to the hash. */
  datatype IndexEntry = IndexEntry(key: string, payload: string, amount: nat)

  /** `int(s)` when `s.isdigit()`, otherwise 0. */
  function DigitsOrZero(s: string): (r: nat)
    ensures IsDigits(s) ==> r == DigitsValue(s)
    ensures !IsDigits(s) ==> r == 0
  {
    if IsDigits(s) then DigitsValue(s) else 0
  }

  /** The body of the read loop for one line: `None` when the line is skipped. */
  function ParseIndexLine(line: string): (r: Option<IndexEntry>)
    ensures r.Some? ==> '|' !in r.value.key
  {
    var l := Strip(line);
    if l != [] && !StartsWith(l, "CDE") && '|' in l then
      var parts := Split(l, '|');
      if |parts| > 6 then
        Some(IndexEntry(parts[6], Join(parts[5..], '|'), DigitsOrZero(parts[6])))
      else None
    else None
  }

  /** The parse of every line, in order. */
  function ParseLines(lines: seq<string>): (r: seq<Option<IndexEntry>>)
    ensures |r| == |lines| && forall i :: 0 <= i < |lines| ==> r[i] == ParseIndexLine(lines[i])
  {
    seq(|lines|, i requires 0 <= i < |lines| => ParseIndexLine(lines[i]))
  }

  /** The dictionary after storing the parsed entries in order; skipped lines leave it alone. */
  function IndexOfEntries(es: seq<Option<IndexEntry>>): ZoeIndex
  {
    if es == [] then EmptyIndex()
    else
      var ix := IndexOfEntries(es[..|es| - 1]);
      match es[|es| - 1]
      case None => ix
      case Some(e) => Put(ix, e.key, e.payload)
  }

  /** The account hash after the parsed entries in order. */
  function ChecksumOfEntries(es: seq<Option<IndexEntry>>): nat
  {
    if es == [] then 0
    else
      var h := ChecksumOfEntries(es[..|es| - 1]);
      match es[|es| - 1]
      case None => h
      case Some(e) => h + e.amount
  }

  /** The index after reading `lines` in order. */
  function IndexOf(lines: seq<string>): ZoeIndex
  {
    IndexOfEntries(ParseLines(lines))
  }

  /** The account hash after reading `lines` in order. */
  function ChecksumOf(lines: seq<string>): nat
  {
    ChecksumOfEntries(ParseLines(lines))
  }

  /** `get_zoe_file_hash(file_path)`. */
  method GetZoeFileHash(file: Option<seq<string>>) returns (index: ZoeIndex, acctHash: nat)
    ensures file.None? ==> index == EmptyIndex() && acctHash == 0
    ensures file.Some? ==> index == IndexOf(file.value) && acctHash == ChecksumOf(file.value)
    ensures Valid(index)
  {
    index := EmptyIndex();
    acctHash := 0;
    if file.None? {
      return;
    }
    var lines := file.value;
    ghost var es := ParseLines(lines);
    var i := 0;
    while i < |lines|
      invariant 0 <= i <= |lines|
      invariant index == IndexOfEntries(es[..i]) && acctHash == ChecksumOfEntries(es[..i])
    {
      assert es[..i + 1][..i] == es[..i];
      var entry := ParseIndexLine(lines[i]);
      if entry.Some? {
        index := Put(index, entry.value.key, entry.value.payload);
        acctHash := acctHash + entry.value.amount;
      }
      i := i + 1;
    }
    assert es[..i] == es;
    IndexOfValid(lines);
  }

  // ---------------------------------------------------------------------
  // properties of the index
  // ---------------------------------------------------------------------

  /** Some entry of `es` is stored under `key`. */
  predicate StoredUnder(es: seq<Option<IndexEntry>>, key: string)
  {
    exists i :: 0 <= i < |es| && es[i].Some? && es[i].value.key == key
  }

  lemma {:induction false} EntriesValid(es: seq<Option<IndexEntry>>)
    ensures Valid(IndexOfEntries(es))
  {
    if es != [] {
      EntriesValid(es[..|es| - 1]);
      if es[|es| - 1].Some? {
        var e := es[|es| - 1].value;
        PutValid(IndexOfEntries(es[..|es| - 1]), e.key, e.payload);
      }
    }
  }

  lemma {:induction false} EntriesKeys(es: seq<Option<IndexEntry>>, key: string)
    ensures key in IndexOfEntries(es).payload <==> StoredUnder(es, key)
  {
    if es != [] {
      var init := es[..|es| - 1];
      EntriesKeys(init, key);
      if StoredUnder(init, key) {
        var i :| 0 <= i < |init| && init[i].Some? && init[i].value.key == key;
        assert es[i] == init[i];
      }
      if StoredUnder(es, key) {
        var i :| 0 <= i < |es| && es[i].Some? && es[i].value.key == key;
        if i < |init| {
          assert init[i] == es[i];
        }
      }
    }
  }

  lemma {:induction false} EntriesLastWins(es: seq<Option<IndexEntry>>, i: nat)
    requires i < |es| && es[i].Some?
    requires forall j :: i < j < |es| && es[j].Some? ==> es[j].value.key != es[i].value.key
    ensures es[i].value.key in IndexOfEntries(es).payload
    ensures IndexOfEntries(es).payload[es[i].value.key] == es[i].value.payload
  {
    var init := es[..|es| - 1];
    if i < |es| - 1 {
      forall j | i < j < |init| && init[j].Some?
        ensures init[j].value.key != init[i].value.key
      {
        assert init[j] == es[j];
      }
      assert init[i] == es[i];
      EntriesLastWins(init, i);
    }
  }

  lemma {:induction false} EntriesOrderStable(a: seq<Option<IndexEntry>>, b: seq<Option<IndexEntry>>)
    ensures |IndexOfEntries(a).keys| <= |IndexOfEntries(a + b).keys|
    ensures IndexOfEntries(a + b).keys[..|IndexOfEntries(a).keys|] == IndexOfEntries(a).keys
  {
    if b == [] {
      assert a + b == a;
    } else {
      var init := b[..|b| - 1];
      EntriesOrderStable(a, init);
      assert (a + b)[..|a + b| - 1] == a + init;
      var ka := IndexOfEntries(a).keys;
      var k1 := IndexOfEntries(a + init).keys;
      var k2 := IndexOfEntries(a + b).keys;
      assert |k1| <= |k2| && k2[..|k1|] == k1;
      assert k2[..|ka|] == k2[..|k1|][..|ka|];
    }
  }

  lemma {:induction false} EntriesChecksumAppend(a: seq<Option<IndexEntry>>, b: seq<Option<IndexEntry>>)
    ensures ChecksumOfEntries(a + b) == ChecksumOfEntries(a) + ChecksumOfEntries(b)
  {
    if b == [] {
      assert a + b == a;
    } else {
      var init := b[..|b| - 1];
      EntriesChecksumAppend(a, init);
      assert (a + b)[..|a + b| - 1] == a + init;
      assert (a + b)[|a + b| - 1] == b[|b| - 1];
    }
  }

  lemma ParseLinesAppend(a: seq<string>, b: seq<string>)
    ensures ParseLines(a + b) == ParseLines(a) + ParseLines(b)
  {
  }

  /** Some line of `lines` is indexed under `key`. */
  predicate IndexedUnder(lines: seq<string>, key: string)
  {
    exists i :: 0 <= i < |lines| && ParseIndexLine(lines[i]).Some? && ParseIndexLine(lines[i]).value.key == key
  }

  /** The index is always a well-formed ordered dictionary. */
  lemma IndexOfValid(lines: seq<string>)
    ensures Valid(IndexOf(lines))
  {
    EntriesValid(ParseLines(lines));
  }

  /** A key is in the index exactly when some line is indexed under it. */
  lemma IndexOfKeys(lines: seq<string>, key: string)
    ensures key in IndexOf(lines).payload <==> IndexedUnder(lines, key)
  {
    var es := ParseLines(lines);
    EntriesKeys(es, key);
    if IndexedUnder(lines, key) {
      var i :| 0 <= i < |lines| && ParseIndexLine(lines[i]).Some? && ParseIndexLine(lines[i]).value.key == key;
      assert es[i] == ParseIndexLine(lines[i]);
    }
    if StoredUnder(es, key) {
      var i :| 0 <= i < |es| && es[i].Some? && es[i].value.key == key;
      assert es[i] == ParseIndexLine(lines[i]);
    }
  }

  /** The payload kept under a key is that of the last line indexed under it. */
  lemma IndexOfLastWins(lines: seq<string>, i: nat)
    requires i < |lines| && ParseIndexLine(lines[i]).Some?
    requires forall j :: i < j < |lines| && ParseIndexLine(lines[j]).Some? ==>
      ParseIndexLine(lines[j]).value.key != ParseIndexLine(lines[i]).value.key
    ensures var e := ParseIndexLine(lines[i]).value;
      e.key in IndexOf(lines).payload && IndexOf(lines).payload[e.key] == e.payload
  {
    EntriesLastWins(ParseLines(lines), i);
  }

  /** Reading more lines never reorders the keys already read: the old order is a prefix. */
  lemma IndexOfOrderStable(a: seq<string>, b: seq<string>)
    ensures |IndexOf(a).keys| <= |IndexOf(a + b).keys|
    ensures IndexOf(a + b).keys[..|IndexOf(a).keys|] == IndexOf(a).keys
  {
    ParseLinesAppend(a, b);
    EntriesOrderStable(ParseLines(a), ParseLines(b));
  }

  /** The account hash of two pieces read one after the other is the sum of their hashes. */
  lemma ChecksumOfAppend(a: seq<string>, b: seq<string>)
    ensures ChecksumOf(a + b) == ChecksumOf(a) + ChecksumOf(b)
  {
    ParseLinesAppend(a, b);
    EntriesChecksumAppend(ParseLines(a), ParseLines(b));
  }

  /**
   * A line built by joining separator-free fields, with no white space at
   * either end and not starting with "CDE", is indexed under field 6 with
   * fields 5 onwards as its payload.
   */
  lemma ParseJoinedLine(fields: seq<string>)
    requires |fields| > 6 && NoSeparator(fields, '|')
    requires var l := Join(fields, '|'); !IsSpace(l[0]) && !IsSpace(l[|l| - 1])
    requires !StartsWith(Join(fields, '|'), "CDE")
    ensures ParseIndexLine(Join(fields, '|'))
      == Some(IndexEntry(fields[6], Join(fields[5..], '|'), DigitsOrZero(fields[6])))
  {
    var l := Join(fields, '|');
    StripUnchanged(l);
    SplitJoin(fields, '|');
    JoinCount(fields, '|');
    CountCharPresent(l, '|');
  }

  /** A line with fewer than seven fields is never indexed. */
  lemma ShortLineSkipped(fields: seq<string>)
    requires 1 <= |fields| <= 6 && NoSeparator(fields, '|')
    requires var l := Join(fields, '|'); l == [] || (!IsSpace(l[0]) && !IsSpace(l[|l| - 1]))
    ensures ParseIndexLine(Join(fields, '|')).None?
  {
    var l := Join(fields, '|');
    StripUnchanged(l);
    SplitJoin(fields, '|');
  }

  /** A line starting with "CDE" (after stripping) is never indexed. */
  lemma CdeLineSkipped(line: string)
    requires StartsWith(Strip(line), "CDE")
    ensures ParseIndexLine(line).None?
  {
  }

  // ---------------------------------------------------------------------
  // the lines the converter itself writes
  // ---------------------------------------------------------------------

  /** The schema line is skipped. */
  lemma CdeRecordSkipped()
    ensures ParseIndexLine(RecordFormatter.BuildCdeRecord()).None?
  {
    var r := RecordFormatter.BuildCdeRecord();
    RecordFormatter.CdeRecordEnds();
    assert r[0] == 'C' && r[|r| - 1] == '0' by {
      assert r[..3] == "CDE";
      assert r[|r| - 7..][6] == '0';
    }
    StripUnchanged(r);
  }

  /** A header line has four fields and is skipped. */
  lemma HeaderSkipped(test: string, fileType: string)
    requires '|' !in fileType
    ensures ParseIndexLine(RecordFormatter.BuildHeaderRecord(test, fileType)).None?
  {
    var fields := ["1", fileType, RecordFormatter.EnvCode(test), "FTF"];
    var l := Join(fields, '|');
    assert l == "1|" + Join(fields[1..], '|');
    JoinAppend(fields[..3], ["FTF"], '|');
    assert fields[..3] + ["FTF"] == fields;
    assert l[0] == '1' && l[|l| - 1] == 'F';
    ShortLineSkipped(fields);
  }

  /** A line that needs no stripping and does not start with "CDE" is indexed by its field 6. */
  lemma SplitLineIndexed(line: string)
    requires |Split(line, '|')| > 6
    requires |line| > 0 && !IsSpace(line[0]) && !IsSpace(line[|line| - 1]) && line[0] != 'C'
    ensures var f := Split(line, '|');
      ParseIndexLine(line) == Some(IndexEntry(f[6], Join(f[5..], '|'), DigitsOrZero(f[6])))
  {
    var f := Split(line, '|');
    JoinSplit(line, '|');
    FirstCharNotStartsWith(line, "CDE");
    ParseJoinedLine(f);
  }

  /**
   * A trailer line is indexed: its key is its CDE0110 pair, the account
   * hash behind the tag, and it adds nothing to the running hash.
   */
  lemma TrailerIndexed(args: RecordFormatter.TrailerArgs, clock: RecordFormatter.Clock)
    requires args.recordCt.Some? && args.acctHash.Some?
    requires '|' !in args.fileType && '|' !in clock.date && '|' !in clock.time
    ensures var t := RecordFormatter.BuildTrailerRecord(args, clock).value;
      var e := ParseIndexLine(t);
      && e.Some?
      && |Split(t, '|')| == 23
      && e.value.key == RecordFormatter.Pair("CDE0110", IntToString(args.acctHash.value))
      && e.value.payload == Join(Split(t, '|')[5..], '|')
      && e.value.amount == 0
  {
    var t := RecordFormatter.BuildTrailerRecord(args, clock).value;
    RecordFormatter.TrailerEnds(args, clock);
    RecordFormatter.TrailerTaggedValues(args, clock);
    SplitLineIndexed(t);
    assert Split(t, '|')[6][0] == 'C';
  }
}
