/**
 * The ID selector (`parse_id`): an identity field holds zero or more
 * entries separated by `|`, each entry made of `:`-separated parts.  One
 * entry is chosen by a USA-first rule and its first six parts are
 * returned, padded with empty strings to exactly six.
 *
 * The USA test reads part 3 of an entry, as the code does.  In the
 * entries the converter receives part 2 is the country and part 3 the
 * region, so a US driver licence such as `...:USA:TX:...` is treated as a
 * foreign entry; `SelectIdOnMixedEntries` shows the effect.
 */
module IdSelector {
  import opened Text

  /** The number of parts of the chosen entry that are kept. */
  const IdWidth := 6

  /** An entry the USA filter (`usa`) or the foreign filter (`!usa`) keeps. */
  predicate IssuedIn(entry: seq<string>, usa: bool)
  {
    |entry| > 3 && (entry[3] == "USA") == usa
  }

  /** An entry with a non-empty id number (part 4). */
  predicate HasIdNumber(entry: seq<string>)
  {
    |entry| > 4 && entry[4] != ""
  }

  /** The list comprehensions that keep the USA entries, or the foreign ones. */
  function Issued(entries: seq<seq<string>>, usa: bool): (r: seq<seq<string>>)
    ensures forall e :: e in r ==> e in entries && IssuedIn(e, usa)
    ensures forall i :: 0 <= i < |entries| && IssuedIn(entries[i], usa) ==> entries[i] in r
  {
    if entries == [] then []
    else if IssuedIn(entries[0], usa) then [entries[0]] + Issued(entries[1..], usa)
    else Issued(entries[1..], usa)
  }

  /**
   * The filter works entry by entry, so the entries it keeps stay in the
   * order of the field.
   */
  lemma {:induction false} IssuedAppend(a: seq<seq<string>>, b: seq<seq<string>>, usa: bool)
    ensures Issued(a + b, usa) == Issued(a, usa) + Issued(b, usa)
  {
    if a == [] {
      assert a + b == b;
    } else {
      assert (a + b)[0] == a[0] && (a + b)[1..] == a[1..] + b;
      IssuedAppend(a[1..], b, usa);
    }
  }

  /** The `for ... break` search: the first entry with an id number. */
  function FirstWithIdNumber(entries: seq<seq<string>>): (r: Option<seq<string>>)
    ensures r.Some? ==> r.value in entries && HasIdNumber(r.value)
    ensures r.None? ==> forall i :: 0 <= i < |entries| ==> !HasIdNumber(entries[i])
  {
    if entries == [] then None
    else if HasIdNumber(entries[0]) then Some(entries[0])
    else FirstWithIdNumber(entries[1..])
  }

  /** `entry[:6]` followed by the `while len(id_ary) < 6` padding loop. */
  function PadToWidth(entry: seq<string>): (r: seq<string>)
    ensures |r| == IdWidth
    ensures forall i :: 0 <= i < IdWidth ==> r[i] == (if i < |entry| then entry[i] else "")
  {
    var kept := if |entry| <= IdWidth then entry else entry[..IdWidth];
    kept + seq(IdWidth - |kept|, _ => "")
  }

  /** The six empty strings returned when no entry is chosen. */
  function NoId(): (r: seq<string>)
    ensures |r| == IdWidth && forall i :: 0 <= i < IdWidth ==> r[i] == ""
  {
    PadToWidth([])
  }

  /**
   * Entries of a non-empty identity field, each split into its parts: one
   * entry more than the field has `|`, no part holding `:`, and entry `i`
   * rejoined with `:` is the `i`-th `|`-separated piece of the field.
   */
  function IdEntries(idRecord: string): (r: seq<seq<string>>)
    ensures |r| == CountChar(idRecord, '|') + 1
    ensures forall i :: 0 <= i < |r| ==> NoSeparator(r[i], ':')
    ensures forall i :: 0 <= i < |r| ==> Join(r[i], ':') == Split(idRecord, '|')[i]
  {
    if '|' in idRecord then
      var rows := Split(idRecord, '|');
      var r := seq(|rows|, i requires 0 <= i < |rows| => Split(rows[i], ':'));
      assert forall i :: 0 <= i < |r| ==> Join(r[i], ':') == rows[i] by {
        forall i | 0 <= i < |r| ensures Join(r[i], ':') == rows[i] {
          JoinSplit(rows[i], ':');
        }
      }
      r
    else
      CountCharAbsent(idRecord, '|');
      SplitWithoutSeparator(idRecord, '|');
      JoinSplit(idRecord, ':');
      [Split(idRecord, ':')]
  }

  /**
   * The selection: when any entry is USA, only USA entries are searched
   * (even if none of them has an id number); otherwise the foreign ones.
   */
  function SelectId(entries: seq<seq<string>>): (r: seq<string>)
    ensures |r| == IdWidth
  {
    var usa := Issued(entries, true);
    var chosen := if |usa| > 0 then FirstWithIdNumber(usa)
                  else FirstWithIdNumber(Issued(entries, false));
    match chosen
    case Some(entry) => PadToWidth(entry)
    case None => NoId()
  }

  /** `parse_id(id_record_str, is_org)`. */
  function ParseId(idRecord: string, isOrg: bool): (r: seq<string>)
    ensures |r| == IdWidth
    ensures isOrg || idRecord == "" ==> r == NoId()
  {
    if !isOrg && idRecord != "" then SelectId(IdEntries(idRecord)) else NoId()
  }

  /** The first entry kept by a filter and carrying an id number is the one found. */
  lemma {:induction false} FirstIssuedWithIdNumber(entries: seq<seq<string>>, usa: bool, i: nat)
    requires i < |entries| && IssuedIn(entries[i], usa) && HasIdNumber(entries[i])
    requires forall j :: 0 <= j < i ==> !(IssuedIn(entries[j], usa) && HasIdNumber(entries[j]))
    ensures FirstWithIdNumber(Issued(entries, usa)) == Some(entries[i])
  {
    if i > 0 {
      FirstIssuedWithIdNumber(entries[1..], usa, i - 1);
    }
  }

  /** A filter that matches no entry keeps nothing. */
  lemma {:induction false} NoneIssued(entries: seq<seq<string>>, usa: bool)
    requires forall j :: 0 <= j < |entries| ==> !IssuedIn(entries[j], usa)
    ensures Issued(entries, usa) == []
  {
    if entries != [] {
      NoneIssued(entries[1..], usa);
    }
  }

  /** A USA entry with an id number wins over every foreign entry. */
  lemma SelectIdUsa(entries: seq<seq<string>>, i: nat)
    requires i < |entries| && IssuedIn(entries[i], true) && HasIdNumber(entries[i])
    requires forall j :: 0 <= j < i ==> !(IssuedIn(entries[j], true) && HasIdNumber(entries[j]))
    ensures SelectId(entries) == PadToWidth(entries[i])
  {
    assert entries[i] in Issued(entries, true);
    FirstIssuedWithIdNumber(entries, true, i);
  }

  /**
   * Once any entry is USA the foreign entries are never consulted: if no
   * USA entry has an id number the result is empty, whatever the foreign
   * entries hold.
   */
  lemma SelectIdUsaWithoutNumber(entries: seq<seq<string>>, i: nat)
    requires i < |entries| && IssuedIn(entries[i], true)
    requires forall j :: 0 <= j < |entries| && IssuedIn(entries[j], true) ==> !HasIdNumber(entries[j])
    ensures SelectId(entries) == NoId()
  {
    var usa := Issued(entries, true);
    assert entries[i] in usa;
    assert forall k :: 0 <= k < |usa| ==> !HasIdNumber(usa[k]) by {
      forall k | 0 <= k < |usa| ensures !HasIdNumber(usa[k]) {
        assert usa[k] in usa;
      }
    }
  }

  /** With no USA entry, the first foreign entry with an id number is chosen. */
  lemma SelectIdForeign(entries: seq<seq<string>>, i: nat)
    requires forall j :: 0 <= j < |entries| ==> !IssuedIn(entries[j], true)
    requires i < |entries| && IssuedIn(entries[i], false) && HasIdNumber(entries[i])
    requires forall j :: 0 <= j < i ==> !(IssuedIn(entries[j], false) && HasIdNumber(entries[j]))
    ensures SelectId(entries) == PadToWidth(entries[i])
  {
    NoneIssued(entries, true);
    FirstIssuedWithIdNumber(entries, false, i);
  }

  /**
   * With no USA entry and no foreign entry carrying an id number, the
   * result is six empty strings.
   */
  lemma SelectIdForeignWithoutNumber(entries: seq<seq<string>>)
    requires forall j :: 0 <= j < |entries| ==> !IssuedIn(entries[j], true)
    requires forall j :: 0 <= j < |entries| && IssuedIn(entries[j], false) ==> !HasIdNumber(entries[j])
    ensures SelectId(entries) == NoId()
  {
    NoneIssued(entries, true);
    var foreign := Issued(entries, false);
    assert forall k :: 0 <= k < |foreign| ==> !HasIdNumber(foreign[k]) by {
      forall k | 0 <= k < |foreign| ensures !HasIdNumber(foreign[k]) {
        assert foreign[k] in foreign;
      }
    }
  }

  /** An entry with fewer than four parts is never chosen. */
  lemma SelectIdIgnoresShortEntries(entries: seq<seq<string>>)
    requires forall j :: 0 <= j < |entries| ==> |entries[j]| <= 3
    ensures SelectId(entries) == NoId()
  {
    NoneIssued(entries, true);
    NoneIssued(entries, false);
  }

  /**
   * A licence record of the shape the converter receives, part 2 being the
   * country: with a Canadian entry listed first and a Texan one second, the
   * Canadian one is chosen, because neither entry has "USA" in part 3.
   */
  lemma SelectIdOnMixedEntries()
    ensures
      var can := ["20281231", "20230101", "CAN", "ON", "987654321", "4", "Foreign ID"];
      var tx := ["20301231", "20240101", "USA", "TX", "123456789", "0", "Driver License"];
      SelectId([can, tx]) == ["20281231", "20230101", "CAN", "ON", "987654321", "4"]
  {
    var can := ["20281231", "20230101", "CAN", "ON", "987654321", "4", "Foreign ID"];
    var tx := ["20301231", "20240101", "USA", "TX", "123456789", "0", "Driver License"];
    assert "ON" != "USA" && "TX" != "USA" by {
      assert "ON"[0] != "USA"[0];
      assert "TX"[0] != "USA"[0];
    }
    SelectIdForeign([can, tx], 0);
  }
}
