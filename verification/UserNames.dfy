/**
 * The forwarder's `USER_NAMES` setting, `ID:Name,ID:Name`, read into a map from
 * user id to display name at start-up.
 */
module UserNames {
  import opened Wrappers
  import opened PyText

  /**
   * One comma-separated pair: cut at its first `:`, id and name stripped. `None`
   * when it has no `:` or its id is not an integer (the pair is skipped).
   */
  function PairEntry(pair: string): (r: Option<(int, string)>)
    ensures r.Some? ==> ':' in pair
  {
    if ':' !in pair then None
    else
      var (uid, name) := SplitFirst(pair, ':');
      match ParseInt(Strip(uid))
      case None => None
      case Some(n) => Some((n, Strip(name)))
  }

  /** The entries of a list of pairs, `None` for a skipped pair. */
  function Entries(pairs: seq<string>): (r: seq<Option<(int, string)>>)
    ensures |r| == |pairs|
  {
    if pairs == [] then [] else Entries(pairs[..|pairs| - 1]) + [PairEntry(pairs[|pairs| - 1])]
  }

  lemma {:induction false} EntriesIndex(pairs: seq<string>)
    ensures forall i :: 0 <= i < |pairs| ==> Entries(pairs)[i] == PairEntry(pairs[i])
  {
    if pairs != [] {
      var init := pairs[..|pairs| - 1];
      assert forall i :: 0 <= i < |init| ==> init[i] == pairs[i];
      EntriesIndex(init);
    }
  }

  /** Entering entries into a dict left to right: a later entry overwrites an earlier one. */
  function Collect(es: seq<Option<(int, string)>>): map<int, string> {
    if es == [] then map[]
    else
      var names := Collect(es[..|es| - 1]);
      match es[|es| - 1]
      case None => names
      case Some(e) => names[e.0 := e.1]
  }

  /** The map `USER_NAMES` holds after the pairs are read. */
  function NamesFromPairs(pairs: seq<string>): map<int, string> {
    Collect(Entries(pairs))
  }

  /** The parsing loop over `USER_NAMES.split(",")`, skipped for an empty setting. */
  method ParseUserNames(raw: string) returns (names: map<int, string>)
    ensures names == NamesFromPairs(Split(raw, ','))
  {
    names := map[];
    if raw == "" {
      assert Split(raw, ',') == [""];
      assert Entries([""]) == [PairEntry("")] && PairEntry("") == None;
      return;
    }
    var pairs := Split(raw, ',');
    var i := 0;
    while i < |pairs|
      invariant 0 <= i <= |pairs|
      invariant names == NamesFromPairs(pairs[..i])
    {
      assert pairs[..i + 1][..i] == pairs[..i];
      assert Entries(pairs[..i + 1]) == Entries(pairs[..i]) + [PairEntry(pairs[i])];
      var pair := pairs[i];
      if ':' in pair {
        var (uid, name) := SplitFirst(pair, ':');
        var id := ParseInt(Strip(uid));
        if id.Some? {
          names := names[id.value := Strip(name)];
        }
      }
      i := i + 1;
    }
    assert pairs[..i] == pairs;
  }

  /** The ids in the map are exactly the ids of the entries that were not skipped. */
  lemma {:induction false} CollectKeys(es: seq<Option<(int, string)>>)
    ensures forall id :: id in Collect(es) <==> exists i :: 0 <= i < |es| && es[i].Some? && es[i].value.0 == id
  {
    if es != [] {
      var init := es[..|es| - 1];
      CollectKeys(init);
      assert forall i :: 0 <= i < |init| ==> init[i] == es[i];
      forall id | exists i :: 0 <= i < |es| && es[i].Some? && es[i].value.0 == id
        ensures id in Collect(es)
      {
        var i :| 0 <= i < |es| && es[i].Some? && es[i].value.0 == id;
        if i < |init| {
          assert init[i].Some? && init[i].value.0 == id;
        }
      }
    }
  }

  /** Each id is named by the LAST entry that carries it. */
  lemma {:induction false} CollectLastWins(es: seq<Option<(int, string)>>, i: nat)
    requires i < |es| && es[i].Some?
    requires forall j :: i < j < |es| && es[j].Some? ==> es[j].value.0 != es[i].value.0
    ensures es[i].value.0 in Collect(es) && Collect(es)[es[i].value.0] == es[i].value.1
  {
    var init := es[..|es| - 1];
    if i < |es| - 1 {
      assert init[i] == es[i];
      assert forall j :: i < j < |init| ==> init[j] == es[j];
      CollectLastWins(init, i);
    }
  }

  /** `str(id) + ":" + name`: how one pair of the setting is written. */
  function FormatPair(id: int, name: string): string {
    IntToString(id) + ":" + name
  }

  /** `str(n)` is digits after an optional `-`, so it holds neither `:` nor `,`. */
  lemma IntToStringPlain(n: int)
    ensures ':' !in IntToString(n) && ',' !in IntToString(n)
  {
    var a: nat := if n < 0 then -n else n;
    var ds := NatToString(a);
    assert AllDigits(ds);
    assert ':' !in ds && ',' !in ds;
    assert IntToString(n) == if n < 0 then "-" + ds else ds;
  }

  /** No white space at either end: what `strip()` leaves. */
  predicate Unpadded(s: string) {
    s == [] || (!IsSpace(s[0]) && !IsSpace(s[|s| - 1]))
  }

  /** A written pair reads back as its id and name, whatever `:` the name holds. */
  lemma PairEntryRoundTrip(id: int, name: string)
    requires Unpadded(name)
    ensures PairEntry(FormatPair(id, name)) == Some((id, name))
  {
    var u := IntToString(id);
    IntToStringPlain(id);
    SplitFirstOf(u, name, ':');
    assert FormatPair(id, name) == u + [':'] + name;
    assert IsDigit(u[|u| - 1]) && !IsSpace(u[0]);
    StripTrimmed(u);
    StripTrimmed(name);
    IntToStringRoundTrip(id);
  }

  /** The pairs written for `(id, name)` entries. */
  function FormatPairs(es: seq<(int, string)>): (r: seq<string>)
    ensures |r| == |es|
    ensures forall i :: 0 <= i < |es| ==> r[i] == FormatPair(es[i].0, es[i].1)
  {
    seq(|es|, i requires 0 <= i < |es| => FormatPair(es[i].0, es[i].1))
  }

  /** A whole setting written from `(id, name)` entries. */
  function Setting(es: seq<(int, string)>): string {
    Join(FormatPairs(es), ',')
  }

  lemma FormatPairsRead(es: seq<(int, string)>)
    requires forall i :: 0 <= i < |es| ==> ',' !in es[i].1 && Unpadded(es[i].1)
    ensures forall i :: 0 <= i < |es| ==> ',' !in FormatPairs(es)[i]
    ensures Entries(FormatPairs(es)) == seq(|es|, i requires 0 <= i < |es| => Some(es[i]))
  {
    var ps := FormatPairs(es);
    EntriesIndex(ps);
    forall i | 0 <= i < |es|
      ensures ',' !in ps[i] && Entries(ps)[i] == Some(es[i])
    {
      IntToStringPlain(es[i].0);
      PairEntryRoundTrip(es[i].0, es[i].1);
    }
  }

  /**
   * Reading a written setting gives back its entries, a later entry for the same
   * id winning, provided the names hold no `,` and are already stripped.
   */
  lemma SettingRoundTrip(es: seq<(int, string)>)
    requires forall i :: 0 <= i < |es| ==> ',' !in es[i].1 && Unpadded(es[i].1)
    ensures NamesFromPairs(Split(Setting(es), ',')) ==
            Collect(seq(|es|, i requires 0 <= i < |es| => Some(es[i])))
  {
    if es == [] {
      assert Split(Setting(es), ',') == [""];
      assert Entries([""]) == [None];
      assert Collect([None]) == Collect([]);
    } else {
      FormatPairsRead(es);
      SplitJoin(FormatPairs(es), ',');
    }
  }
}
