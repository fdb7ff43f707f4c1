/** `addInverseMap`: turns a code-to-name dictionary into one that answers in both
    directions. Each entry `(code, name)` is stored as `obj[key] = name` and
    `obj[name] = parseInt(key)`, where `key` is the decimal property string of
    `code`. */
module InverseMap {
  import opened Js
  import opened Decimal

  /** One entry of the source dictionary as `Object.entries` yields it. */
  type Entry = (nat, string)

  /** The keys `addInverseMap` writes for the codes. */
  function CodeKeys(entries: seq<Entry>): set<string>
  {
    set i | 0 <= i < |entries| :: Dec(entries[i].0)
  }

  /** The keys `addInverseMap` writes for the names. */
  function NameKeys(entries: seq<Entry>): set<string>
  {
    set i | 0 <= i < |entries| :: entries[i].1
  }

  /** The value stored for a name: the number `parseInt` reads from the key. */
  function NumberOf(p: Option<nat>): Value
  {
    match p
    case Some(n) => Num(n)
    case None => NaN
  }

  /** The dictionary after the loop has processed `entries`, in order; a later
      write to the same key replaces an earlier one. Under the well-formedness
      condition below, every entry can be looked up from either side and the
      dictionary holds nothing else. */
  function AddInverseMap(entries: seq<Entry>): (m: map<string, Value>)
    ensures m.Keys == CodeKeys(entries) + NameKeys(entries)
    ensures WellFormed(entries) ==> |m| == 2 * |entries|
    ensures WellFormed(entries) ==> AllStored(m, entries)
  {
    if |entries| == 0 then map[]
    else
      var prev := AddInverseMap(entries[..|entries| - 1]);
      var (code, name) := entries[|entries| - 1];
      var key := Dec(code);
      Step(entries, prev);
      prev[key := Str(name)][name := NumberOf(ParseInt(key))]
  }

  lemma KeysSnoc(entries: seq<Entry>)
    requires |entries| > 0
    ensures var init := entries[..|entries| - 1];
      && CodeKeys(entries) == CodeKeys(init) + {Dec(entries[|entries| - 1].0)}
      && NameKeys(entries) == NameKeys(init) + {entries[|entries| - 1].1}
  {
    var init := entries[..|entries| - 1];
    assert forall i | 0 <= i < |init| :: init[i] == entries[i];
  }

  /** The condition under which both directions survive: codes distinct, names
      distinct, and no name is the decimal key of a code. */
  predicate WellFormed(entries: seq<Entry>)
  {
    && (forall i, j | 0 <= i < j < |entries| :: entries[i].0 != entries[j].0)
    && NamesDistinct(entries)
    && (forall i, j | 0 <= i < |entries| && 0 <= j < |entries| :: entries[i].1 != Dec(entries[j].0))
  }

  predicate NamesDistinct(entries: seq<Entry>)
  {
    forall i, j | 0 <= i < j < |entries| :: entries[i].1 != entries[j].1
  }

  /** Code-to-name lookup on a built dictionary: `obj[String(code)]` when it holds a string. */
  function NameOf(m: map<string, Value>, code: nat): Option<string>
  {
    if Dec(code) in m && m[Dec(code)].Str? then Some(m[Dec(code)].s) else None
  }

  /** Name-to-code lookup on a built dictionary: `obj[name]` when it holds a number. */
  function CodeOf(m: map<string, Value>, name: string): Option<nat>
  {
    if name in m && m[name].Num? then Some(m[name].n) else None
  }

  /** Both directions of one entry are present in a built dictionary. */
  predicate Stored(m: map<string, Value>, e: Entry)
  {
    && Dec(e.0) in m && m[Dec(e.0)] == Str(e.1)
    && e.1 in m && m[e.1] == Num(e.0)
  }

  /** Every entry can be looked up from either side of `m`. */
  predicate AllStored(m: map<string, Value>, entries: seq<Entry>)
  {
    forall i | 0 <= i < |entries| :: Stored(m, entries[i])
  }

  /** One iteration of the loop: what holds of the dictionary built from the
      entries before the last carries over once the last entry is written; the
      number `parseInt` reads back from the key is the code itself. */
  lemma Step(entries: seq<Entry>, prev: map<string, Value>)
    requires |entries| > 0
    requires prev.Keys == CodeKeys(entries[..|entries| - 1]) + NameKeys(entries[..|entries| - 1])
    requires WellFormed(entries[..|entries| - 1]) ==> |prev| == 2 * (|entries| - 1)
    requires WellFormed(entries[..|entries| - 1]) ==> AllStored(prev, entries[..|entries| - 1])
    ensures var (code, name) := entries[|entries| - 1];
      var m := prev[Dec(code) := Str(name)][name := NumberOf(ParseInt(Dec(code)))];
      && m.Keys == CodeKeys(entries) + NameKeys(entries)
      && (WellFormed(entries) ==> |m| == 2 * |entries|)
      && (WellFormed(entries) ==> AllStored(m, entries))
  {
    KeysSnoc(entries);
    ParseIntOfDec(entries[|entries| - 1].0);
    if WellFormed(entries) {
      WellFormedInit(entries);
      PrefixStored(entries, prev);
      StepKeepsStored(entries, prev);
      StepSize(entries, prev);
    }
  }

  lemma PrefixStored(entries: seq<Entry>, prev: map<string, Value>)
    requires |entries| > 0
    requires AllStored(prev, entries[..|entries| - 1])
    ensures forall i | 0 <= i < |entries| - 1 :: Stored(prev, entries[i])
  {
    forall i | 0 <= i < |entries| - 1
      ensures Stored(prev, entries[i])
    {
      assert entries[..|entries| - 1][i] == entries[i];
    }
  }

  /** Writing the last entry keeps every earlier entry and stores the last one. */
  lemma StepKeepsStored(entries: seq<Entry>, prev: map<string, Value>)
    requires WellFormed(entries) && |entries| > 0
    requires forall i | 0 <= i < |entries| - 1 :: Stored(prev, entries[i])
    ensures var (code, name) := entries[|entries| - 1];
      AllStored(prev[Dec(code) := Str(name)][name := Num(code)], entries)
  {
    var n := |entries| - 1;
    var (code, name) := entries[n];
    var m := prev[Dec(code) := Str(name)][name := Num(code)];
    assert name != Dec(code) by {
      assert entries[n].1 != Dec(entries[n].0);
    }
    forall i | 0 <= i < n
      ensures Stored(m, entries[i])
    {
      KeysApart(entries, i);
    }
  }

  /** Writing the last entry adds two new keys. */
  lemma StepSize(entries: seq<Entry>, prev: map<string, Value>)
    requires WellFormed(entries) && |entries| > 0
    requires prev.Keys == CodeKeys(entries[..|entries| - 1]) + NameKeys(entries[..|entries| - 1])
    requires |prev| == 2 * (|entries| - 1)
    ensures var (code, name) := entries[|entries| - 1];
      |prev[Dec(code) := Str(name)][name := Num(code)]| == 2 * |entries|
  {
    var (code, name) := entries[|entries| - 1];
    LastKeysFresh(entries);
    var m1 := prev[Dec(code) := Str(name)];
    assert |m1| == |prev| + 1;
    assert |m1[name := Num(code)]| == |m1| + 1;
  }

  /** The last entry differs, in every key it writes, from each earlier entry. */
  lemma KeysApart(entries: seq<Entry>, i: nat)
    requires WellFormed(entries)
    requires i < |entries| - 1
    ensures var (code, name) := entries[|entries| - 1];
      && Dec(entries[i].0) != Dec(code) && Dec(entries[i].0) != name
      && entries[i].1 != Dec(code) && entries[i].1 != name
  {
    var n := |entries| - 1;
    assert entries[i].0 != entries[n].0;
    DecInjective(entries[i].0, entries[n].0);
  }

  /** Dropping the last entry keeps the condition. */
  lemma WellFormedInit(entries: seq<Entry>)
    requires WellFormed(entries) && |entries| > 0
    ensures WellFormed(entries[..|entries| - 1])
  {
    var init := entries[..|entries| - 1];
    assert forall i | 0 <= i < |init| :: init[i] == entries[i];
  }

  /** The round trip for one known entry, stated with the key spelled out. */
  lemma RoundTripAt(entries: seq<Entry>, i: nat, code: nat, name: string, key: string)
    requires WellFormed(entries)
    requires i < |entries| && entries[i] == (code, name)
    requires Dec(code) == key
    ensures key in AddInverseMap(entries) && AddInverseMap(entries)[key] == Str(name)
    ensures name in AddInverseMap(entries) && AddInverseMap(entries)[name] == Num(code)
  {
    assert Stored(AddInverseMap(entries), entries[i]);
  }

  /** A code key answers with its own entry's name. */
  lemma NameOfSound(entries: seq<Entry>, code: nat, name: string)
    requires WellFormed(entries)
    requires NameOf(AddInverseMap(entries), code) == Some(name)
    ensures (code, name) in entries
  {
    var m := AddInverseMap(entries);
    assert Dec(code) in CodeKeys(entries) + NameKeys(entries);
    forall j | 0 <= j < |entries|
      ensures entries[j].1 != Dec(code)
    {
      assert Stored(m, entries[j]);
    }
    var i :| 0 <= i < |entries| && Dec(entries[i].0) == Dec(code);
    DecInjective(entries[i].0, code);
    assert Stored(m, entries[i]);
    assert entries[i] == (code, name);
  }

  /** A name key answers with its own entry's code. */
  lemma CodeOfSound(entries: seq<Entry>, code: nat, name: string)
    requires WellFormed(entries)
    requires CodeOf(AddInverseMap(entries), name) == Some(code)
    ensures (code, name) in entries
  {
    var m := AddInverseMap(entries);
    assert name in CodeKeys(entries) + NameKeys(entries);
    forall j | 0 <= j < |entries|
      ensures Dec(entries[j].0) != name
    {
      assert Stored(m, entries[j]);
    }
    var i :| 0 <= i < |entries| && entries[i].1 == name;
    assert Stored(m, entries[i]);
    assert entries[i] == (code, name);
  }

  /** Under the well-formedness condition the two lookups are exact: they answer
      precisely the pairs of the source dictionary. */
  lemma Lookups(entries: seq<Entry>, code: nat, name: string)
    requires WellFormed(entries)
    ensures NameOf(AddInverseMap(entries), code) == Some(name) <==> (code, name) in entries
    ensures CodeOf(AddInverseMap(entries), name) == Some(code) <==> (code, name) in entries
  {
    if NameOf(AddInverseMap(entries), code) == Some(name) {
      NameOfSound(entries, code, name);
    }
    if CodeOf(AddInverseMap(entries), name) == Some(code) {
      CodeOfSound(entries, code, name);
    }
    if (code, name) in entries {
      var i :| 0 <= i < |entries| && entries[i] == (code, name);
      RoundTripAt(entries, i, code, name, Dec(code));
    }
  }

  /** The last entry's two keys are new to the dictionary built from the entries before it. */
  lemma LastKeysFresh(entries: seq<Entry>)
    requires WellFormed(entries)
    requires |entries| > 0
    ensures var init := entries[..|entries| - 1];
      && Dec(entries[|entries| - 1].0) !in CodeKeys(init) + NameKeys(init)
      && entries[|entries| - 1].1 !in CodeKeys(init) + NameKeys(init)
      && Dec(entries[|entries| - 1].0) != entries[|entries| - 1].1
  {
    var n := |entries| - 1;
    var init := entries[..n];
    var (code, name) := entries[n];
    forall i | 0 <= i < n
      ensures Dec(init[i].0) != Dec(code) && init[i].1 != Dec(code)
      ensures Dec(init[i].0) != name && init[i].1 != name
    {
      assert init[i] == entries[i];
      DecInjective(init[i].0, code);
    }
  }

  /** A sufficient, cheaply checked form of well-formedness for literal tables:
      codes strictly ascending (the order `Object.entries` lists integer keys in),
      names pairwise distinct and none starting with a digit. */
  predicate Ascending(entries: seq<Entry>)
  {
    forall i | 0 <= i < |entries| - 1 :: entries[i].0 < entries[i + 1].0
  }

  predicate NamesStartWithNonDigit(entries: seq<Entry>)
  {
    forall i | 0 <= i < |entries| :: |entries[i].1| > 0 && !IsDigit(entries[i].1[0])
  }

  lemma {:induction false} AscendingIsSorted(entries: seq<Entry>, i: nat, j: nat)
    requires Ascending(entries)
    requires i < j < |entries|
    ensures entries[i].0 < entries[j].0
    decreases j - i
  {
    if i + 1 < j {
      AscendingIsSorted(entries, i + 1, j);
    }
  }

  lemma WellFormedFromLiteralChecks(entries: seq<Entry>)
    requires Ascending(entries)
    requires NamesStartWithNonDigit(entries)
    requires NamesDistinct(entries)
    ensures WellFormed(entries)
  {
    forall i, j | 0 <= i < j < |entries|
      ensures entries[i].0 != entries[j].0
    {
      AscendingIsSorted(entries, i, j);
    }
    forall i, j | 0 <= i < |entries| && 0 <= j < |entries|
      ensures entries[i].1 != Dec(entries[j].0)
    {
      NotDecOfNonDigit(entries[i].1, entries[j].0);
    }
  }
}
