/** `addHexValues`: copies a name-to-number dictionary and adds, for every entry,
    a second key `<name>_HEX` holding the number rendered by `Utils.hexStr(value, 4)`.
    The renderer belongs to another package; it is a parameter here, and no
    property of its output is relied on. */
module HexValues {
  import opened Js

  /** `Utils.hexStr(value, width)`. */
  type HexStr = (nat, nat) -> string

  /** One entry of the source dictionary: a key and its number. */
  type Field = (string, nat)

  /** The width every hex rendering is requested with. */
  const HexWidth: nat := 4

  /** The companion key under which an entry's hex rendering is stored. */
  function HexKey(key: string): (k: string)
    ensures |k| == |key| + 4
    ensures k[..|key|] == key
    ensures EndsWithHex(k)
  {
    key + "_HEX"
  }

  predicate EndsWithHex(key: string)
  {
    |key| >= 4 && key[|key| - 4..] == "_HEX"
  }

  function PlainKeys(dict: seq<Field>): set<string>
  {
    set i | 0 <= i < |dict| :: dict[i].0
  }

  function HexKeys(dict: seq<Field>): set<string>
  {
    set i | 0 <= i < |dict| :: HexKey(dict[i].0)
  }

  /** The dictionary after the loop has processed `dict`, in order; a later write
      to the same key replaces an earlier one. When no write overwrites another,
      every entry keeps its number, gains its hex companion, and nothing else is
      added. */
  function AddHexValues(dict: seq<Field>, hexStr: HexStr): (m: map<string, Value>)
    ensures m.Keys == PlainKeys(dict) + HexKeys(dict)
    ensures WellFormed(dict) ==> |m| == 2 * |dict|
    ensures WellFormed(dict) ==> AllAnnotated(m, dict, hexStr)
  {
    if |dict| == 0 then map[]
    else
      var prev := AddHexValues(dict[..|dict| - 1], hexStr);
      var (key, value) := dict[|dict| - 1];
      Step(dict, hexStr, prev);
      prev[key := Num(value)][HexKey(key) := Str(hexStr(value, HexWidth))]
  }

  /** One iteration of the loop: what holds of the dictionary built from the
      entries before the last carries over once the last entry is written. */
  lemma Step(dict: seq<Field>, hexStr: HexStr, prev: map<string, Value>)
    requires |dict| > 0
    requires prev.Keys == PlainKeys(dict[..|dict| - 1]) + HexKeys(dict[..|dict| - 1])
    requires WellFormed(dict[..|dict| - 1]) ==> |prev| == 2 * (|dict| - 1)
    requires WellFormed(dict[..|dict| - 1]) ==> AllAnnotated(prev, dict[..|dict| - 1], hexStr)
    ensures var (key, value) := dict[|dict| - 1];
      var m := prev[key := Num(value)][HexKey(key) := Str(hexStr(value, HexWidth))];
      && m.Keys == PlainKeys(dict) + HexKeys(dict)
      && (WellFormed(dict) ==> |m| == 2 * |dict|)
      && (WellFormed(dict) ==> AllAnnotated(m, dict, hexStr))
  {
    KeysSnoc(dict);
    if WellFormed(dict) {
      WellFormedInit(dict);
      PrefixAnnotations(dict, hexStr, prev);
      StepKeepsAnnotations(dict, hexStr, prev);
      StepSize(dict, hexStr, prev);
    }
  }

  /** `m` holds every entry's number and rendering. */
  predicate AllAnnotated(m: map<string, Value>, dict: seq<Field>, hexStr: HexStr)
  {
    forall i | 0 <= i < |dict| :: Annotates(m, dict[i], hexStr)
  }

  /** `m` holds the entry's number under its key and its rendering under the companion. */
  predicate Annotates(m: map<string, Value>, e: Field, hexStr: HexStr)
  {
    && e.0 in m && m[e.0] == Num(e.1)
    && HexKey(e.0) in m && m[HexKey(e.0)] == Str(hexStr(e.1, HexWidth))
  }

  lemma WellFormedInit(dict: seq<Field>)
    requires WellFormed(dict) && |dict| > 0
    ensures WellFormed(dict[..|dict| - 1])
  {
    var init := dict[..|dict| - 1];
    assert forall i | 0 <= i < |init| :: init[i] == dict[i];
  }

  lemma PrefixAnnotations(dict: seq<Field>, hexStr: HexStr, prev: map<string, Value>)
    requires |dict| > 0
    requires AllAnnotated(prev, dict[..|dict| - 1], hexStr)
    ensures forall i | 0 <= i < |dict| - 1 :: Annotates(prev, dict[i], hexStr)
  {
    forall i | 0 <= i < |dict| - 1
      ensures Annotates(prev, dict[i], hexStr)
    {
      assert dict[..|dict| - 1][i] == dict[i];
    }
  }

  /** One iteration of the loop keeps the earlier entries and adds the last one. */
  lemma StepKeepsAnnotations(dict: seq<Field>, hexStr: HexStr, prev: map<string, Value>)
    requires WellFormed(dict) && |dict| > 0
    requires prev.Keys == PlainKeys(dict[..|dict| - 1]) + HexKeys(dict[..|dict| - 1])
    requires forall i | 0 <= i < |dict| - 1 :: Annotates(prev, dict[i], hexStr)
    ensures var (key, value) := dict[|dict| - 1];
      var m := prev[key := Num(value)][HexKey(key) := Str(hexStr(value, HexWidth))];
      forall i | 0 <= i < |dict| :: Annotates(m, dict[i], hexStr)
  {
    var n := |dict| - 1;
    var (key, value) := dict[n];
    var m := prev[key := Num(value)][HexKey(key) := Str(hexStr(value, HexWidth))];
    forall i | 0 <= i < n
      ensures Annotates(m, dict[i], hexStr)
    {
      assert dict[i].0 != key && dict[i].0 != HexKey(key);
      assert HexKey(dict[i].0) != key && HexKey(dict[i].0) != HexKey(key);
    }
  }

  /** One iteration of the loop adds two new keys. */
  lemma StepSize(dict: seq<Field>, hexStr: HexStr, prev: map<string, Value>)
    requires WellFormed(dict) && |dict| > 0
    requires prev.Keys == PlainKeys(dict[..|dict| - 1]) + HexKeys(dict[..|dict| - 1])
    requires |prev| == 2 * (|dict| - 1)
    ensures var (key, value) := dict[|dict| - 1];
      |prev[key := Num(value)][HexKey(key) := Str(hexStr(value, HexWidth))]| == 2 * |dict|
  {
    LastKeysFresh(dict);
  }

  lemma KeysSnoc(dict: seq<Field>)
    requires |dict| > 0
    ensures var init := dict[..|dict| - 1];
      && PlainKeys(dict) == PlainKeys(init) + {dict[|dict| - 1].0}
      && HexKeys(dict) == HexKeys(init) + {HexKey(dict[|dict| - 1].0)}
  {
    var init := dict[..|dict| - 1];
    assert forall i | 0 <= i < |init| :: init[i] == dict[i];
  }

  predicate KeysDistinct(dict: seq<Field>)
  {
    forall i, j | 0 <= i < j < |dict| :: dict[i].0 != dict[j].0
  }

  /** Keys distinct (as in any JavaScript object) and no key is another key's
      companion, so no write overwrites another. */
  predicate WellFormed(dict: seq<Field>)
  {
    && KeysDistinct(dict)
    && forall i, j | 0 <= i < |dict| && 0 <= j < |dict| :: dict[i].0 != HexKey(dict[j].0)
  }

  /** The last entry's two keys are new to the dictionary built before it. */
  lemma LastKeysFresh(dict: seq<Field>)
    requires WellFormed(dict)
    requires |dict| > 0
    ensures var init := dict[..|dict| - 1];
      && dict[|dict| - 1].0 !in PlainKeys(init) + HexKeys(init)
      && HexKey(dict[|dict| - 1].0) !in PlainKeys(init) + HexKeys(init)
      && dict[|dict| - 1].0 != HexKey(dict[|dict| - 1].0)
  {
    var n := |dict| - 1;
    var init := dict[..n];
    var key := dict[n].0;
    forall i | 0 <= i < n
      ensures init[i].0 != key && HexKey(init[i].0) != key
      ensures init[i].0 != HexKey(key) && HexKey(init[i].0) != HexKey(key)
    {
      assert init[i] == dict[i];
    }
  }

  /** The same fact for one known entry, with its key and value spelled out. */
  lemma AnnotatedAt(dict: seq<Field>, hexStr: HexStr, i: nat, key: string, value: nat)
    requires WellFormed(dict)
    requires i < |dict| && dict[i] == (key, value)
    ensures key in AddHexValues(dict, hexStr) && AddHexValues(dict, hexStr)[key] == Num(value)
    ensures HexKey(key) in AddHexValues(dict, hexStr)
    ensures AddHexValues(dict, hexStr)[HexKey(key)] == Str(hexStr(value, HexWidth))
  {
    assert Annotates(AddHexValues(dict, hexStr), dict[i], hexStr);
  }

  /** A cheaply checked form of well-formedness for literal dictionaries. */
  lemma WellFormedFromLiteralChecks(dict: seq<Field>)
    requires KeysDistinct(dict)
    requires forall i | 0 <= i < |dict| :: !EndsWithHex(dict[i].0)
    ensures WellFormed(dict)
  {
  }
}
