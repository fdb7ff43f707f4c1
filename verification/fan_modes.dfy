/** The fan tables of the hvacFanCtrl cluster: HVAC_FAN_MODE names the values of
    the fanMode attribute, and HVAC_FAN_SEQ the values of fanModeSequence, each
    a slash-separated list of fan-mode labels. */
module FanModes {

  /** HVAC_FAN_MODE, indexed by attribute value. */
  const HvacFanMode: seq<string> := ["Off", "Low", "Medium", "High", "On", "Auto", "Smart"]

  /** HVAC_FAN_SEQ, indexed by attribute value. */
  const HvacFanSeq: seq<string> := [
    "Low/Medium/High",
    "Low/High",
    "Low/Medium/High/Auto",
    "Low/High/Auto",
    "On/Auto"
  ]

  /** `s.split(sep)` for a one-character separator: the maximal runs between
      separators, including empty ones, so there is always at least one part. */
  function Split(s: string, sep: char): (parts: seq<string>)
    ensures |parts| >= 1
    ensures forall i | 0 <= i < |parts| :: sep !in parts[i]
    ensures Join(parts, sep) == s
    decreases |s|
  {
    if |s| == 0 then [""]
    else
      var rest := Split(s[1..], sep);
      if s[0] == sep then
        assert [s[0]] + s[1..] == s;
        [""] + rest
      else
        var parts := [[s[0]] + rest[0]] + rest[1..];
        JoinCons(s[0], rest, sep);
        assert [s[0]] + s[1..] == s;
        parts
  }

  /** `parts.join(sep)`. */
  function Join(parts: seq<string>, sep: char): (r: string)
    requires |parts| >= 1
    ensures parts[0] <= r
    ensures |parts| > 1 ==> |parts[0]| < |r| && r[|parts[0]|] == sep
    ensures |parts| == 1 ==> r == parts[0]
  {
    if |parts| == 1 then parts[0] else parts[0] + [sep] + Join(parts[1..], sep)
  }

  /** Prepending a character to the first part prepends it to the joined string. */
  lemma JoinCons(c: char, parts: seq<string>, sep: char)
    requires |parts| >= 1
    ensures Join([[c] + parts[0]] + parts[1..], sep) == [c] + Join(parts, sep)
  {
    var q := [[c] + parts[0]] + parts[1..];
    assert q[0] == [c] + parts[0];
    if |parts| > 1 {
      assert q[1..] == parts[1..];
    }
  }

  /** Splitting a string that does not contain the separator gives the string. */
  lemma {:induction false} SplitNoSep(s: string, sep: char)
    requires sep !in s
    ensures Split(s, sep) == [s]
    decreases |s|
  {
    if |s| > 0 {
      assert sep !in s[1..];
      SplitNoSep(s[1..], sep);
      assert [s[0]] + s[1..] == s;
    }
  }

  /** Splitting `head + sep + rest` gives `head` followed by the parts of `rest`. */
  lemma {:induction false} SplitAppend(head: string, sep: char, rest: string)
    requires sep !in head
    ensures Split(head + [sep] + rest, sep) == [head] + Split(rest, sep)
    decreases |head|
  {
    var s := head + [sep] + rest;
    if |head| == 0 {
      assert s[0] == sep && s[1..] == rest;
    } else {
      assert s[0] == head[0];
      assert s[1..] == head[1..] + [sep] + rest;
      assert sep !in head[1..];
      SplitAppend(head[1..], sep, rest);
      assert [head[0]] + head[1..] == head;
    }
  }

  /** Splitting undoes joining when no part contains the separator. */
  lemma {:induction false} SplitJoin(parts: seq<string>, sep: char)
    requires |parts| >= 1
    requires forall i | 0 <= i < |parts| :: sep !in parts[i]
    ensures Split(Join(parts, sep), sep) == parts
    decreases |parts|
  {
    if |parts| == 1 {
      SplitNoSep(parts[0], sep);
    } else {
      SplitJoin(parts[1..], sep);
      SplitAppend(parts[0], sep, Join(parts[1..], sep));
      assert [parts[0]] + parts[1..] == parts;
    }
  }

  /** The labels of each fan-mode sequence, as the adapter reads them. */
  lemma FanSeq0()
    ensures Split(HvacFanSeq[0], '/') == ["Low", "Medium", "High"]
  {
    assert HvacFanSeq[0] == Join(["Low", "Medium", "High"], '/');
    SplitJoin(["Low", "Medium", "High"], '/');
  }

  lemma FanSeq1()
    ensures Split(HvacFanSeq[1], '/') == ["Low", "High"]
  {
    assert HvacFanSeq[1] == Join(["Low", "High"], '/');
    SplitJoin(["Low", "High"], '/');
  }

  lemma FanSeq2()
    ensures Split(HvacFanSeq[2], '/') == ["Low", "Medium", "High", "Auto"]
  {
    assert HvacFanSeq[2] == Join(["Low", "Medium", "High", "Auto"], '/');
    SplitJoin(["Low", "Medium", "High", "Auto"], '/');
  }

  lemma FanSeq3()
    ensures Split(HvacFanSeq[3], '/') == ["Low", "High", "Auto"]
  {
    assert HvacFanSeq[3] == Join(["Low", "High", "Auto"], '/');
    SplitJoin(["Low", "High", "Auto"], '/');
  }

  lemma FanSeq4()
    ensures Split(HvacFanSeq[4], '/') == ["On", "Auto"]
  {
    assert HvacFanSeq[4] == Join(["On", "Auto"], '/');
    SplitJoin(["On", "Auto"], '/');
  }

  /** Every slash-separated label of every fan-mode sequence is a fan mode. */
  lemma FanSeqLabelsAreModes()
    ensures forall i, j | 0 <= i < |HvacFanSeq| && 0 <= j < |Split(HvacFanSeq[i], '/')| ::
      Split(HvacFanSeq[i], '/')[j] in HvacFanMode
  {
    forall i | 0 <= i < |HvacFanSeq|
      ensures forall j | 0 <= j < |Split(HvacFanSeq[i], '/')| :: Split(HvacFanSeq[i], '/')[j] in HvacFanMode
    {
      assert "Low" == HvacFanMode[1] && "Medium" == HvacFanMode[2] && "High" == HvacFanMode[3];
      assert "On" == HvacFanMode[4] && "Auto" == HvacFanMode[5];
      if i == 0 { FanSeq0(); }
      else if i == 1 { FanSeq1(); }
      else if i == 2 { FanSeq2(); }
      else if i == 3 { FanSeq3(); }
      else { FanSeq4(); }
    }
  }
}
