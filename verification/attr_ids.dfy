/** ATTR_ID and `makeAttrIds`: for a cluster, look every attribute name up in the
    Zigbee Cluster Library identifier database and register the upper-cased names
    with their numbers under the cluster's key. The global registry becomes an
    explicit value passed from call to call; the database lookup `zclId.attr` is a
    parameter. A lookup that finds nothing makes the source read `.value` of
    `undefined` and throw before the registry is touched; here that is a `Failure`. */
module AttrIds {
  import opened Js
  import opened HexValues
  import opened IdTables

  /** ATTR_ID: cluster key to (upper-cased attribute name to attribute number). */
  type Registry = map<string, map<string, nat>>

  /** `zclId.attr(clusterId, attrName).value`, or `None` when the database does not
      know the pair. The cluster id is whatever CLUSTER_ID holds under the key,
      `None` for `undefined`. */
  type AttrLookup = (Option<Value>, string) -> Option<nat>

  datatype LoadError = UnknownAttribute(cluster: string, attr: string)

  /** `String.prototype.toUpperCase` on one character, for the ASCII range. */
  function UpperChar(c: char): (u: char)
    ensures 'a' <= c <= 'z' ==> u as int == c as int - 32
    ensures !('a' <= c <= 'z') ==> u == c
    ensures !('a' <= u <= 'z')
  {
    if 'a' <= c <= 'z' then (c as int - 32) as char else c
  }

  /** `a` and `b` are the same character, or the small and the capital form of
      one ASCII letter. */
  predicate SameLetterIgnoringCase(a: char, b: char)
  {
    || a == b
    || ('a' <= a <= 'z' && b as int == a as int - 32)
    || ('a' <= b <= 'z' && a as int == b as int - 32)
  }

  /** Two strings that differ at most in the case of ASCII letters. */
  predicate SameIgnoringAsciiCase(s: string, t: string)
  {
    |s| == |t| && forall i | 0 <= i < |s| :: SameLetterIgnoringCase(s[i], t[i])
  }

  /** `attrName.toUpperCase()`: the same string up to letter case, with no small
      letter left. */
  function ToUpperCase(s: string): (r: string)
    ensures SameIgnoringAsciiCase(s, r)
    ensures forall i | 0 <= i < |r| :: !('a' <= r[i] <= 'z')
    ensures forall i | 0 <= i < |s| && !('a' <= s[i] <= 'z') :: r[i] == s[i]
  {
    seq(|s|, i requires 0 <= i < |s| => UpperChar(s[i]))
  }

  /** Upper-casing twice changes nothing more. */
  lemma ToUpperCaseIdempotent(s: string)
    ensures ToUpperCase(ToUpperCase(s)) == ToUpperCase(s)
  {
  }

  lemma UpperCharEqual(a: char, b: char)
    ensures UpperChar(a) == UpperChar(b) <==> SameLetterIgnoringCase(a, b)
  {
  }

  /** Two names get the same upper-cased key exactly when they differ only in the
      case of letters. */
  lemma UpperCaseEqual(s: string, t: string)
    ensures ToUpperCase(s) == ToUpperCase(t) <==> SameIgnoringAsciiCase(s, t)
  {
    var us, ut := ToUpperCase(s), ToUpperCase(t);
    if us == ut {
      forall i | 0 <= i < |s| ensures SameLetterIgnoringCase(s[i], t[i]) {
        assert us[i] == UpperChar(s[i]) && ut[i] == UpperChar(t[i]);
        UpperCharEqual(s[i], t[i]);
      }
    }
    if SameIgnoringAsciiCase(s, t) {
      forall i | 0 <= i < |s| ensures us[i] == ut[i] {
        assert us[i] == UpperChar(s[i]) && ut[i] == UpperChar(t[i]);
        UpperCharEqual(s[i], t[i]);
      }
    }
  }

  function UpperNames(names: seq<string>): set<string>
  {
    set i | 0 <= i < |names| :: ToUpperCase(names[i])
  }

  /** Every name of the list is known to the database for this cluster id. */
  predicate Resolves(clusterId: Option<Value>, attr: AttrLookup, names: seq<string>)
  {
    forall i | 0 <= i < |names| :: attr(clusterId, names[i]).Some?
  }

  /** The loop of `makeAttrIds` over `names`: the dictionary it fills, or the
      first name whose lookup throws. */
  function AttrDict(clusterName: string, clusterId: Option<Value>, attr: AttrLookup, names: seq<string>)
    : (r: Result<map<string, nat>, LoadError>)
    ensures r.Success? <==> Resolves(clusterId, attr, names)
    ensures r.Success? ==> r.value.Keys == UpperNames(names)
    ensures r.Failure? ==> exists i | 0 <= i < |names| ::
      && r.error == UnknownAttribute(clusterName, names[i])
      && attr(clusterId, names[i]).None?
      && Resolves(clusterId, attr, names[..i])
  {
    if |names| == 0 then Success(map[])
    else
      var n := |names| - 1;
      var last := names[n];
      match AttrDict(clusterName, clusterId, attr, names[..n])
      case Failure(e) =>
        assert forall i | 0 <= i < n :: names[..i] == names[..n][..i];
        Failure(e)
      case Success(d) =>
        assert UpperNames(names) == UpperNames(names[..n]) + {ToUpperCase(last)};
        match attr(clusterId, last)
        case None =>
          Failure(UnknownAttribute(clusterName, last))
        case Some(v) => Success(d[ToUpperCase(last) := v])
  }

  /** `makeAttrIds(clusterName, names)` applied to the registry `registry`. */
  function MakeAttrIds(registry: Registry, clusterTable: map<string, Value>, attr: AttrLookup,
                       clusterName: string, names: seq<string>): (r: Result<Registry, LoadError>)
    ensures r.Success? <==> Resolves(Get(clusterTable, clusterName), attr, names)
    ensures r.Success? ==> r.value.Keys == registry.Keys + {clusterName}
    ensures r.Success? ==> r.value[clusterName].Keys == UpperNames(names)
    ensures r.Success? ==> r.value[clusterName] == AttrDict(clusterName, Get(clusterTable, clusterName), attr, names).value
    ensures r.Success? ==> forall c | c in registry && c != clusterName :: r.value[c] == registry[c]
    ensures r.Failure? ==> r.error.cluster == clusterName
  {
    match AttrDict(clusterName, Get(clusterTable, clusterName), attr, names)
    case Failure(e) => Failure(e)
    case Success(d) => Success(registry[clusterName := d])
  }

  /** No two names of the list upper-case to the same key. */
  predicate UpperDistinct(names: seq<string>)
  {
    forall i, j | 0 <= i < j < |names| :: ToUpperCase(names[i]) != ToUpperCase(names[j])
  }

  /** No upper-case collision means no two names differ only in letter case. */
  lemma UpperDistinctIff(names: seq<string>)
    ensures UpperDistinct(names) <==>
      forall i, j | 0 <= i < j < |names| :: !SameIgnoringAsciiCase(names[i], names[j])
  {
    forall i, j | 0 <= i < j < |names|
      ensures ToUpperCase(names[i]) == ToUpperCase(names[j]) <==> SameIgnoringAsciiCase(names[i], names[j])
    {
      UpperCaseEqual(names[i], names[j]);
    }
  }

  /** When no two names collide after upper-casing, each key holds the number the
      database gives for its own name. */
  lemma AttrDictValues(clusterName: string, clusterId: Option<Value>, attr: AttrLookup, names: seq<string>)
    requires UpperDistinct(names)
    requires Resolves(clusterId, attr, names)
    ensures forall i | 0 <= i < |names| ::
      AttrDict(clusterName, clusterId, attr, names).value[ToUpperCase(names[i])]
        == attr(clusterId, names[i]).value
  {
    forall i | 0 <= i < |names|
      ensures AttrDict(clusterName, clusterId, attr, names).value[ToUpperCase(names[i])]
        == attr(clusterId, names[i]).value
    {
      AttrDictLastWins(clusterName, clusterId, attr, names, i);
    }
  }

  /** Later names win: the key of name `j` holds that name's number unless a later
      name upper-cases to the same key, as the loop's plain assignment does. */
  lemma {:induction false} AttrDictLastWins(clusterName: string, clusterId: Option<Value>, attr: AttrLookup,
                                            names: seq<string>, j: nat)
    requires Resolves(clusterId, attr, names)
    requires j < |names|
    requires forall k | j < k < |names| :: ToUpperCase(names[k]) != ToUpperCase(names[j])
    ensures ToUpperCase(names[j]) in AttrDict(clusterName, clusterId, attr, names).value
    ensures AttrDict(clusterName, clusterId, attr, names).value[ToUpperCase(names[j])]
      == attr(clusterId, names[j]).value
    decreases |names|
  {
    var n := |names| - 1;
    AttrDictSnoc(clusterName, clusterId, attr, names);
    if j < n {
      var init := names[..n];
      assert init[j] == names[j];
      assert forall k | j < k < n :: init[k] == names[k];
      AttrDictLastWins(clusterName, clusterId, attr, init, j);
      assert ToUpperCase(names[n]) != ToUpperCase(names[j]);
    }
  }

  /** A resolved list's dictionary is its prefix's plus the last name's entry. */
  lemma AttrDictSnoc(clusterName: string, clusterId: Option<Value>, attr: AttrLookup, names: seq<string>)
    requires |names| > 0
    requires Resolves(clusterId, attr, names)
    ensures var n := |names| - 1;
      && AttrDict(clusterName, clusterId, attr, names[..n]).Success?
      && AttrDict(clusterName, clusterId, attr, names)
        == Success(AttrDict(clusterName, clusterId, attr, names[..n]).value[ToUpperCase(names[n]) := attr(clusterId, names[n]).value])
  {
    var n := |names| - 1;
    assert Resolves(clusterId, attr, names[..n]) by {
      forall a | 0 <= a < n ensures attr(clusterId, names[..n][a]).Some? {
        assert names[..n][a] == names[a];
      }
    }
  }

  /** One `makeAttrIds` call of the module body. */
  datatype Call = Call(clusterName: string, attrNames: seq<string>)

  /** The four calls the module makes at load time, in order. */
  const AttrCalls: seq<Call> := [
    Call("GENBASIC", ["zclVersion", "appVersion", "modelId", "powerSource"]),
    Call("GENPOLLCTRL", ["checkinInterval", "longPollInterval", "shortPollInterval",
                         "fastPollTimeout", "checkinIntervalMin", "longPollIntervalMin",
                         "fastPollTimeoutMax"]),
    Call("LIGHTINGCOLORCTRL", ["currentHue", "currentSaturation", "currentX", "currentY",
                               "colorMode", "colorCapabilities"]),
    Call("SSIASZONE", ["zoneState", "zoneType", "zoneStatus", "iasCieAddr", "zoneId"])
  ]

  function CallClusters(calls: seq<Call>): set<string>
  {
    set k | 0 <= k < |calls| :: calls[k].clusterName
  }

  /** Every call's names are known to the database for that call's cluster. */
  predicate AllResolve(clusterTable: map<string, Value>, attr: AttrLookup, calls: seq<Call>)
  {
    forall k | 0 <= k < |calls| :: Resolves(Get(clusterTable, calls[k].clusterName), attr, calls[k].attrNames)
  }

  /** The calls run in order; the first that throws ends module loading. */
  function RunCalls(registry: Registry, clusterTable: map<string, Value>, attr: AttrLookup, calls: seq<Call>)
    : (r: Result<Registry, LoadError>)
    ensures r.Success? <==> AllResolve(clusterTable, attr, calls)
    ensures r.Success? ==> r.value.Keys == registry.Keys + CallClusters(calls)
    ensures r.Success? ==> forall c | c in registry && c !in CallClusters(calls) :: r.value[c] == registry[c]
    ensures r.Success? ==> forall k | 0 <= k < |calls| && calls[k].clusterName !in CallClusters(calls[k + 1..]) ::
      r.value[calls[k].clusterName] == AttrDict(calls[k].clusterName, Get(clusterTable, calls[k].clusterName), attr, calls[k].attrNames).value
    decreases |calls|
  {
    if |calls| == 0 then Success(registry)
    else
      var call := calls[0];
      CallsCons(clusterTable, attr, calls);
      match MakeAttrIds(registry, clusterTable, attr, call.clusterName, call.attrNames)
      case Failure(e) => Failure(e)
      case Success(next) => RunCalls(next, clusterTable, attr, calls[1..])
  }

  /** The first call and the rest, as RunCalls takes them apart. */
  lemma CallsCons(clusterTable: map<string, Value>, attr: AttrLookup, calls: seq<Call>)
    requires |calls| > 0
    ensures CallClusters(calls) == {calls[0].clusterName} + CallClusters(calls[1..])
    ensures AllResolve(clusterTable, attr, calls) <==>
      Resolves(Get(clusterTable, calls[0].clusterName), attr, calls[0].attrNames)
      && AllResolve(clusterTable, attr, calls[1..])
    ensures forall k | 1 <= k < |calls| :: calls[k + 1..] == calls[1..][k - 1 + 1..] && calls[k] == calls[1..][k - 1]
  {
    assert forall k | 1 <= k < |calls| :: calls[k] == calls[1..][k - 1];
    assert forall k | 0 <= k < |calls| - 1 :: calls[1..][k] == calls[k + 1];
  }

  /** ATTR_ID as the module leaves it, built on CLUSTER_ID. */
  function AttrId(cluster: ZclLookup, hexStr: HexStr, attr: AttrLookup): (r: Result<Registry, LoadError>)
    ensures r.Success? <==> AllResolve(ClusterId(cluster, hexStr), attr, AttrCalls)
    ensures r.Success? ==> r.value.Keys == {"GENBASIC", "GENPOLLCTRL", "LIGHTINGCOLORCTRL", "SSIASZONE"}
  {
    var table := ClusterId(cluster, hexStr);
    AttrCallsKeys(table, attr);
    RunCalls(map[], table, attr, AttrCalls)
  }

  /** The four calls, on any cluster table, register exactly their four keys. */
  lemma AttrCallsKeys(clusterTable: map<string, Value>, attr: AttrLookup)
    ensures var r := RunCalls(map[], clusterTable, attr, AttrCalls);
      r.Success? ==> r.value.Keys == {"GENBASIC", "GENPOLLCTRL", "LIGHTINGCOLORCTRL", "SSIASZONE"}
  {
    CallClusterNames();
  }

  /** The four cluster keys the calls use, with the numbers CLUSTER_ID holds. */
  lemma CallClusterIds(cluster: ZclLookup, hexStr: HexStr)
    ensures Get(ClusterId(cluster, hexStr), "GENBASIC") == Some(Num(cluster("genBasic")))
    ensures Get(ClusterId(cluster, hexStr), "GENPOLLCTRL") == Some(Num(cluster("genPollCtrl")))
    ensures Get(ClusterId(cluster, hexStr), "LIGHTINGCOLORCTRL") == Some(Num(cluster("lightingColorCtrl")))
    ensures Get(ClusterId(cluster, hexStr), "SSIASZONE") == Some(Num(cluster("ssIasZone")))
  {
    CallClusterRows();
    ClusterIdAt(cluster, hexStr, 3, "GENBASIC", "genBasic");
    ClusterIdAt(cluster, hexStr, 9, "GENPOLLCTRL", "genPollCtrl");
    ClusterIdAt(cluster, hexStr, 20, "LIGHTINGCOLORCTRL", "lightingColorCtrl");
    ClusterIdAt(cluster, hexStr, 26, "SSIASZONE", "ssIasZone");
  }

  /** Where the four cluster keys sit in the CLUSTER_ID literal. */
  lemma CallClusterRows()
    ensures ClusterNames[3] == ("GENBASIC", "genBasic")
    ensures ClusterNames[9] == ("GENPOLLCTRL", "genPollCtrl")
    ensures ClusterNames[20] == ("LIGHTINGCOLORCTRL", "lightingColorCtrl")
    ensures ClusterNames[26] == ("SSIASZONE", "ssIasZone")
  {
  }

  lemma CallClusterNamesAt()
    ensures AttrCalls[0].clusterName == "GENBASIC"
    ensures AttrCalls[1].clusterName == "GENPOLLCTRL"
    ensures AttrCalls[2].clusterName == "LIGHTINGCOLORCTRL"
    ensures AttrCalls[3].clusterName == "SSIASZONE"
  {
  }

  /** CLUSTER_ID holds a number under every cluster key the calls use. */
  lemma CallClusterKnown(cluster: ZclLookup, hexStr: HexStr, k: nat)
    requires k < |AttrCalls|
    ensures Get(ClusterId(cluster, hexStr), AttrCalls[k].clusterName).Some?
    ensures Get(ClusterId(cluster, hexStr), AttrCalls[k].clusterName).value.Num?
  {
    CallClusterIds(cluster, hexStr);
    CallClusterNamesAt();
    var table := ClusterId(cluster, hexStr);
    if k == 0 {
      assert Get(table, AttrCalls[k].clusterName) == Some(Num(cluster("genBasic")));
    } else if k == 1 {
      assert Get(table, AttrCalls[k].clusterName) == Some(Num(cluster("genPollCtrl")));
    } else if k == 2 {
      assert Get(table, AttrCalls[k].clusterName) == Some(Num(cluster("lightingColorCtrl")));
    } else {
      assert Get(table, AttrCalls[k].clusterName) == Some(Num(cluster("ssIasZone")));
    }
  }

  lemma CallClusterNames()
    ensures CallClusters(AttrCalls) == {"GENBASIC", "GENPOLLCTRL", "LIGHTINGCOLORCTRL", "SSIASZONE"}
    ensures AttrCalls[2].clusterName !in CallClusters(AttrCalls[3..])
  {
    CallClusterNamesAt();
    assert AttrCalls[3..] == [AttrCalls[3]];
  }

  const ColorCtrlAttrs: seq<string> :=
    ["currentHue", "currentSaturation", "currentX", "currentY", "colorMode", "colorCapabilities"]

  lemma ColorCtrlUpper()
    ensures ToUpperCase(ColorCtrlAttrs[0]) == "CURRENTHUE"
    ensures ToUpperCase(ColorCtrlAttrs[1]) == "CURRENTSATURATION"
    ensures ToUpperCase(ColorCtrlAttrs[2]) == "CURRENTX"
    ensures ToUpperCase(ColorCtrlAttrs[3]) == "CURRENTY"
    ensures ToUpperCase(ColorCtrlAttrs[4]) == "COLORMODE"
    ensures ToUpperCase(ColorCtrlAttrs[5]) == "COLORCAPABILITIES"
  {
    ColorCtrlUpperFirst();
    ColorCtrlUpperLast();
  }

  lemma ColorCtrlUpperFirst()
    ensures ToUpperCase("currentHue") == "CURRENTHUE"
    ensures ToUpperCase("currentSaturation") == "CURRENTSATURATION"
    ensures ToUpperCase("currentX") == "CURRENTX"
  {
  }

  lemma ColorCtrlUpperLast()
    ensures ToUpperCase("currentY") == "CURRENTY"
    ensures ToUpperCase("colorMode") == "COLORMODE"
    ensures ToUpperCase("colorCapabilities") == "COLORCAPABILITIES"
  {
  }

  lemma ColorCtrlNames()
    ensures AttrCalls[2] == Call("LIGHTINGCOLORCTRL", ColorCtrlAttrs)
    ensures UpperNames(ColorCtrlAttrs) ==
      {"CURRENTHUE", "CURRENTSATURATION", "CURRENTX", "CURRENTY", "COLORMODE", "COLORCAPABILITIES"}
    ensures UpperDistinct(ColorCtrlAttrs)
    ensures ColorCtrlAttrs[5] == "colorCapabilities"
    ensures ToUpperCase("colorCapabilities") == "COLORCAPABILITIES"
  {
    ColorCtrlUpper();
  }

  /** The colour-control entry holds the six upper-cased names, `colorCapabilities`
      becoming COLORCAPABILITIES. */
  lemma ColorCtrlLoaded(cluster: ZclLookup, hexStr: HexStr, attr: AttrLookup)
    requires AllResolve(ClusterId(cluster, hexStr), attr, AttrCalls)
    ensures AttrId(cluster, hexStr, attr).Success?
    ensures "LIGHTINGCOLORCTRL" in AttrId(cluster, hexStr, attr).value
    ensures AttrId(cluster, hexStr, attr).value["LIGHTINGCOLORCTRL"].Keys ==
      {"CURRENTHUE", "CURRENTSATURATION", "CURRENTX", "CURRENTY", "COLORMODE", "COLORCAPABILITIES"}
  {
    ColorCtrlCall(cluster, hexStr, attr);
    ColorCtrlNames();
  }

  /** The entry a call leaves in the registry when no later call names its cluster. */
  lemma RunCallsEntry(registry: Registry, clusterTable: map<string, Value>, attr: AttrLookup, calls: seq<Call>, k: nat)
    requires AllResolve(clusterTable, attr, calls)
    requires k < |calls| && calls[k].clusterName !in CallClusters(calls[k + 1..])
    ensures RunCalls(registry, clusterTable, attr, calls).Success?
    ensures calls[k].clusterName in RunCalls(registry, clusterTable, attr, calls).value
    ensures RunCalls(registry, clusterTable, attr, calls).value[calls[k].clusterName]
      == AttrDict(calls[k].clusterName, Get(clusterTable, calls[k].clusterName), attr, calls[k].attrNames).value
    ensures RunCalls(registry, clusterTable, attr, calls).value[calls[k].clusterName].Keys
      == UpperNames(calls[k].attrNames)
  {
    assert calls[k].clusterName in CallClusters(calls);
    assert Resolves(Get(clusterTable, calls[k].clusterName), attr, calls[k].attrNames);
  }

  /** Loading succeeds exactly when the database knows each call's names for the
      cluster number that CLUSTER_ID holds under the call's key. */
  lemma AllCallsResolve(cluster: ZclLookup, hexStr: HexStr, attr: AttrLookup)
    ensures AllResolve(ClusterId(cluster, hexStr), attr, AttrCalls) <==>
      && Resolves(Some(Num(cluster("genBasic"))), attr, AttrCalls[0].attrNames)
      && Resolves(Some(Num(cluster("genPollCtrl"))), attr, AttrCalls[1].attrNames)
      && Resolves(Some(Num(cluster("lightingColorCtrl"))), attr, AttrCalls[2].attrNames)
      && Resolves(Some(Num(cluster("ssIasZone"))), attr, AttrCalls[3].attrNames)
  {
    var table := ClusterId(cluster, hexStr);
    AllResolveOfFour(table, attr, AttrCalls);
    CallClusterIds(cluster, hexStr);
    CallClusterNamesAt();
  }

  /** A run of four calls resolves exactly when each of the four does. */
  lemma AllResolveOfFour(clusterTable: map<string, Value>, attr: AttrLookup, calls: seq<Call>)
    requires |calls| == 4
    ensures AllResolve(clusterTable, attr, calls) <==>
      && Resolves(Get(clusterTable, calls[0].clusterName), attr, calls[0].attrNames)
      && Resolves(Get(clusterTable, calls[1].clusterName), attr, calls[1].attrNames)
      && Resolves(Get(clusterTable, calls[2].clusterName), attr, calls[2].attrNames)
      && Resolves(Get(clusterTable, calls[3].clusterName), attr, calls[3].attrNames)
  {
  }

  /** The colour-control call as the module makes it, with its cluster id looked
      up in CLUSTER_ID. */
  lemma ColorCtrlCall(cluster: ZclLookup, hexStr: HexStr, attr: AttrLookup)
    requires AllResolve(ClusterId(cluster, hexStr), attr, AttrCalls)
    ensures Resolves(Some(Num(cluster("lightingColorCtrl"))), attr, ColorCtrlAttrs)
    ensures AttrId(cluster, hexStr, attr).Success?
    ensures "LIGHTINGCOLORCTRL" in AttrId(cluster, hexStr, attr).value
    ensures AttrId(cluster, hexStr, attr).value["LIGHTINGCOLORCTRL"] ==
      AttrDict("LIGHTINGCOLORCTRL", Some(Num(cluster("lightingColorCtrl"))), attr, ColorCtrlAttrs).value
  {
    var table := ClusterId(cluster, hexStr);
    CallClusterIds(cluster, hexStr);
    CallClusterNames();
    ColorCtrlNames();
    assert Resolves(Get(table, AttrCalls[2].clusterName), attr, AttrCalls[2].attrNames);
    RunCallsEntry(map[], table, attr, AttrCalls, 2);
  }

  /** The number registered for COLORCAPABILITIES is the one the database gives
      for `colorCapabilities` in the colour-control cluster. */
  lemma ColorCapabilitiesId(cluster: ZclLookup, hexStr: HexStr, attr: AttrLookup)
    requires AllResolve(ClusterId(cluster, hexStr), attr, AttrCalls)
    ensures attr(Some(Num(cluster("lightingColorCtrl"))), "colorCapabilities").Some?
    ensures AttrId(cluster, hexStr, attr).Success?
    ensures "LIGHTINGCOLORCTRL" in AttrId(cluster, hexStr, attr).value
    ensures "COLORCAPABILITIES" in AttrId(cluster, hexStr, attr).value["LIGHTINGCOLORCTRL"]
    ensures AttrId(cluster, hexStr, attr).value["LIGHTINGCOLORCTRL"]["COLORCAPABILITIES"] ==
      attr(Some(Num(cluster("lightingColorCtrl"))), "colorCapabilities").value
  {
    var id := Some(Num(cluster("lightingColorCtrl")));
    ColorCtrlCall(cluster, hexStr, attr);
    ColorCtrlNames();
    AttrDictValueAt("LIGHTINGCOLORCTRL", id, attr, ColorCtrlAttrs, 5, "colorCapabilities", "COLORCAPABILITIES");
  }

  /** One known name of a fully resolved, collision-free list. */
  lemma AttrDictValueAt(clusterName: string, clusterId: Option<Value>, attr: AttrLookup, names: seq<string>,
                        i: nat, name: string, key: string)
    requires UpperDistinct(names) && Resolves(clusterId, attr, names)
    requires i < |names| && names[i] == name && ToUpperCase(name) == key
    ensures attr(clusterId, name).Some?
    ensures AttrDict(clusterName, clusterId, attr, names).Success?
    ensures key in AttrDict(clusterName, clusterId, attr, names).value
    ensures AttrDict(clusterName, clusterId, attr, names).value[key] == attr(clusterId, name).value
  {
    AttrDictValues(clusterName, clusterId, attr, names);
    assert key in UpperNames(names);
  }
}
