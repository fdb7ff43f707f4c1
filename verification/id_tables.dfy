/** The two identifier tables built with `addHexValues`: CLUSTER_ID, whose numbers
    come from the Zigbee Cluster Library identifier database (`zclId.cluster`), and
    PROFILE_ID, two of whose numbers come from the same database
    (`zclId.profile`). The database is another package, so its lookups are
    parameters: nothing here invents their numbers. */
module IdTables {
  import opened Js
  import opened HexValues

  /** `zclId.cluster(name).value` and `zclId.profile(name).value`. */
  type ZclLookup = string -> nat

  /** Each CLUSTER_ID key with the cluster name it is looked up by. */
  const ClusterNames: seq<(string, string)> := [
    ("CLOSURESSHADECFG", "closuresShadeCfg"),
    ("CLOSURESWINDOWCOVERING", "closuresWindowCovering"),
    ("DOORLOCK", "closuresDoorLock"),
    ("GENBASIC", "genBasic"),
    ("GENBINARYINPUT", "genBinaryInput"),
    ("GENDEVICETEMPCFG", "genDeviceTempCfg"),
    ("GENLEVELCTRL", "genLevelCtrl"),
    ("GENONOFF", "genOnOff"),
    ("GENOTA", "genOta"),
    ("GENPOLLCTRL", "genPollCtrl"),
    ("GENPOWERCFG", "genPowerCfg"),
    ("GENGROUPS", "genGroups"),
    ("GENSCENES", "genScenes"),
    ("GENMULTISTATEINPUT", "genMultistateInput"),
    ("GENANALOGINPUT", "genAnalogInput"),
    ("HAELECTRICAL", "haElectricalMeasurement"),
    ("HVACTHERMOSTAT", "hvacThermostat"),
    ("HVACFANCTRL", "hvacFanCtrl"),
    ("HVACUSERINTERFACECFG", "hvacUserInterfaceCfg"),
    ("ILLUMINANCE_MEASUREMENT", "msIlluminanceMeasurement"),
    ("LIGHTINGCOLORCTRL", "lightingColorCtrl"),
    ("LIGHTLINK", "lightLink"),
    ("OCCUPANCY_SENSOR", "msOccupancySensing"),
    ("PRESSURE", "msPressureMeasurement"),
    ("RELATIVE_HUMIDITY", "msRelativeHumidity"),
    ("SEMETERING", "seMetering"),
    ("SSIASZONE", "ssIasZone"),
    ("TEMPERATURE", "msTemperatureMeasurement")
  ]

  /** The dictionary literal handed to `addHexValues` for CLUSTER_ID. */
  function ClusterFields(cluster: ZclLookup): (dict: seq<Field>)
    ensures |dict| == |ClusterNames|
    ensures forall i | 0 <= i < |dict| :: dict[i] == (ClusterNames[i].0, cluster(ClusterNames[i].1))
  {
    seq(|ClusterNames|, i requires 0 <= i < |ClusterNames| => (ClusterNames[i].0, cluster(ClusterNames[i].1)))
  }

  /** CLUSTER_ID: each key holds the database's number for its cluster, and its
      `_HEX` companion the rendering; two keys per cluster. */
  function ClusterId(cluster: ZclLookup, hexStr: HexStr): (r: map<string, Value>)
    ensures AllAnnotated(r, ClusterFields(cluster), hexStr)
    ensures |r| == 2 * |ClusterNames|
  {
    ClusterFieldsWellFormed(cluster);
    AddHexValues(ClusterFields(cluster), hexStr)
  }

  /** The literal handed to `addHexValues` for PROFILE_ID. */
  function ProfileFields(profile: ZclLookup): seq<Field>
  {
    [("ZDO", 0), ("ZHA", profile("HA")), ("ZLL", profile("LL")), ("GREEN", 0xa1e0)]
  }

  /** PROFILE_ID: each key holds its profile number and its `_HEX` companion the
      rendering; eight keys. */
  function ProfileId(profile: ZclLookup, hexStr: HexStr): (r: map<string, Value>)
    ensures AllAnnotated(r, ProfileFields(profile), hexStr)
    ensures |r| == 8
  {
    ProfileFieldsWellFormed(profile);
    AddHexValues(ProfileFields(profile), hexStr)
  }

  lemma ClusterKeysDistinct()
    ensures forall i, j | 0 <= i < j < |ClusterNames| :: ClusterNames[i].0 != ClusterNames[j].0
  {
    assert forall i, j | 0 <= i < j < |ClusterNames| ::
      |ClusterNames[i].0| != |ClusterNames[j].0| || ClusterNames[i].0 != ClusterNames[j].0;
  }

  lemma ClusterKeysPlain()
    ensures forall i | 0 <= i < |ClusterNames| :: !EndsWithHex(ClusterNames[i].0)
  {
  }

  lemma ClusterFieldsWellFormed(cluster: ZclLookup)
    ensures WellFormed(ClusterFields(cluster))
  {
    ClusterKeysDistinct();
    ClusterKeysPlain();
    WellFormedFromLiteralChecks(ClusterFields(cluster));
  }

  /** CLUSTER_ID holds every cluster's number under its key and the hex rendering
      under the companion key, whatever numbers the database supplies. */
  lemma ClusterIdShape(cluster: ZclLookup, hexStr: HexStr)
    ensures |ClusterId(cluster, hexStr)| == 2 * |ClusterNames|
    ensures forall i | 0 <= i < |ClusterNames| ::
      var m := ClusterId(cluster, hexStr);
      var key := ClusterNames[i].0;
      && key in m && m[key] == Num(cluster(ClusterNames[i].1))
      && HexKey(key) in m && m[HexKey(key)] == Str(hexStr(cluster(ClusterNames[i].1), HexWidth))
  {
    var dict := ClusterFields(cluster);
    ClusterKeysDistinct();
    ClusterKeysPlain();
    WellFormedFromLiteralChecks(dict);
    forall i | 0 <= i < |ClusterNames|
      ensures ClusterNames[i].0 in ClusterId(cluster, hexStr)
      ensures HexKey(ClusterNames[i].0) in ClusterId(cluster, hexStr)
    {
      assert dict[i].0 == ClusterNames[i].0;
      assert Annotates(ClusterId(cluster, hexStr), dict[i], hexStr);
    }
  }

  /** One known row of CLUSTER_ID, with its key and database name spelled out. */
  lemma ClusterIdAt(cluster: ZclLookup, hexStr: HexStr, i: nat, key: string, zclName: string)
    requires i < |ClusterNames| && ClusterNames[i] == (key, zclName)
    ensures Get(ClusterId(cluster, hexStr), key) == Some(Num(cluster(zclName)))
  {
    var dict := ClusterFields(cluster);
    ClusterKeysDistinct();
    ClusterKeysPlain();
    WellFormedFromLiteralChecks(dict);
    AnnotatedAt(dict, hexStr, i, key, cluster(zclName));
  }

  lemma ProfileFieldsWellFormed(profile: ZclLookup)
    ensures WellFormed(ProfileFields(profile))
  {
    var dict := ProfileFields(profile);
    assert dict[0].0 == "ZDO" && dict[1].0 == "ZHA" && dict[2].0 == "ZLL" && dict[3].0 == "GREEN";
    WellFormedFromLiteralChecks(dict);
  }

  lemma ProfilePlainKeys(profile: ZclLookup)
    ensures PlainKeys(ProfileFields(profile)) == {"ZDO", "ZHA", "ZLL", "GREEN"}
  {
    var dict := ProfileFields(profile);
    assert dict[0].0 == "ZDO" && dict[1].0 == "ZHA" && dict[2].0 == "ZLL" && dict[3].0 == "GREEN";
  }

  /** The companion keys of a four-entry dictionary, one per entry. */
  lemma HexKeysOfFour(dict: seq<Field>)
    requires |dict| == 4
    ensures HexKeys(dict) == {HexKey(dict[0].0), HexKey(dict[1].0), HexKey(dict[2].0), HexKey(dict[3].0)}
  {
    assert HexKey(dict[0].0) in HexKeys(dict) && HexKey(dict[1].0) in HexKeys(dict);
    assert HexKey(dict[2].0) in HexKeys(dict) && HexKey(dict[3].0) in HexKeys(dict);
  }

  lemma ProfileHexKeys(profile: ZclLookup)
    ensures HexKeys(ProfileFields(profile)) == {"ZDO_HEX", "ZHA_HEX", "ZLL_HEX", "GREEN_HEX"}
  {
    var dict := ProfileFields(profile);
    HexKeysOfFour(dict);
    assert dict[0].0 == "ZDO" && dict[1].0 == "ZHA" && dict[2].0 == "ZLL" && dict[3].0 == "GREEN";
    ProfileHexKeyNames();
  }

  lemma ProfileHexKeyNames()
    ensures HexKey("ZDO") == "ZDO_HEX" && HexKey("ZHA") == "ZHA_HEX"
    ensures HexKey("ZLL") == "ZLL_HEX" && HexKey("GREEN") == "GREEN_HEX"
  {
  }

  lemma ProfileIdKeys(profile: ZclLookup, hexStr: HexStr)
    ensures ProfileId(profile, hexStr).Keys ==
      {"ZDO", "ZHA", "ZLL", "GREEN", "ZDO_HEX", "ZHA_HEX", "ZLL_HEX", "GREEN_HEX"}
  {
    ProfilePlainKeys(profile);
    ProfileHexKeys(profile);
  }

  /** PROFILE_ID: exactly the four profiles and their companions; GREEN is the
      literal 0xa1e0, ZDO is 0, and the other two come from the database. */
  lemma ProfileIdShape(profile: ZclLookup, hexStr: HexStr)
    ensures ProfileId(profile, hexStr).Keys ==
      {"ZDO", "ZHA", "ZLL", "GREEN", "ZDO_HEX", "ZHA_HEX", "ZLL_HEX", "GREEN_HEX"}
    ensures ProfileId(profile, hexStr)["GREEN"] == Num(0xa1e0)
    ensures ProfileId(profile, hexStr)["GREEN_HEX"] == Str(hexStr(0xa1e0, 4))
    ensures ProfileId(profile, hexStr)["ZDO"] == Num(0)
    ensures ProfileId(profile, hexStr)["ZHA"] == Num(profile("HA"))
    ensures ProfileId(profile, hexStr)["ZLL"] == Num(profile("LL"))
  {
    ProfileIdKeys(profile, hexStr);
    ProfileIdValues(profile, hexStr);
    ProfileHexKeyNames();
  }

  lemma ProfileIdValues(profile: ZclLookup, hexStr: HexStr)
    ensures Annotates(ProfileId(profile, hexStr), ("ZDO", 0), hexStr)
    ensures Annotates(ProfileId(profile, hexStr), ("ZHA", profile("HA")), hexStr)
    ensures Annotates(ProfileId(profile, hexStr), ("ZLL", profile("LL")), hexStr)
    ensures Annotates(ProfileId(profile, hexStr), ("GREEN", 0xa1e0), hexStr)
  {
    var dict := ProfileFields(profile);
    ProfileFieldsWellFormed(profile);
    AnnotatedAt(dict, hexStr, 0, "ZDO", 0);
    AnnotatedAt(dict, hexStr, 1, "ZHA", profile("HA"));
    AnnotatedAt(dict, hexStr, 2, "ZLL", profile("LL"));
    AnnotatedAt(dict, hexStr, 3, "GREEN", 0xa1e0);
  }
}
