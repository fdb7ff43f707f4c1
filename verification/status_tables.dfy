/** The three layer status tables, each built by `addInverseMap` from a literal
    code-to-name dictionary. The codes follow section 2.2.9 of the Zigbee
    Specification (APS sub-layer), section 3.7 of the Zigbee Specification (NWK
    layer) and the MAC status list of NXP's Zigbee PRO Stack User Guide JN-UG-3048. */
module StatusTables {
  import opened Js
  import opened Decimal
  import opened InverseMap

  /** APS sub-layer status codes, in the order `Object.entries` lists them. */
  const ApsStatusEntries: seq<Entry> := [
    (0x00, "SUCCESS"),
    (0xa0, "ASDU_TOO_LONG"),
    (0xa1, "DEFRAG_DEFERRED"),
    (0xa2, "DEFRAG_UNSUPPORTED"),
    (0xa3, "ILLEGAL_REQUEST"),
    (0xa4, "INVALID_BINDING"),
    (0xa5, "INVALID_GROUP"),
    (0xa6, "INVALID_PARAMETER"),
    (0xa7, "NO_ACK"),
    (0xa8, "NO_BOUND_DEVICE"),
    (0xa9, "NO_SHORT_ADDRESS"),
    (0xaa, "NOT_SUPPORTED"),
    (0xab, "SECURED_LINK_KEY"),
    (0xac, "SECURED_NWK_KEY"),
    (0xad, "SECURITY_FAIL"),
    (0xae, "TABLE_FULL"),
    (0xaf, "UNSECURED"),
    (0xb0, "UNSUPPORTED_ATTRIBUTE")
  ]

  /** NWK layer status codes. */
  const NwkStatusEntries: seq<Entry> := [
    (0x00, "SUCCESS"),
    (0xc1, "INVALID_PARAMETER"),
    (0xc2, "INVALID_REQUEST"),
    (0xc3, "NOT_PERMITTED"),
    (0xc4, "STARTUP_FAILURE"),
    (0xc5, "ALREADY_PRESENT"),
    (0xc6, "SYNC_FAILURE"),
    (0xc7, "NEIGHBOR_TABLE_FULL"),
    (0xc8, "UNKNOWN_DEVICE"),
    (0xc9, "UNSUPPORTED_ATTRIBUTE"),
    (0xca, "NO_NETWORKS"),
    (0xcb, "RESERVED1"),
    (0xcc, "MAX_FRM_COUNTER"),
    (0xcd, "NO_KEY"),
    (0xce, "BAD_CCM_OUTPUT"),
    (0xcf, "RESERVED2"),
    (0xd0, "ROUTE_DISCOVERY_FAILED"),
    (0xd1, "ROUTE_ERROR"),
    (0xd2, "BT_TABLE_FULL"),
    (0xd3, "FRAME_NOT_BUFFERED")
  ]

  /** MAC status codes. */
  const MacStatusEntries: seq<Entry> := [
    (0x00, "MAC_SUCCESS"),
    (0xe0, "MAC_BEACON_LOSS"),
    (0xe1, "MAC_CHANNEL_ACCESS_FAILURE"),
    (0xe2, "MAC_DENIED"),
    (0xe3, "MAC_DISABLE_TRX_FAILURE"),
    (0xe4, "MAC_FAILED_SECURITY_CHECK"),
    (0xe5, "MAC_FRAME_TOO_LONG"),
    (0xe6, "MAC_INVALID_GTS"),
    (0xe7, "MAC_INVALID_HANDLE"),
    (0xe8, "MAC_INVALID_PARAMETER"),
    (0xe9, "MAC_NO_ACK"),
    (0xea, "MAC_NO_BEACON"),
    (0xeb, "MAC_NO_DATA"),
    (0xec, "MAC_NO_SHORT_ADDRESS"),
    (0xed, "MAC_OUT_OF_CAP"),
    (0xee, "MAC_PAN_ID_CONFLICT"),
    (0xef, "MAC_REALIGNMENT"),
    (0xf0, "MAC_TRANSACTION_EXPIRED"),
    (0xf1, "MAC_TRANSACTION_OVERFLOW"),
    (0xf2, "MAC_TX_ACTIVE"),
    (0xf3, "MAC_UNAVAILABLE_KEY"),
    (0xf4, "MAC_UNSUPPORTED_ATTRIBUTE")
  ]

  /** APS_STATUS: every literal pair stored both ways, two keys per pair. */
  function ApsStatus(): (r: map<string, Value>)
    ensures AllStored(r, ApsStatusEntries)
    ensures |r| == 36
  {
    ApsWellFormed();
    AddInverseMap(ApsStatusEntries)
  }

  /** NWK_STATUS: every literal pair stored both ways, two keys per pair. */
  function NwkStatus(): (r: map<string, Value>)
    ensures AllStored(r, NwkStatusEntries)
    ensures |r| == 40
  {
    NwkWellFormed();
    AddInverseMap(NwkStatusEntries)
  }

  /** MAC_STATUS: every literal pair stored both ways, two keys per pair. */
  function MacStatus(): (r: map<string, Value>)
    ensures AllStored(r, MacStatusEntries)
    ensures |r| == 44
  {
    MacWellFormed();
    AddInverseMap(MacStatusEntries)
  }

  /** The literal checks of each table, one obligation per lemma: codes ascending,
      names not starting with a digit, names pairwise distinct. */
  lemma ApsAscending()
    ensures Ascending(ApsStatusEntries)
  {
  }

  lemma ApsNamesStartWithNonDigit()
    ensures NamesStartWithNonDigit(ApsStatusEntries)
  {
  }

  lemma ApsNamesDistinct()
    ensures NamesDistinct(ApsStatusEntries)
  {
    assert forall i, j | 0 <= i < j < |ApsStatusEntries| ::
      |ApsStatusEntries[i].1| != |ApsStatusEntries[j].1| || ApsStatusEntries[i].1 != ApsStatusEntries[j].1;
  }

  lemma ApsWellFormed()
    ensures WellFormed(ApsStatusEntries)
  {
    ApsAscending();
    ApsNamesStartWithNonDigit();
    ApsNamesDistinct();
    WellFormedFromLiteralChecks(ApsStatusEntries);
  }

  lemma NwkAscending()
    ensures Ascending(NwkStatusEntries)
  {
  }

  lemma NwkNamesStartWithNonDigit()
    ensures NamesStartWithNonDigit(NwkStatusEntries)
  {
  }

  lemma NwkNamesDistinct()
    ensures NamesDistinct(NwkStatusEntries)
  {
    assert forall i, j | 0 <= i < j < |NwkStatusEntries| ::
      |NwkStatusEntries[i].1| != |NwkStatusEntries[j].1| || NwkStatusEntries[i].1 != NwkStatusEntries[j].1;
  }

  lemma NwkWellFormed()
    ensures WellFormed(NwkStatusEntries)
  {
    NwkAscending();
    NwkNamesStartWithNonDigit();
    NwkNamesDistinct();
    WellFormedFromLiteralChecks(NwkStatusEntries);
  }

  lemma MacAscending()
    ensures Ascending(MacStatusEntries)
  {
  }

  lemma MacNamesStartWithNonDigit()
    ensures NamesStartWithNonDigit(MacStatusEntries)
  {
  }

  lemma MacNamesDistinct()
    ensures NamesDistinct(MacStatusEntries)
  {
    assert forall i, j | 0 <= i < j < |MacStatusEntries| ::
      |MacStatusEntries[i].1| != |MacStatusEntries[j].1| || MacStatusEntries[i].1 != MacStatusEntries[j].1;
  }

  lemma MacWellFormed()
    ensures WellFormed(MacStatusEntries)
  {
    MacAscending();
    MacNamesStartWithNonDigit();
    MacNamesDistinct();
    WellFormedFromLiteralChecks(MacStatusEntries);
  }

  /** Each table answers exactly its source pairs, in both directions, and holds
      two keys per pair. */
  lemma StatusTablesExact(code: nat, name: string)
    ensures NameOf(ApsStatus(), code) == Some(name) <==> (code, name) in ApsStatusEntries
    ensures CodeOf(ApsStatus(), name) == Some(code) <==> (code, name) in ApsStatusEntries
    ensures NameOf(NwkStatus(), code) == Some(name) <==> (code, name) in NwkStatusEntries
    ensures CodeOf(NwkStatus(), name) == Some(code) <==> (code, name) in NwkStatusEntries
    ensures NameOf(MacStatus(), code) == Some(name) <==> (code, name) in MacStatusEntries
    ensures CodeOf(MacStatus(), name) == Some(code) <==> (code, name) in MacStatusEntries
    ensures |ApsStatus()| == 36 && |NwkStatus()| == 40 && |MacStatus()| == 44
  {
    ApsWellFormed();
    NwkWellFormed();
    MacWellFormed();
    Lookups(ApsStatusEntries, code, name);
    Lookups(NwkStatusEntries, code, name);
    Lookups(MacStatusEntries, code, name);
  }

  /** The property keys of the codes the examples use. */
  lemma ExampleKeys()
    ensures Dec(0xa0) == "160" && Dec(0) == "0" && Dec(0xf4) == "244"
  {
  }

  /** Concrete lookups: property keys are decimal strings, so code 0xa0 is found
      under "160", and names map back to numbers. */
  lemma ApsStatusExample()
    ensures "160" in ApsStatus() && ApsStatus()["160"] == Str("ASDU_TOO_LONG")
    ensures "ASDU_TOO_LONG" in ApsStatus() && ApsStatus()["ASDU_TOO_LONG"] == Num(160)
  {
    ExampleKeys();
    assert ApsStatusEntries[1] == (0xa0, "ASDU_TOO_LONG");
    assert Stored(ApsStatus(), ApsStatusEntries[1]);
  }

  lemma NwkStatusExample()
    ensures "0" in NwkStatus() && NwkStatus()["0"] == Str("SUCCESS")
    ensures "SUCCESS" in NwkStatus() && NwkStatus()["SUCCESS"] == Num(0)
  {
    ExampleKeys();
    assert NwkStatusEntries[0] == (0, "SUCCESS");
    assert Stored(NwkStatus(), NwkStatusEntries[0]);
  }

  lemma MacStatusExample()
    ensures "MAC_UNSUPPORTED_ATTRIBUTE" in MacStatus() && MacStatus()["MAC_UNSUPPORTED_ATTRIBUTE"] == Num(0xf4)
    ensures "244" in MacStatus() && MacStatus()["244"] == Str("MAC_UNSUPPORTED_ATTRIBUTE")
  {
    ExampleKeys();
    assert MacStatusEntries[21] == (0xf4, "MAC_UNSUPPORTED_ATTRIBUTE");
    assert Stored(MacStatus(), MacStatusEntries[21]);
  }
}
