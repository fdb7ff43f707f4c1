# Zigbee adapter constants, modelled in Dafny

The Zigbee adapter keeps its protocol constants in one TypeScript module,
`src/zb-constants.ts`. Most of that module is literal data, but some tables are
built at load time, and those builders are what this project models and proves
things about:

- `addInverseMap` turns a status-code-to-name dictionary into a two-way lookup.
  The APS, NWK and MAC status tables (`APS_STATUS`, `NWK_STATUS`, `MAC_STATUS`)
  are built with it.
- `addHexValues` stores each number a second time, under `<KEY>_HEX`, as the hex
  rendering of that number. `CLUSTER_ID` and `PROFILE_ID` are built with it.
- `makeAttrIds` fills the attribute registry `ATTR_ID` with upper-cased
  attribute names. The module makes four calls to it when it loads.
- `ZHA_DEVICE_ID` and `ZLL_DEVICE_ID` each define three predicates:
  `isLight`, `isColorLight` and `isColorTemperatureLight`.
- Two tables carry an invariant stated only in comments: `HVAC_FAN_SEQ`
  (relative to `HVAC_FAN_MODE`) and `COLOR_CAPABILITY`.

Modules:

| file | module | contents |
|---|---|---|
| `js.dfy` | `Js` | JavaScript values (`Num`, `Str`, `NaN`), `Option`, `Result`, and property lookup |
| `decimal.dfy` | `Decimal` | how a numeric key becomes its decimal property string, and `parseInt` on it |
| `inverse_map.dfy` | `InverseMap` | `addInverseMap` with its round trip, exact domain and size |
| `status_tables.dfy` | `StatusTables` | the three status tables, proved to meet the round-trip condition |
| `hex_values.dfy` | `HexValues` | `addHexValues` with its key and value shape and its size |
| `id_tables.dfy` | `IdTables` | `CLUSTER_ID` and `PROFILE_ID` |
| `attr_ids.dfy` | `AttrIds` | `makeAttrIds`, the four load-time calls, and `ATTR_ID` |
| `device_ids.dfy` | `DeviceIds` | the device-id tables and their predicates |
| `fan_modes.dfy` | `FanModes` | `split('/')` and the fan-mode tables |
| `color_capability.dfy` | `ColorCapability` | the colour-capability bit flags |

Each loop is modelled as a fold over a sequence of entries. Entries are processed
in order and a later write to a key replaces an earlier one, as the loop does.
Three calls go to code outside this module: `Utils.hexStr`, `zclId.cluster` /
`zclId.profile`, and `zclId.attr`. Each becomes a function parameter. Two things
are assumed about them: `zclId.cluster` and `zclId.profile` always find the name
and give a non-negative integer, and `zclId.attr` either finds the name and gives
a non-negative integer or finds nothing. Nothing is assumed about which numbers
they give or which names `zclId.attr` knows.

## Model

| member | source | states |
|---|---|---|
| Decimal.Dec | src/zb-constants.ts:29-30 | the property key of a numeric code is a non-empty string of decimal digits with no leading zero except for 0 itself |
| Decimal.ParseInt | src/zb-constants.ts:31 | `parseInt` yields a number exactly when the string starts with a decimal digit, and NaN otherwise |
| Decimal.ParseIntOfDec | src/zb-constants.ts:29-31 | `parseInt` of a code's property string gives the code back |
| Decimal.DecInjective | src/zb-constants.ts:29-31 | two codes have the same property string only if they are equal |
| InverseMap.AddInverseMap | src/zb-constants.ts:25-35 | the result's keys are exactly the codes' decimal strings plus the names. Assume codes are distinct, names are distinct, and no name equals a code's string. Then every entry has `obj[String(code)] == name` and `obj[name] == code`, and the result holds exactly two keys per entry |
| InverseMap.RoundTripAt | src/zb-constants.ts:30-31 | one known entry, with its decimal key spelled out, is stored in both directions |
| InverseMap.NameOfSound | src/zb-constants.ts:25-35 | a name found under a code's key comes from an entry of the input |
| InverseMap.CodeOfSound | src/zb-constants.ts:25-35 | a number found under a name comes from an entry of the input |
| InverseMap.Lookups | src/zb-constants.ts:25-35 | code-to-name and name-to-code lookups succeed exactly for the input's pairs, in both directions |
| InverseMap.WellFormedFromLiteralChecks | src/zb-constants.ts:39-112 | strictly ascending codes, distinct names and names whose first character is not a digit together imply the round-trip condition |
| StatusTables.ApsStatus | src/zb-constants.ts:39-58 | `APS_STATUS` stores every literal pair in both directions and has 36 keys, two per pair |
| StatusTables.NwkStatus | src/zb-constants.ts:62-83 | `NWK_STATUS` stores every literal pair in both directions and has 40 keys |
| StatusTables.MacStatus | src/zb-constants.ts:88-112 | `MAC_STATUS` stores every literal pair in both directions and has 44 keys |
| StatusTables.ApsWellFormed | src/zb-constants.ts:39-58 | the APS status literal meets the round-trip condition |
| StatusTables.NwkWellFormed | src/zb-constants.ts:62-83 | the NWK status literal meets the round-trip condition |
| StatusTables.MacWellFormed | src/zb-constants.ts:88-112 | the MAC status literal meets the round-trip condition |
| StatusTables.StatusTablesExact | src/zb-constants.ts:39-112 | each status table answers exactly its literal's pairs in both directions; the tables have 36, 40 and 44 keys |
| StatusTables.ApsStatusExample | src/zb-constants.ts:41 | `APS_STATUS["160"]` is `ASDU_TOO_LONG`, and `APS_STATUS.ASDU_TOO_LONG` is 160 |
| StatusTables.NwkStatusExample | src/zb-constants.ts:63 | `NWK_STATUS["0"]` is `SUCCESS`, and the reverse lookup gives 0 |
| StatusTables.MacStatusExample | src/zb-constants.ts:111 | `MAC_STATUS.MAC_UNSUPPORTED_ATTRIBUTE` is 0xf4, and `MAC_STATUS["244"]` is its name |
| HexValues.HexKey | src/zb-constants.ts:19 | the companion key is the key followed by `_HEX` |
| HexValues.AddHexValues | src/zb-constants.ts:15-23 | the result's keys are exactly the input keys plus their `_HEX` companions. Assume keys are distinct and no key is another key's companion. Then every key keeps its number, its companion holds `hexStr(value, 4)`, and the result holds exactly two keys per entry |
| HexValues.AnnotatedAt | src/zb-constants.ts:18-19 | the same, for one known entry |
| IdTables.ClusterId | src/zb-constants.ts:124-153 | `CLUSTER_ID` holds, for every row, the database's number under the key and its rendering under the `_HEX` companion, and has 56 keys |
| IdTables.ClusterIdShape | src/zb-constants.ts:124-153 | `CLUSTER_ID` has 56 keys; each cluster key holds the database's number and its `_HEX` companion holds the rendering, whatever numbers the database gives |
| IdTables.ClusterIdAt | src/zb-constants.ts:124-153 | one known cluster key holds the number the database gives for its cluster name |
| IdTables.ProfileId | src/zb-constants.ts:252-257 | `PROFILE_ID` holds each profile's number under its key and the rendering under its companion, and has 8 keys |
| IdTables.ProfileIdShape | src/zb-constants.ts:252-257 | `PROFILE_ID` has exactly the four profile keys and their companions; GREEN is 0xa1e0 and ZDO is 0; ZHA and ZLL are the database's `HA` and `LL` profiles |
| AttrIds.UpperChar | src/zb-constants.ts:160 | a small ASCII letter becomes its capital, 32 code points lower; every other character is unchanged; the result is never a small letter |
| AttrIds.ToUpperCase | src/zb-constants.ts:160 | the result differs from the name only in the case of letters, contains no small letter, and keeps every character that is not a small letter |
| AttrIds.UpperCaseEqual | src/zb-constants.ts:160 | two names get the same upper-cased key exactly when they differ only in the case of ASCII letters |
| AttrIds.UpperDistinctIff | src/zb-constants.ts:159-160 | no two names of a list collide after upper-casing exactly when no two differ only in letter case |
| AttrIds.ToUpperCaseIdempotent | src/zb-constants.ts:160 | upper-casing twice gives the same result as upper-casing once |
| AttrIds.AttrDict | src/zb-constants.ts:158-161 | the loop completes exactly when every name resolves, and then its keys are the upper-cased names; otherwise it stops at the first name the database does not know |
| AttrIds.AttrDictLastWins | src/zb-constants.ts:159-160 | a name's upper-cased key holds the number the database gives for that name whenever no later name upper-cases to the same key, so among names that differ only in letter case the last one wins |
| AttrIds.AttrDictValues | src/zb-constants.ts:159-161 | when no two names upper-case alike, each upper-cased name holds the number the database gives for that name |
| AttrIds.AttrDictValueAt | src/zb-constants.ts:160 | the same, for one known name |
| AttrIds.MakeAttrIds | src/zb-constants.ts:156-163 | on success the registry gains the cluster, the cluster's entry has exactly the upper-cased names, it is the dictionary the loop builds, so each key holds the number the database gives for the last name that upper-cases to it, and the other clusters are unchanged; a failure names the cluster |
| AttrIds.RunCalls | src/zb-constants.ts:165-194 | a run of calls succeeds exactly when every call resolves; the registry gains exactly the named clusters, other entries are unchanged, and a cluster no later call names keeps its own call's dictionary |
| AttrIds.RunCallsEntry | src/zb-constants.ts:156-194 | a call no later call overrides leaves its dictionary, with exactly its upper-cased names |
| AttrIds.CallClusterKnown | src/zb-constants.ts:124-153 | every cluster key used in a load-time call is present in `CLUSTER_ID` and holds a number |
| AttrIds.AllCallsResolve | src/zb-constants.ts:157-194 | the four load-time calls all resolve exactly when the database knows each call's names for the number of genBasic, genPollCtrl, lightingColorCtrl and ssIasZone respectively |
| AttrIds.AttrId | src/zb-constants.ts:155-194 | loading succeeds exactly when all four calls resolve, and then `ATTR_ID` has exactly the keys GENBASIC, GENPOLLCTRL, LIGHTINGCOLORCTRL and SSIASZONE |
| AttrIds.ColorCtrlLoaded | src/zb-constants.ts:180-187 | the LIGHTINGCOLORCTRL entry has exactly the six upper-cased names, including COLORCAPABILITIES |
| AttrIds.ColorCapabilitiesId | src/zb-constants.ts:186 | `ATTR_ID.LIGHTINGCOLORCTRL.COLORCAPABILITIES` is the database's number for `colorCapabilities` in the colour-control cluster |
| DeviceIds.ZhaIsLight | src/zb-constants.ts:353-361 | a ZHA id is a light exactly when it is one of 0100, 0101, 0102, 010c and 010d |
| DeviceIds.ZhaIsColorLight | src/zb-constants.ts:363-368 | a ZHA id is a colour light exactly when it is 0102 or 010d |
| DeviceIds.ZhaIsColorTemperatureLight | src/zb-constants.ts:369-371 | a ZHA id is a colour-temperature light exactly when it is 010c |
| DeviceIds.ZllIsLight | src/zb-constants.ts:390-398 | a ZLL id is a light exactly when it is one of 0000, 0100, 0200, 0210 and 0220 |
| DeviceIds.ZllIsColorLight | src/zb-constants.ts:400-402 | a ZLL id is a colour light exactly when it is 0200 or 0210 |
| DeviceIds.ZllIsColorTemperatureLight | src/zb-constants.ts:404-406 | a ZLL id is a colour-temperature light exactly when it is 0220 |
| DeviceIds.LightHierarchy | src/zb-constants.ts:353-406 | in both tables, colour lights and colour-temperature lights are lights, and no id is both |
| DeviceIds.ZhaLightsByName | src/zb-constants.ts:329-361 | `isLight` accepts a ZHA table entry's id exactly when the entry's name ends in `_LIGHT` |
| DeviceIds.ZllLightsByName | src/zb-constants.ts:375-398 | `isLight` accepts a ZLL table entry's id exactly when the entry's name ends in `_LIGHT` |
| DeviceIds.DeviceIdExamples | src/zb-constants.ts:329-406 | the comparison is case-sensitive (010C is not a light); 0000 is a ZLL light but not a ZHA one; 010c is a ZHA colour-temperature light but not a ZLL one |
| FanModes.Split | src/zb-constants.ts:313-322 | the parts of `split(sep)` contain no separator, there is at least one part, and joining them gives back the string |
| FanModes.Join | src/zb-constants.ts:313-315 | the labels joined with the separator: the string starts with the first label, followed by the separator when there are more, and is the label itself when there is one |
| FanModes.SplitJoin | src/zb-constants.ts:313-322 | splitting a join of separator-free parts gives the parts back |
| FanModes.FanSeqLabelsAreModes | src/zb-constants.ts:313-322 | every slash-separated label of every `HVAC_FAN_SEQ` entry is in `HVAC_FAN_MODE` |
| ColorCapability.ColorIsUnion | src/zb-constants.ts:198-205 | COLOR is the union of HUE_SAT, ENHANCED_HUE_SAT and XY (0x0b), and TEMPERATURE is 0x10 |
| ColorCapability.ColorMask | src/zb-constants.ts:198-202 | masking with COLOR detects a word with any of the three colour bits set, and only such words |
| ColorCapability.TemperatureSeparate | src/zb-constants.ts:199-204 | TEMPERATURE is disjoint from COLOR, and the three colour bits are pairwise disjoint |

## Left out

- Decimal.ParseInt: reads only the leading run of decimal digits. Leading whitespace, a sign and a `0x` prefix are not modelled, because every key passed to it is the decimal string of a non-negative code.
- Decimal.Dec: renders the plain decimal form. JavaScript's exponent form for integers of 10^21 and above is not modelled, because every code is below 256.
- AttrIds.UpperChar: upper-cases ASCII letters only; AttrIds.ToUpperCase and AttrIds.UpperCaseEqual are stated for that case mapping. Every attribute name in the module is ASCII.
- `zclId.cluster`, `zclId.profile` and `zclId.attr` are parameters. Their tables belong to another package, so no numbers are invented for them.
- A failed `zclId.cluster` or `zclId.profile` lookup is not modelled. These lookups are total functions here.
- A failed `zclId.attr` lookup makes the source throw while the module loads. Here it is the `Failure` result; the stack trace and module-load failure are not modelled.
- `Utils.hexStr` is a parameter. Its case, padding and width are not modelled.
- Enumeration order of `Object.entries` is not modelled. Integer-like keys come out in ascending order, so entries are given in that order, and `StatusTables` proves its literals are listed that way. Under the round-trip condition the result does not depend on the order.
- Tables with no logic or stated relationship are not transcribed: `BROADCAST_ADDR`, `UNKNOWN_ADDR_16`, `COLOR_MODE`, `DIR`, `DOORLOCK_EVENT_CODES`, `POWERSOURCE`, `STATUS`, `THERMOSTAT_SYSTEM_MODE`, `THERMOSTAT_RUN_MODE`, `THERMOSTAT_STATE` and `ZONE_STATUS`.
- Objects are modelled as plain maps with no prototype. Assigning to the key `__proto__` is not modelled; JavaScript would not create an own property for it. No key or name in the module is `__proto__`.
- The mutable global `ATTR_ID` is not modelled as an object. It is an explicit registry value threaded through the calls.
- Module loading and export are not modelled.
