/** The device-type tables of the two lighting profiles and their classification
    predicates: ZHA_DEVICE_ID (Zigbee Lighting & Occupancy Device Specification
    version 1.0) and ZLL_DEVICE_ID (ZigBee Light Link). Each table is a fixed
    object whose property names are the device types; a device id is a
    four-digit lower-case hex string, compared with case-sensitive equality. */
module DeviceIds {

  /** The property names of ZHA_DEVICE_ID, in source order. */
  datatype ZhaDevice =
    | ON_OFF_SWITCH | ON_OFF_OUTPUT | SMART_PLUG | ON_OFF_LIGHT | DIMMABLE_LIGHT
    | COLORED_DIMMABLE_LIGHT | ON_OFF_LIGHT_SWITCH | DIMMER_SWITCH
    | COLOR_DIMMER_SWITCH | LIGHT_SENSOR | OCCUPANCY_SENSOR | ON_OFF_BALLAST
    | DIMMABLE_PLUGIN | COLOR_TEMPERATURE_LIGHT | EXTENDED_COLOR_LIGHT
    | LIGHT_LEVEL_SENSOR | COLOR_CONTROLLER | COLOR_SCENE_CONTROLLER
    | NON_COLOR_CONTROLLER | NON_COLOR_SCENE_CONTROLLER | CONTROL_BRIDGE
    | ON_OFF_SENSOR
  {
    /** The property name as a string. */
    function Name(): string
    {
      match this
      case ON_OFF_SWITCH => "ON_OFF_SWITCH"
      case ON_OFF_OUTPUT => "ON_OFF_OUTPUT"
      case SMART_PLUG => "SMART_PLUG"
      case ON_OFF_LIGHT => "ON_OFF_LIGHT"
      case DIMMABLE_LIGHT => "DIMMABLE_LIGHT"
      case COLORED_DIMMABLE_LIGHT => "COLORED_DIMMABLE_LIGHT"
      case ON_OFF_LIGHT_SWITCH => "ON_OFF_LIGHT_SWITCH"
      case DIMMER_SWITCH => "DIMMER_SWITCH"
      case COLOR_DIMMER_SWITCH => "COLOR_DIMMER_SWITCH"
      case LIGHT_SENSOR => "LIGHT_SENSOR"
      case OCCUPANCY_SENSOR => "OCCUPANCY_SENSOR"
      case ON_OFF_BALLAST => "ON_OFF_BALLAST"
      case DIMMABLE_PLUGIN => "DIMMABLE_PLUGIN"
      case COLOR_TEMPERATURE_LIGHT => "COLOR_TEMPERATURE_LIGHT"
      case EXTENDED_COLOR_LIGHT => "EXTENDED_COLOR_LIGHT"
      case LIGHT_LEVEL_SENSOR => "LIGHT_LEVEL_SENSOR"
      case COLOR_CONTROLLER => "COLOR_CONTROLLER"
      case COLOR_SCENE_CONTROLLER => "COLOR_SCENE_CONTROLLER"
      case NON_COLOR_CONTROLLER => "NON_COLOR_CONTROLLER"
      case NON_COLOR_SCENE_CONTROLLER => "NON_COLOR_SCENE_CONTROLLER"
      case CONTROL_BRIDGE => "CONTROL_BRIDGE"
      case ON_OFF_SENSOR => "ON_OFF_SENSOR"
    }

    /** The property's value: the device id. */
    function Id(): string
    {
      match this
      case ON_OFF_SWITCH => "0000"
      case ON_OFF_OUTPUT => "0002"
      case SMART_PLUG => "0051"
      case ON_OFF_LIGHT => "0100"
      case DIMMABLE_LIGHT => "0101"
      case COLORED_DIMMABLE_LIGHT => "0102"
      case ON_OFF_LIGHT_SWITCH => "0103"
      case DIMMER_SWITCH => "0104"
      case COLOR_DIMMER_SWITCH => "0105"
      case LIGHT_SENSOR => "0106"
      case OCCUPANCY_SENSOR => "0107"
      case ON_OFF_BALLAST => "0108"
      case DIMMABLE_PLUGIN => "010b"
      case COLOR_TEMPERATURE_LIGHT => "010c"
      case EXTENDED_COLOR_LIGHT => "010d"
      case LIGHT_LEVEL_SENSOR => "010e"
      case COLOR_CONTROLLER => "0800"
      case COLOR_SCENE_CONTROLLER => "0810"
      case NON_COLOR_CONTROLLER => "0820"
      case NON_COLOR_SCENE_CONTROLLER => "0830"
      case CONTROL_BRIDGE => "0840"
      case ON_OFF_SENSOR => "0850"
    }
  }

  /** The property names of ZLL_DEVICE_ID, in source order. */
  datatype ZllDevice =
    | ON_OFF_LIGHT | ON_OFF_SWITCH | DIMMABLE_LIGHT | DIMMABLE_SWITCH | COLOR_LIGHT
    | EXTENDED_COLOR_LIGHT | COLOR_TEMPERATURE_LIGHT | COLOR_CONTROLLER
    | COLOR_SCENE_CONTROLLER | NON_COLOR_CONTROLLER | NON_COLOR_SCENE_CONTROLLER
    | CONTROL_BRIDGE | ON_OFF_SENSOR
  {
    function Name(): string
    {
      match this
      case ON_OFF_LIGHT => "ON_OFF_LIGHT"
      case ON_OFF_SWITCH => "ON_OFF_SWITCH"
      case DIMMABLE_LIGHT => "DIMMABLE_LIGHT"
      case DIMMABLE_SWITCH => "DIMMABLE_SWITCH"
      case COLOR_LIGHT => "COLOR_LIGHT"
      case EXTENDED_COLOR_LIGHT => "EXTENDED_COLOR_LIGHT"
      case COLOR_TEMPERATURE_LIGHT => "COLOR_TEMPERATURE_LIGHT"
      case COLOR_CONTROLLER => "COLOR_CONTROLLER"
      case COLOR_SCENE_CONTROLLER => "COLOR_SCENE_CONTROLLER"
      case NON_COLOR_CONTROLLER => "NON_COLOR_CONTROLLER"
      case NON_COLOR_SCENE_CONTROLLER => "NON_COLOR_SCENE_CONTROLLER"
      case CONTROL_BRIDGE => "CONTROL_BRIDGE"
      case ON_OFF_SENSOR => "ON_OFF_SENSOR"
    }

    function Id(): string
    {
      match this
      case ON_OFF_LIGHT => "0000"
      case ON_OFF_SWITCH => "0010"
      case DIMMABLE_LIGHT => "0100"
      case DIMMABLE_SWITCH => "0110"
      case COLOR_LIGHT => "0200"
      case EXTENDED_COLOR_LIGHT => "0210"
      case COLOR_TEMPERATURE_LIGHT => "0220"
      case COLOR_CONTROLLER => "0800"
      case COLOR_SCENE_CONTROLLER => "0810"
      case NON_COLOR_CONTROLLER => "0820"
      case NON_COLOR_SCENE_CONTROLLER => "0830"
      case CONTROL_BRIDGE => "0840"
      case ON_OFF_SENSOR => "0850"
    }
  }

  /** Reference sets: the ids each predicate accepts, written out. */
  const ZhaLightIds: set<string> := {"0100", "0101", "0102", "010c", "010d"}
  const ZhaColorLightIds: set<string> := {"0102", "010d"}
  const ZllLightIds: set<string> := {"0000", "0100", "0200", "0210", "0220"}
  const ZllColorLightIds: set<string> := {"0200", "0210"}

  /** `ZHA_DEVICE_ID.isLight`: the id of one of the five light device types. */
  function ZhaIsLight(deviceId: string): (r: bool)
    ensures r <==> deviceId in ZhaLightIds
  {
    || deviceId == ZhaDevice.ON_OFF_LIGHT.Id()
    || deviceId == ZhaDevice.DIMMABLE_LIGHT.Id()
    || deviceId == ZhaDevice.COLORED_DIMMABLE_LIGHT.Id()
    || deviceId == ZhaDevice.COLOR_TEMPERATURE_LIGHT.Id()
    || deviceId == ZhaDevice.EXTENDED_COLOR_LIGHT.Id()
  }

  /** `ZHA_DEVICE_ID.isColorLight`. */
  function ZhaIsColorLight(deviceId: string): (r: bool)
    ensures r <==> deviceId in ZhaColorLightIds
  {
    || deviceId == ZhaDevice.COLORED_DIMMABLE_LIGHT.Id()
    || deviceId == ZhaDevice.EXTENDED_COLOR_LIGHT.Id()
  }

  /** `ZHA_DEVICE_ID.isColorTemperatureLight`. */
  function ZhaIsColorTemperatureLight(deviceId: string): (r: bool)
    ensures r <==> deviceId == "010c"
  {
    deviceId == ZhaDevice.COLOR_TEMPERATURE_LIGHT.Id()
  }

  /** `ZLL_DEVICE_ID.isLight`. */
  function ZllIsLight(deviceId: string): (r: bool)
    ensures r <==> deviceId in ZllLightIds
  {
    || deviceId == ZllDevice.ON_OFF_LIGHT.Id()
    || deviceId == ZllDevice.DIMMABLE_LIGHT.Id()
    || deviceId == ZllDevice.COLOR_LIGHT.Id()
    || deviceId == ZllDevice.EXTENDED_COLOR_LIGHT.Id()
    || deviceId == ZllDevice.COLOR_TEMPERATURE_LIGHT.Id()
  }

  /** `ZLL_DEVICE_ID.isColorLight`. */
  function ZllIsColorLight(deviceId: string): (r: bool)
    ensures r <==> deviceId in ZllColorLightIds
  {
    deviceId == ZllDevice.COLOR_LIGHT.Id() || deviceId == ZllDevice.EXTENDED_COLOR_LIGHT.Id()
  }

  /** `ZLL_DEVICE_ID.isColorTemperatureLight`. */
  function ZllIsColorTemperatureLight(deviceId: string): (r: bool)
    ensures r <==> deviceId == "0220"
  {
    deviceId == ZllDevice.COLOR_TEMPERATURE_LIGHT.Id()
  }

  /** Every colour light and every colour-temperature light is a light, and no
      device id is both, in either profile. */
  lemma LightHierarchy(deviceId: string)
    ensures ZhaIsColorLight(deviceId) ==> ZhaIsLight(deviceId)
    ensures ZhaIsColorTemperatureLight(deviceId) ==> ZhaIsLight(deviceId)
    ensures !(ZhaIsColorLight(deviceId) && ZhaIsColorTemperatureLight(deviceId))
    ensures ZllIsColorLight(deviceId) ==> ZllIsLight(deviceId)
    ensures ZllIsColorTemperatureLight(deviceId) ==> ZllIsLight(deviceId)
    ensures !(ZllIsColorLight(deviceId) && ZllIsColorTemperatureLight(deviceId))
  {
  }

  /** The name ends in `_LIGHT`, compared from the last character backwards. */
  predicate EndsWithLight(name: string)
  {
    var n := |name|;
    && n >= 6
    && name[n - 1] == 'T' && name[n - 2] == 'H' && name[n - 3] == 'G'
    && name[n - 4] == 'I' && name[n - 5] == 'L' && name[n - 6] == '_'
  }

  /** The five light device types of each table, by constructor. */
  predicate ZhaLightType(d: ZhaDevice)
  {
    || d == ZhaDevice.ON_OFF_LIGHT || d == ZhaDevice.DIMMABLE_LIGHT
    || d == ZhaDevice.COLORED_DIMMABLE_LIGHT || d == ZhaDevice.COLOR_TEMPERATURE_LIGHT
    || d == ZhaDevice.EXTENDED_COLOR_LIGHT
  }

  predicate ZllLightType(d: ZllDevice)
  {
    || d == ZllDevice.ON_OFF_LIGHT || d == ZllDevice.DIMMABLE_LIGHT
    || d == ZllDevice.COLOR_LIGHT || d == ZllDevice.EXTENDED_COLOR_LIGHT
    || d == ZllDevice.COLOR_TEMPERATURE_LIGHT
  }

  lemma ZhaLightIdsOfLightTypes(d: ZhaDevice)
    ensures ZhaIsLight(d.Id()) <==> ZhaLightType(d)
  {
  }

  lemma ZhaLightNamesOfLightTypes(d: ZhaDevice)
    ensures EndsWithLight(d.Name()) <==> ZhaLightType(d)
  {
  }

  lemma ZllLightIdsOfLightTypes(d: ZllDevice)
    ensures ZllIsLight(d.Id()) <==> ZllLightType(d)
  {
  }

  lemma ZllLightNamesOfLightTypes(d: ZllDevice)
    ensures EndsWithLight(d.Name()) <==> ZllLightType(d)
  {
  }

  /** Within each table, a device type's id is a light id exactly when its name
      ends in `_LIGHT` (ON_OFF_LIGHT_SWITCH and LIGHT_SENSOR are not lights). */
  lemma ZhaLightsByName(d: ZhaDevice)
    ensures ZhaIsLight(d.Id()) <==> EndsWithLight(d.Name())
  {
    ZhaLightIdsOfLightTypes(d);
    ZhaLightNamesOfLightTypes(d);
  }

  lemma ZllLightsByName(d: ZllDevice)
    ensures ZllIsLight(d.Id()) <==> EndsWithLight(d.Name())
  {
    ZllLightIdsOfLightTypes(d);
    ZllLightNamesOfLightTypes(d);
  }

  /** Ids compare case-sensitively, and the same id means different things in
      the two profiles. */
  lemma DeviceIdExamples()
    ensures !ZhaIsLight("010C") && ZhaIsLight("010c")
    ensures ZllIsLight("0000") && !ZhaIsLight("0000")
    ensures ZhaIsColorTemperatureLight("010c") && !ZllIsColorTemperatureLight("010c")
  {
  }
}
