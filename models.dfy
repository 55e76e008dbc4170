/**
 * The entities of the monitoring service and the nested field resolvers that
 * walk the hierarchy Site -> Room -> Device -> {SensorReading, ControlSetpoint}.
 * A table is a sequence of rows in storage order; a resolver receives the table
 * it reads, which is all it can touch: resolvers are functions and change nothing.
 */
module Models {
  import opened Wrappers
  import Rows

  /** A 64-bit row identifier assigned by the store. */
  type Id = int

  /** A `DateTime<Utc>` as seconds since the Unix epoch. */
  type Timestamp = int

  // Closed enums, stored in their text columns under the PascalCase variant name.

  datatype DeviceType = TemperatureSensor | ThermostatController

  datatype SensorUnit = Celsius | Fahrenheit

  datatype SetpointType = Temperature

  datatype SetpointUnit = Celsius | Fahrenheit

  function DeviceTypeName(t: DeviceType): string
  {
    match t
    case TemperatureSensor => "TemperatureSensor"
    case ThermostatController => "ThermostatController"
  }

  /** Reading a stored device type back; any other text is rejected, not defaulted. */
  function ParseDeviceType(s: string): (r: Option<DeviceType>)
    ensures r.Some? ==> DeviceTypeName(r.value) == s
    ensures r.None? ==> forall v :: DeviceTypeName(v) != s
  {
    if s == "TemperatureSensor" then Some(TemperatureSensor)
    else if s == "ThermostatController" then Some(ThermostatController)
    else None
  }

  function SensorUnitName(u: SensorUnit): string
  {
    match u
    case Celsius => "Celsius"
    case Fahrenheit => "Fahrenheit"
  }

  function ParseSensorUnit(s: string): (r: Option<SensorUnit>)
    ensures r.Some? ==> SensorUnitName(r.value) == s
    ensures r.None? ==> forall v :: SensorUnitName(v) != s
  {
    if s == "Celsius" then Some(SensorUnit.Celsius)
    else if s == "Fahrenheit" then Some(SensorUnit.Fahrenheit)
    else None
  }

  function SetpointTypeName(t: SetpointType): string
  {
    match t
    case Temperature => "Temperature"
  }

  function ParseSetpointType(s: string): (r: Option<SetpointType>)
    ensures r.Some? ==> SetpointTypeName(r.value) == s
    ensures r.None? ==> forall v :: SetpointTypeName(v) != s
  {
    if s == "Temperature" then Some(Temperature) else None
  }

  function SetpointUnitName(u: SetpointUnit): string
  {
    match u
    case Celsius => "Celsius"
    case Fahrenheit => "Fahrenheit"
  }

  function ParseSetpointUnit(s: string): (r: Option<SetpointUnit>)
    ensures r.Some? ==> SetpointUnitName(r.value) == s
    ensures r.None? ==> forall v :: SetpointUnitName(v) != s
  {
    if s == "Celsius" then Some(SetpointUnit.Celsius)
    else if s == "Fahrenheit" then Some(SetpointUnit.Fahrenheit)
    else None
  }

  /** Storing an enum value and reading it back gives the value itself. */
  lemma EnumNamesRoundTrip()
    ensures forall t :: ParseDeviceType(DeviceTypeName(t)) == Some(t)
    ensures forall u :: ParseSensorUnit(SensorUnitName(u)) == Some(u)
    ensures forall t :: ParseSetpointType(SetpointTypeName(t)) == Some(t)
    ensures forall u :: ParseSetpointUnit(SetpointUnitName(u)) == Some(u)
  {
    forall t: SetpointType ensures ParseSetpointType(SetpointTypeName(t)) == Some(t) {
      assert t == Temperature;
    }
  }

  // Entities: one datatype per table row.

  datatype Site = Site(id: Id, name: string, address: Option<string>,
                       createdAt: Timestamp, updatedAt: Timestamp)
  {
    /** `Site.rooms`: `SELECT * FROM room WHERE site_id = ?` bound to this site's id. */
    function Rooms(rooms: seq<Room>): (r: seq<Room>)
      ensures forall x :: x in r <==> x in rooms && x.siteId == id
    {
      Rows.Select(rooms, RoomSite, id)
    }
  }

  datatype Room = Room(id: Id, siteId: Id, name: string,
                       createdAt: Timestamp, updatedAt: Timestamp)
  {
    /** `Room.devices`: `SELECT * FROM device WHERE room_id = ?` bound to this room's id. */
    function Devices(devices: seq<Device>): (r: seq<Device>)
      ensures forall x :: x in r <==> x in devices && x.roomId == id
    {
      DevicesInRoom(devices, id)
    }
  }

  datatype Device = Device(id: Id, roomId: Id, name: string, deviceType: DeviceType,
                           uniqueIdentifier: Option<string>,
                           createdAt: Timestamp, updatedAt: Timestamp)
  {
    /**
     * `Device.sensor_readings`: the readings whose device_id is this device's id.
     * The resolver's SQL names the table `sensor_reading`, while every writer inserts
     * into `SensorReading`; the model reads the table the writers fill.
     */
    function SensorReadings(readings: seq<SensorReading>): (r: seq<SensorReading>)
      ensures forall x :: x in r <==> x in readings && x.deviceId == id
    {
      Rows.Select(readings, ReadingDevice, id)
    }

    /**
     * `Device.control_setpoints`: the setpoints whose device_id is this device's id.
     * The resolver's SQL names the table `control_setpoint`, while every writer inserts
     * into `ControlSetpoint`; the model reads the table the writers fill.
     */
    function ControlSetpoints(setpoints: seq<ControlSetpoint>): (r: seq<ControlSetpoint>)
      ensures forall x :: x in r <==> x in setpoints && x.deviceId == id
    {
      Rows.Select(setpoints, SetpointDevice, id)
    }
  }

  /** A reading's `value` keeps the caller's decimal text exactly as given. */
  datatype SensorReading = SensorReading(id: Id, deviceId: Id, value: string,
                                         unit: Option<SensorUnit>, timestamp: Timestamp,
                                         createdAt: Timestamp, updatedAt: Timestamp)

  datatype ControlSetpoint = ControlSetpoint(id: Id, deviceId: Id, setpointType: SetpointType,
                                             value: string, unit: Option<SetpointUnit>,
                                             timestamp: Timestamp,
                                             createdAt: Timestamp, updatedAt: Timestamp)

  // Mutation inputs.

  datatype SiteInput = SiteInput(name: string, address: Option<string>)

  datatype RoomInput = RoomInput(siteId: Id, name: string)

  datatype DeviceInput = DeviceInput(roomId: Id, name: string, deviceType: DeviceType,
                                     uniqueIdentifier: Option<string>)

  datatype SensorReadingInput = SensorReadingInput(deviceId: Id, value: string,
                                                   unit: Option<SensorUnit>)

  datatype ControlSetpointInput = ControlSetpointInput(deviceId: Id, setpointType: SetpointType,
                                                       value: string, unit: Option<SetpointUnit>)

  // The columns the statements compare, as key functions for Rows.

  function SiteKey(s: Site): Id { s.id }
  function RoomKey(r: Room): Id { r.id }
  function DeviceKey(d: Device): Id { d.id }
  function ReadingKey(x: SensorReading): Id { x.id }
  function SetpointKey(x: ControlSetpoint): Id { x.id }

  function RoomSite(r: Room): Id { r.siteId }
  function DeviceRoom(d: Device): Id { d.roomId }
  function ReadingDevice(x: SensorReading): Id { x.deviceId }
  function SetpointDevice(x: ControlSetpoint): Id { x.deviceId }
  function ReadingTime(x: SensorReading): Timestamp { x.timestamp }
  function SetpointTime(x: ControlSetpoint): Timestamp { x.timestamp }

  /** The devices of a room: shared by `Room.devices` and the root query `devices_in_room`. */
  function DevicesInRoom(devices: seq<Device>, roomId: Id): (r: seq<Device>)
    ensures forall x :: x in r <==> x in devices && x.roomId == roomId
  {
    Rows.Select(devices, DeviceRoom, roomId)
  }

  // The nested query `site { rooms { devices { sensorReadings } } }`, flattened.

  function DevicesReadings(ds: seq<Device>, readings: seq<SensorReading>): seq<SensorReading>
  {
    if ds == [] then [] else ds[0].SensorReadings(readings) + DevicesReadings(ds[1..], readings)
  }

  function RoomsReadings(rs: seq<Room>, devices: seq<Device>, readings: seq<SensorReading>)
    : seq<SensorReading>
  {
    if rs == [] then []
    else DevicesReadings(rs[0].Devices(devices), readings) + RoomsReadings(rs[1..], devices, readings)
  }

  function SiteReadings(site: Site, rooms: seq<Room>, devices: seq<Device>,
                        readings: seq<SensorReading>): seq<SensorReading>
  {
    RoomsReadings(site.Rooms(rooms), devices, readings)
  }

  /** The reading's device lies in a room of the given site, by foreign keys. */
  ghost predicate ReadingUnderSite(x: SensorReading, siteId: Id, rooms: seq<Room>, devices: seq<Device>)
  {
    exists d :: d in devices && x.deviceId == d.id && DeviceUnderSite(d, siteId, rooms)
  }

  ghost predicate DeviceUnderSite(d: Device, siteId: Id, rooms: seq<Room>)
  {
    exists r :: r in rooms && d.roomId == r.id && r.siteId == siteId
  }

  lemma {:induction false} DevicesReadingsChain(ds: seq<Device>, readings: seq<SensorReading>,
                                                x: SensorReading)
    ensures x in DevicesReadings(ds, readings) <==>
            x in readings && exists d :: d in ds && x.deviceId == d.id
  {
    if ds != [] {
      DevicesReadingsChain(ds[1..], readings, x);
      if x in readings && x.deviceId == ds[0].id {
        assert x in ds[0].SensorReadings(readings);
      }
      forall d | d in ds ensures d == ds[0] || d in ds[1..] {
        var i :| 0 <= i < |ds| && ds[i] == d;
        if i > 0 { assert ds[1..][i - 1] == d; }
      }
    }
  }

  lemma {:induction false} RoomsReadingsChain(rs: seq<Room>, devices: seq<Device>,
                                              readings: seq<SensorReading>, x: SensorReading)
    ensures x in RoomsReadings(rs, devices, readings) <==>
            x in readings &&
            exists d :: d in devices && x.deviceId == d.id && exists r :: r in rs && d.roomId == r.id
  {
    if rs != [] {
      RoomsReadingsChain(rs[1..], devices, readings, x);
      var here := rs[0].Devices(devices);
      DevicesReadingsChain(here, readings, x);
      forall r | r in rs ensures r == rs[0] || r in rs[1..] {
        var i :| 0 <= i < |rs| && rs[i] == r;
        if i > 0 { assert rs[1..][i - 1] == r; }
      }
      if x in readings {
        forall d | d in devices && x.deviceId == d.id && d.roomId == rs[0].id
          ensures x in DevicesReadings(here, readings)
        {
          assert d in here;
        }
      }
    }
  }

  /**
   * Composing Site.rooms, Room.devices and Device.sensor_readings reaches exactly
   * the readings whose device sits in a room of that site: nothing from a sibling
   * site, room or device, and nothing left out.
   */
  lemma SiteReadingsChain(site: Site, rooms: seq<Room>, devices: seq<Device>,
                          readings: seq<SensorReading>, x: SensorReading)
    ensures x in SiteReadings(site, rooms, devices, readings) <==>
            x in readings && ReadingUnderSite(x, site.id, rooms, devices)
  {
    var rs := site.Rooms(rooms);
    RoomsReadingsChain(rs, devices, readings, x);
    if x in readings && ReadingUnderSite(x, site.id, rooms, devices) {
      var d :| d in devices && x.deviceId == d.id && DeviceUnderSite(d, site.id, rooms);
      var r :| r in rooms && d.roomId == r.id && r.siteId == site.id;
      assert r in rs;
    }
  }
}
