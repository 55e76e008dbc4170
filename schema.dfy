/**
 * The root queries and root mutations of the graph API over the relational store.
 * `Tables` is the content of the five tables and their id counters as a value,
 * the root queries are functions of it, and `Store` is the store itself, whose
 * mutations update its tables in place.
 */
module Schema {
  import opened Wrappers
  import opened Models
  import Rows
  import Format

  /** The parent whose absence stops a dependent insert. */
  datatype ParentKind = SiteParent | RoomParent

  /** The error a mutation returns before writing anything. */
  datatype MutationError = MissingParent(kind: ParentKind, id: Id)

  function KindName(k: ParentKind): string
  {
    match k
    case SiteParent => "Site"
    case RoomParent => "Room"
  }

  /** The text of the field error: "Site with ID 7 does not exist". */
  function Message(e: MutationError): (m: string)
    ensures |KindName(e.kind)| + 9 < |m| - 15 && m[..|KindName(e.kind)|] == KindName(e.kind)
    ensures Format.ParseInt(m[|KindName(e.kind)| + 9..|m| - 15]) == Some(e.id)
  {
    Format.IntTextRoundTrip(e.id);
    var m := KindName(e.kind) + " with ID " + Format.IntText(e.id) + " does not exist";
    assert m[|KindName(e.kind)| + 9..|m| - 15] == Format.IntText(e.id);
    m
  }

  /** A message names its parent kind and id: two errors with the same message are the same. */
  lemma MessageIdentifiesError(a: MutationError, b: MutationError)
    ensures Message(a) == Message(b) ==> a == b
  {
    if Message(a) == Message(b) {
      var ma, mb := Message(a), Message(b);
      assert |KindName(a.kind)| == |KindName(b.kind)| == 4;
      assert KindName(a.kind) == ma[..4] == mb[..4] == KindName(b.kind);
      assert Format.ParseInt(ma[13..|ma| - 15]) == Some(a.id);
    }
  }

  datatype Tables = Tables(sites: seq<Site>, rooms: seq<Room>, devices: seq<Device>,
                           readings: seq<SensorReading>, setpoints: seq<ControlSetpoint>,
                           nextSiteId: Id, nextRoomId: Id, nextDeviceId: Id,
                           nextReadingId: Id, nextSetpointId: Id)
  {
    /**
     * Ids come from per-table counters and ascend in storage order, every room's
     * site exists and every device's room exists. Readings and setpoints carry no
     * such guarantee: their device is never checked.
     */
    ghost predicate Valid()
    {
      && Rows.KeysAscending(sites, SiteKey, nextSiteId)
      && Rows.KeysAscending(rooms, RoomKey, nextRoomId)
      && Rows.KeysAscending(devices, DeviceKey, nextDeviceId)
      && Rows.KeysAscending(readings, ReadingKey, nextReadingId)
      && Rows.KeysAscending(setpoints, SetpointKey, nextSetpointId)
      && (forall r :: r in rooms ==> exists s :: s in sites && s.id == r.siteId)
      && (forall d :: d in devices ==> exists r :: r in rooms && r.id == d.roomId)
    }

    // Root queries.

    /** `sites`: every Site row, in storage order. */
    function Sites(): (r: seq<Site>)
      ensures |r| == |sites| && forall s :: s in r <==> s in sites
    {
      sites
    }

    /** `site(id)`: the Site row with that id, or None. */
    function SiteById(id: Id): (r: Option<Site>)
      ensures r.None? <==> forall s :: s in sites ==> s.id != id
      ensures r.Some? ==> r.value in sites && r.value.id == id
    {
      Rows.Find(sites, SiteKey, id)
    }

    /** `room(id)`: the Room row with that id, or None. */
    function RoomById(id: Id): (r: Option<Room>)
      ensures r.None? <==> forall x :: x in rooms ==> x.id != id
      ensures r.Some? ==> r.value in rooms && r.value.id == id
    {
      Rows.Find(rooms, RoomKey, id)
    }

    /** `devices_in_room(room_id)`: exactly the devices whose room_id is `roomId`. */
    function DevicesInRoom(roomId: Id): (r: seq<Device>)
      ensures forall d :: d in r <==> d in devices && d.roomId == roomId
    {
      Models.DevicesInRoom(devices, roomId)
    }

    /** `latest_sensor_reading(device_id)`: a reading of the device with the largest timestamp. */
    function LatestSensorReading(deviceId: Id): (r: Option<SensorReading>)
      ensures r.None? <==> forall x :: x in readings ==> x.deviceId != deviceId
      ensures r.Some? ==> && r.value in readings && r.value.deviceId == deviceId
                          && forall x :: x in readings && x.deviceId == deviceId ==>
                                           x.timestamp <= r.value.timestamp
    {
      var mine := Rows.Select(readings, ReadingDevice, deviceId);
      assert mine != [] ==> mine[0] in mine;
      Rows.Latest(mine, ReadingTime)
    }

    /** `latest_control_setpoint(device_id)`: a setpoint of the device with the largest timestamp. */
    function LatestControlSetpoint(deviceId: Id): (r: Option<ControlSetpoint>)
      ensures r.None? <==> forall x :: x in setpoints ==> x.deviceId != deviceId
      ensures r.Some? ==> && r.value in setpoints && r.value.deviceId == deviceId
                          && forall x :: x in setpoints && x.deviceId == deviceId ==>
                                           x.timestamp <= r.value.timestamp
    {
      var mine := Rows.Select(setpoints, SetpointDevice, deviceId);
      assert mine != [] ==> mine[0] in mine;
      Rows.Latest(mine, SetpointTime)
    }

    // The count-based existence checks that gate room and device creation.

    /** `SELECT COUNT(id) FROM Site WHERE id = ?`: zero exactly when no site has that id. */
    function SiteCount(id: Id): (n: nat)
      ensures n == 0 <==> forall s :: s in sites ==> s.id != id
    {
      Rows.Count(sites, SiteKey, id)
    }

    /** `SELECT COUNT(id) FROM Room WHERE id = ?`: zero exactly when no room has that id. */
    function RoomCount(id: Id): (n: nat)
      ensures n == 0 <==> forall r :: r in rooms ==> r.id != id
    {
      Rows.Count(rooms, RoomKey, id)
    }

    // One INSERT each: the row is appended and only its own table's counter moves.

    function WithSite(s: Site): Tables
    {
      this.(sites := sites + [s], nextSiteId := nextSiteId + 1)
    }

    function WithRoom(r: Room): Tables
    {
      this.(rooms := rooms + [r], nextRoomId := nextRoomId + 1)
    }

    function WithDevice(d: Device): Tables
    {
      this.(devices := devices + [d], nextDeviceId := nextDeviceId + 1)
    }

    function WithSensorReading(x: SensorReading): Tables
    {
      this.(readings := readings + [x], nextReadingId := nextReadingId + 1)
    }

    function WithControlSetpoint(x: ControlSetpoint): Tables
    {
      this.(setpoints := setpoints + [x], nextSetpointId := nextSetpointId + 1)
    }
  }

  /** The tables of a new, empty database: every counter starts at 1. */
  function EmptyTables(): (t: Tables)
    ensures t.Valid()
  {
    Tables([], [], [], [], [], 1, 1, 1, 1, 1)
  }

  lemma SiteInsertKeepsValid(t: Tables, s: Site)
    requires t.Valid() && s.id == t.nextSiteId
    ensures t.WithSite(s).Valid()
  {
    Rows.AppendKeepsKeysAscending(t.sites, SiteKey, t.nextSiteId, s);
    var t' := t.WithSite(s);
    forall r | r in t'.rooms ensures exists x :: x in t'.sites && x.id == r.siteId {
      var x :| x in t.sites && x.id == r.siteId;
      assert x in t'.sites;
    }
  }

  /** A room whose site exists keeps every room's site in place. */
  lemma RoomInsertKeepsValid(t: Tables, r: Room)
    requires t.Valid() && r.id == t.nextRoomId
    requires t.SiteCount(r.siteId) != 0
    ensures t.WithRoom(r).Valid()
  {
    Rows.AppendKeepsKeysAscending(t.rooms, RoomKey, t.nextRoomId, r);
    var t' := t.WithRoom(r);
    forall d | d in t'.devices ensures exists x :: x in t'.rooms && x.id == d.roomId {
      var x :| x in t.rooms && x.id == d.roomId;
      assert x in t'.rooms;
    }
  }

  /** A device whose room exists keeps every device's room in place. */
  lemma DeviceInsertKeepsValid(t: Tables, d: Device)
    requires t.Valid() && d.id == t.nextDeviceId
    requires t.RoomCount(d.roomId) != 0
    ensures t.WithDevice(d).Valid()
  {
    Rows.AppendKeepsKeysAscending(t.devices, DeviceKey, t.nextDeviceId, d);
  }

  /** A reading keeps the tables valid whatever device it names: nothing is checked. */
  lemma SensorReadingInsertKeepsValid(t: Tables, x: SensorReading)
    requires t.Valid() && x.id == t.nextReadingId
    ensures t.WithSensorReading(x).Valid()
  {
    Rows.AppendKeepsKeysAscending(t.readings, ReadingKey, t.nextReadingId, x);
  }

  /** A setpoint keeps the tables valid whatever device it names: nothing is checked. */
  lemma ControlSetpointInsertKeepsValid(t: Tables, x: ControlSetpoint)
    requires t.Valid() && x.id == t.nextSetpointId
    ensures t.WithControlSetpoint(x).Valid()
  {
    Rows.AppendKeepsKeysAscending(t.setpoints, SetpointKey, t.nextSetpointId, x);
  }

  /** In valid tables, `site(id)` and `room(id)` find every stored row by its own id. */
  lemma LookupFindsStoredRows(t: Tables, s: Site, r: Room)
    requires t.Valid()
    ensures s in t.sites ==> t.SiteById(s.id) == Some(s)
    ensures r in t.rooms ==> t.RoomById(r.id) == Some(r)
  {
    if s in t.sites { Rows.FindStored(t.sites, SiteKey, t.nextSiteId, s); }
    if r in t.rooms { Rows.FindStored(t.rooms, RoomKey, t.nextRoomId, r); }
  }

  /**
   * A room created under an existing site is read back by `room(id)` and shows up
   * in that site's `rooms`, next to the rooms it already had.
   */
  lemma CreatedRoomIsVisible(t: Tables, r: Room, site: Site)
    requires t.Valid() && r.id == t.nextRoomId
    requires site in t.sites && site.id == r.siteId
    ensures t.WithRoom(r).RoomById(r.id) == Some(r)
    ensures site.Rooms(t.WithRoom(r).rooms) == site.Rooms(t.rooms) + [r]
  {
    RoomInsertKeepsValid(t, r);
    LookupFindsStoredRows(t.WithRoom(r), site, r);
    Rows.SelectAppend(t.rooms, [r], RoomSite, site.id);
  }

  /**
   * A device created in an existing room is read back by `devices_in_room` and by
   * `Room.devices`, after the devices the room already had.
   */
  lemma CreatedDeviceIsVisible(t: Tables, d: Device, room: Room)
    requires t.Valid() && d.id == t.nextDeviceId
    requires room in t.rooms && room.id == d.roomId
    ensures t.WithDevice(d).DevicesInRoom(d.roomId) == t.DevicesInRoom(d.roomId) + [d]
    ensures room.Devices(t.WithDevice(d).devices) == room.Devices(t.devices) + [d]
  {
    Rows.SelectAppend(t.devices, [d], DeviceRoom, d.roomId);
  }

  /**
   * A reading stamped no earlier than every stored reading of its device becomes
   * what `latest_sensor_reading` reports for that device, up to ties in timestamp.
   */
  lemma NewestReadingIsLatest(t: Tables, x: SensorReading)
    requires forall y :: y in t.readings && y.deviceId == x.deviceId ==> y.timestamp <= x.timestamp
    ensures t.WithSensorReading(x).LatestSensorReading(x.deviceId).Some?
    ensures t.WithSensorReading(x).LatestSensorReading(x.deviceId).value.timestamp == x.timestamp
  {
    assert x in t.WithSensorReading(x).readings;
  }

  /** The service's store: five tables and their id counters, updated in place. */
  class Store {
    var sites: seq<Site>
    var rooms: seq<Room>
    var devices: seq<Device>
    var readings: seq<SensorReading>
    var setpoints: seq<ControlSetpoint>
    var nextSiteId: Id
    var nextRoomId: Id
    var nextDeviceId: Id
    var nextReadingId: Id
    var nextSetpointId: Id

    function State(): Tables
      reads this
    {
      Tables(sites, rooms, devices, readings, setpoints,
             nextSiteId, nextRoomId, nextDeviceId, nextReadingId, nextSetpointId)
    }

    ghost predicate Valid()
      reads this
    {
      State().Valid()
    }

    /** A store over an empty, freshly migrated database. */
    constructor ()
      ensures Valid() && State() == EmptyTables()
    {
      sites, rooms, devices, readings, setpoints := [], [], [], [], [];
      nextSiteId, nextRoomId, nextDeviceId, nextReadingId, nextSetpointId := 1, 1, 1, 1, 1;
    }

    /** A private working copy of another store's tables. */
    constructor Copy(other: Store)
      ensures State() == other.State()
    {
      sites, rooms, devices := other.sites, other.rooms, other.devices;
      readings, setpoints := other.readings, other.setpoints;
      nextSiteId, nextRoomId, nextDeviceId := other.nextSiteId, other.nextRoomId, other.nextDeviceId;
      nextReadingId, nextSetpointId := other.nextReadingId, other.nextSetpointId;
    }

    /** Opens a transaction: its writes go to a fresh copy until it is committed. */
    method Begin() returns (tx: Store)
      ensures fresh(tx) && tx.State() == State()
    {
      tx := new Store.Copy(this);
    }

    /** Commits a transaction: its tables replace this store's. */
    method Commit(tx: Store)
      modifies this
      ensures State() == old(tx.State())
    {
      sites, rooms, devices := tx.sites, tx.rooms, tx.devices;
      readings, setpoints := tx.readings, tx.setpoints;
      nextSiteId, nextRoomId, nextDeviceId := tx.nextSiteId, tx.nextRoomId, tx.nextDeviceId;
      nextReadingId, nextSetpointId := tx.nextReadingId, tx.nextSetpointId;
    }

    // The INSERT ... RETURNING statements. `at` is the time written into the row's
    // timestamp columns (the database default for the mutations, `now` when seeding).

    method InsertSite(name: string, address: Option<string>, at: Timestamp) returns (s: Site)
      modifies this
      ensures s == Site(old(nextSiteId), name, address, at, at)
      ensures State() == old(State()).WithSite(s)
    {
      s := Site(nextSiteId, name, address, at, at);
      sites := sites + [s];
      nextSiteId := nextSiteId + 1;
    }

    method InsertRoom(siteId: Id, name: string, at: Timestamp) returns (r: Room)
      modifies this
      ensures r == Room(old(nextRoomId), siteId, name, at, at)
      ensures State() == old(State()).WithRoom(r)
    {
      r := Room(nextRoomId, siteId, name, at, at);
      rooms := rooms + [r];
      nextRoomId := nextRoomId + 1;
    }

    method InsertDevice(roomId: Id, name: string, deviceType: DeviceType,
                        uniqueIdentifier: Option<string>, at: Timestamp) returns (d: Device)
      modifies this
      ensures d == Device(old(nextDeviceId), roomId, name, deviceType, uniqueIdentifier, at, at)
      ensures State() == old(State()).WithDevice(d)
    {
      d := Device(nextDeviceId, roomId, name, deviceType, uniqueIdentifier, at, at);
      devices := devices + [d];
      nextDeviceId := nextDeviceId + 1;
    }

    method InsertSensorReading(deviceId: Id, value: string, unit: Option<SensorUnit>,
                               at: Timestamp) returns (x: SensorReading)
      modifies this
      ensures x == SensorReading(old(nextReadingId), deviceId, value, unit, at, at, at)
      ensures State() == old(State()).WithSensorReading(x)
    {
      x := SensorReading(nextReadingId, deviceId, value, unit, at, at, at);
      readings := readings + [x];
      nextReadingId := nextReadingId + 1;
    }

    method InsertControlSetpoint(deviceId: Id, setpointType: SetpointType, value: string,
                                 unit: Option<SetpointUnit>, at: Timestamp)
      returns (x: ControlSetpoint)
      modifies this
      ensures x == ControlSetpoint(old(nextSetpointId), deviceId, setpointType, value, unit, at, at, at)
      ensures State() == old(State()).WithControlSetpoint(x)
    {
      x := ControlSetpoint(nextSetpointId, deviceId, setpointType, value, unit, at, at, at);
      setpoints := setpoints + [x];
      nextSetpointId := nextSetpointId + 1;
    }

    // Root mutations. `now` is the database clock that fills the default columns.

    /** `create_site`: inserts without any check and returns the new row. */
    method CreateSite(input: SiteInput, now: Timestamp) returns (s: Site)
      requires Valid()
      modifies this
      ensures Valid()
      ensures s.id == old(nextSiteId) && s.name == input.name && s.address == input.address
      ensures s.createdAt == now && s.updatedAt == now
      ensures State() == old(State()).WithSite(s)
    {
      SiteInsertKeepsValid(State(), Site(nextSiteId, input.name, input.address, now, now));
      s := InsertSite(input.name, input.address, now);
    }

    /**
     * `create_room`: counts the sites with the input's site id first, and on zero
     * returns the error without writing; otherwise inserts and returns the room.
     */
    method CreateRoom(input: RoomInput, now: Timestamp) returns (r: Result<Room, MutationError>)
      requires Valid()
      modifies this
      ensures Valid()
      ensures r.Failure? <==> forall s :: s in old(sites) ==> s.id != input.siteId
      ensures r.Failure? ==> r.error == MissingParent(SiteParent, input.siteId)
                             && State() == old(State())
      ensures r.Success? ==> && r.value.id == old(nextRoomId)
                             && r.value.siteId == input.siteId && r.value.name == input.name
                             && r.value.createdAt == now && r.value.updatedAt == now
                             && State() == old(State()).WithRoom(r.value)
    {
      if State().SiteCount(input.siteId) == 0 {
        return Failure(MissingParent(SiteParent, input.siteId));
      }
      RoomInsertKeepsValid(State(), Room(nextRoomId, input.siteId, input.name, now, now));
      var room := InsertRoom(input.siteId, input.name, now);
      return Success(room);
    }

    /**
     * `create_device`: counts the rooms with the input's room id first, and on zero
     * returns the error without writing; otherwise inserts and returns the device.
     */
    method CreateDevice(input: DeviceInput, now: Timestamp) returns (r: Result<Device, MutationError>)
      requires Valid()
      modifies this
      ensures Valid()
      ensures r.Failure? <==> forall x :: x in old(rooms) ==> x.id != input.roomId
      ensures r.Failure? ==> r.error == MissingParent(RoomParent, input.roomId)
                             && State() == old(State())
      ensures r.Success? ==> && r.value.id == old(nextDeviceId)
                             && r.value.roomId == input.roomId && r.value.name == input.name
                             && r.value.deviceType == input.deviceType
                             && r.value.uniqueIdentifier == input.uniqueIdentifier
                             && r.value.createdAt == now && r.value.updatedAt == now
                             && State() == old(State()).WithDevice(r.value)
    {
      if State().RoomCount(input.roomId) == 0 {
        return Failure(MissingParent(RoomParent, input.roomId));
      }
      DeviceInsertKeepsValid(State(), Device(nextDeviceId, input.roomId, input.name,
                                             input.deviceType, input.uniqueIdentifier, now, now));
      var device := InsertDevice(input.roomId, input.name, input.deviceType,
                                 input.uniqueIdentifier, now);
      return Success(device);
    }

    /**
     * `create_sensor_reading`: inserts for any device id, existing or not, and
     * returns the row with the value text exactly as given.
     */
    method CreateSensorReading(input: SensorReadingInput, now: Timestamp) returns (x: SensorReading)
      requires Valid()
      modifies this
      ensures Valid()
      ensures x.id == old(nextReadingId) && x.deviceId == input.deviceId
      ensures x.value == input.value && x.unit == input.unit
      ensures x.timestamp == now && x.createdAt == now && x.updatedAt == now
      ensures State() == old(State()).WithSensorReading(x)
    {
      SensorReadingInsertKeepsValid(State(), SensorReading(nextReadingId, input.deviceId,
                                                           input.value, input.unit, now, now, now));
      x := InsertSensorReading(input.deviceId, input.value, input.unit, now);
    }

    /**
     * `create_control_setpoint`: inserts for any device id, existing or not, and
     * returns the row with the value text exactly as given.
     */
    method CreateControlSetpoint(input: ControlSetpointInput, now: Timestamp)
      returns (x: ControlSetpoint)
      requires Valid()
      modifies this
      ensures Valid()
      ensures x.id == old(nextSetpointId) && x.deviceId == input.deviceId
      ensures x.setpointType == input.setpointType && x.value == input.value && x.unit == input.unit
      ensures x.timestamp == now && x.createdAt == now && x.updatedAt == now
      ensures State() == old(State()).WithControlSetpoint(x)
    {
      ControlSetpointInsertKeepsValid(State(), ControlSetpoint(nextSetpointId, input.deviceId,
                                                               input.setpointType, input.value,
                                                               input.unit, now, now, now));
      x := InsertControlSetpoint(input.deviceId, input.setpointType, input.value, input.unit, now);
    }
  }
}
