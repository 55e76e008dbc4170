/**
 * The seed routine: one transaction that writes a whole hierarchy (a site, a
 * room, a temperature sensor and its setpoint) and 100 synthetic readings, and
 * either commits all of it or leaves the store as it was.
 *
 * What the routine cannot see from the store is passed in: the clock's `now`,
 * the random offsets (in tenths of a degree) and the statement, if any, at which
 * the database reports an error.
 */
module Seed {
  import opened Wrappers
  import opened Models
  import opened Schema
  import Format

  const ReadingCount: nat := 100
  const MinutesBetweenReadings: int := 5

  /** 22.5 degrees in tenths: the setpoint value, and the fallback baseline. */
  const DefaultBaseline: int := 225

  /**
   * Statements of one seeding, in order: 0 opens the transaction, 1 to 4 insert the
   * site, room, device and setpoint, 5 to 104 the readings, and 105 commits.
   */
  const CommitStatement: nat := 5 + ReadingCount

  datatype StorageError = StorageError(statement: nat)

  /** The setpoint's value read as a number of tenths, 22.5 when it does not parse. */
  function Baseline(value: string): (b: int)
    ensures forall t :: value == Format.TenthsText(t) ==> b == t
    ensures Format.ParseTenths(value).None? ==> b == DefaultBaseline
  {
    Format.TenthsTextParses();
    match Format.ParseTenths(value)
    case Some(t) => t
    case None => DefaultBaseline
  }

  /** What the random generator yields: 100 offsets in [-1.0, 1.0], in tenths. */
  predicate ValidOffsets(offsets: seq<int>)
  {
    |offsets| == ReadingCount && forall i :: 0 <= i < |offsets| ==> -10 <= offsets[i] <= 10
  }

  // The rows one seeding writes into tables `t`, all stamped `now`.

  function SeedSite(t: Tables, now: Timestamp): Site
  {
    Site(t.nextSiteId, "Main Office Site", Some("123 Main St, Anytown, USA"), now, now)
  }

  function SeedRoom(t: Tables, now: Timestamp): Room
  {
    Room(t.nextRoomId, t.nextSiteId, "Server Room", now, now)
  }

  function SeedDevice(t: Tables, now: Timestamp): Device
  {
    Device(t.nextDeviceId, t.nextRoomId, "Server Room Temperature Sensor",
           TemperatureSensor, None, now, now)
  }

  function SeedSetpoint(t: Tables, now: Timestamp): ControlSetpoint
  {
    ControlSetpoint(t.nextSetpointId, t.nextDeviceId, Temperature, "22.5",
                    Some(SetpointUnit.Celsius), now, now, now)
  }

  /**
   * The readings, one per offset, with ids from `firstId`. Every one is stamped
   * `now`: the running timestamp the routine advances is never written.
   */
  function SeedReadings(firstId: Id, deviceId: Id, now: Timestamp, base: int,
                        offsets: seq<int>): seq<SensorReading>
  {
    seq(|offsets|, i requires 0 <= i < |offsets| =>
          SensorReading(firstId + i, deviceId, Format.TenthsText(base + offsets[i]),
                        Some(SensorUnit.Celsius), now, now, now))
  }

  /** The tables after the hierarchy's four inserts. */
  function SeedHierarchy(t: Tables, now: Timestamp): Tables
  {
    t.WithSite(SeedSite(t, now)).WithRoom(SeedRoom(t, now))
     .WithDevice(SeedDevice(t, now)).WithControlSetpoint(SeedSetpoint(t, now))
  }

  /**
   * The tables after one committed seeding of `t`. The readings are written around
   * the baseline parsed from the seeded setpoint, which SeedBaseline shows is 22.5.
   */
  function Seeded(t: Tables, now: Timestamp, offsets: seq<int>): Tables
  {
    var h := SeedHierarchy(t, now);
    var rs := SeedReadings(h.nextReadingId, h.nextDeviceId - 1, now, DefaultBaseline, offsets);
    h.(readings := h.readings + rs, nextReadingId := h.nextReadingId + |rs|)
  }

  /** The stored setpoint "22.5" parses, so the baseline is 22.5 itself. */
  lemma SeedBaseline()
    ensures Baseline("22.5") == DefaultBaseline
  {
    Format.TenthsTextRoundTrip(225);
    assert Format.DigitChar(2) == '2' && Format.DigitChar(5) == '5';
    assert Format.NatText(2) == "2";
    assert Format.NatText(22) == Format.NatText(2) + "2" == "22";
    assert Format.TenthsText(225) == "22" + "." + "5" == "22.5";
  }

  /**
   * One seeding adds exactly one site, room, device and setpoint and 100 readings,
   * chained by foreign key, with the fixed names, types and units, every row stamped
   * `now`, and every reading's value within 1.0 of the 22.5 baseline.
   */
  lemma SeedAddsOneHierarchy(t: Tables, now: Timestamp, offsets: seq<int>)
    requires ValidOffsets(offsets)
    ensures var t' := Seeded(t, now, offsets);
      && t'.sites == t.sites + [SeedSite(t, now)]
      && t'.rooms == t.rooms + [SeedRoom(t, now)]
      && t'.devices == t.devices + [SeedDevice(t, now)]
      && t'.setpoints == t.setpoints + [SeedSetpoint(t, now)]
      && |t'.readings| == |t.readings| + 100
      && t'.readings[..|t.readings|] == t.readings
    ensures SeedRoom(t, now).siteId == SeedSite(t, now).id
    ensures SeedDevice(t, now).roomId == SeedRoom(t, now).id
    ensures SeedSetpoint(t, now).deviceId == SeedDevice(t, now).id
    ensures var t' := Seeded(t, now, offsets);
      forall i :: |t.readings| <= i < |t'.readings| ==>
        && t'.readings[i].deviceId == SeedDevice(t, now).id
        && t'.readings[i].unit == Some(SensorUnit.Celsius)
        && t'.readings[i].timestamp == now
        && t'.readings[i].createdAt == now && t'.readings[i].updatedAt == now
        && Format.ParseTenths(t'.readings[i].value).Some?
        && DefaultBaseline - 10 <= Format.ParseTenths(t'.readings[i].value).value <= DefaultBaseline + 10
  {
    SeedBaseline();
    var t' := Seeded(t, now, offsets);
    var n := |t.readings|;
    forall i | n <= i < |t'.readings|
      ensures Format.ParseTenths(t'.readings[i].value) == Some(DefaultBaseline + offsets[i - n])
    {
      Format.TenthsTextRoundTrip(DefaultBaseline + offsets[i - n]);
    }
  }

  lemma {:induction false} SeedReadingsKeysAscending(t: Tables, rs: seq<SensorReading>)
    requires Rows.KeysAscending(t.readings, ReadingKey, t.nextReadingId)
    requires forall i :: 0 <= i < |rs| ==> rs[i].id == t.nextReadingId + i
    ensures Rows.KeysAscending(t.readings + rs, ReadingKey, t.nextReadingId + |rs|)
  {
    var s := t.readings + rs;
    var n := |t.readings|;
    forall i, j | 0 <= i < j < |s| ensures s[i].id < s[j].id {
      if j >= n && i < n { assert s[i] in t.readings; }
    }
    forall x | x in s ensures 1 <= x.id < t.nextReadingId + |rs| {
      var k :| 0 <= k < |s| && s[k] == x;
      if k < n { assert x in t.readings; }
    }
  }

  lemma SeedHierarchyKeepsValid(t: Tables, now: Timestamp)
    requires t.Valid()
    ensures SeedHierarchy(t, now).Valid()
  {
    var site, room, device := SeedSite(t, now), SeedRoom(t, now), SeedDevice(t, now);
    SiteInsertKeepsValid(t, site);
    var t1 := t.WithSite(site);
    assert site in t1.sites;
    RoomInsertKeepsValid(t1, room);
    var t2 := t1.WithRoom(room);
    assert room in t2.rooms;
    DeviceInsertKeepsValid(t2, device);
    var t3 := t2.WithDevice(device);
    ControlSetpointInsertKeepsValid(t3, SeedSetpoint(t, now));
  }

  /** Seeding keeps ids ascending and every room's site and device's room present. */
  lemma SeedKeepsValid(t: Tables, now: Timestamp, offsets: seq<int>)
    requires t.Valid()
    ensures Seeded(t, now, offsets).Valid()
  {
    var h := SeedHierarchy(t, now);
    SeedHierarchyKeepsValid(t, now);
    var rs := SeedReadings(h.nextReadingId, h.nextDeviceId - 1, now, DefaultBaseline, offsets);
    SeedReadingsKeysAscending(h, rs);
    assert Seeded(t, now, offsets) == h.(readings := h.readings + rs,
                                         nextReadingId := h.nextReadingId + |rs|);
  }

  /** The seeding's writes, table by table. */
  lemma SeededTables(t: Tables, now: Timestamp, offsets: seq<int>)
    ensures var t' := Seeded(t, now, offsets);
      && t'.sites == t.sites + [SeedSite(t, now)]
      && t'.rooms == t.rooms + [SeedRoom(t, now)]
      && t'.devices == t.devices + [SeedDevice(t, now)]
      && t'.setpoints == t.setpoints + [SeedSetpoint(t, now)]
      && t'.readings == t.readings + SeedReadings(t.nextReadingId, t.nextDeviceId, now,
                                                  DefaultBaseline, offsets)
      && t'.nextSiteId == t.nextSiteId + 1 && t'.nextRoomId == t.nextRoomId + 1
      && t'.nextDeviceId == t.nextDeviceId + 1 && t'.nextSetpointId == t.nextSetpointId + 1
      && t'.nextReadingId == t.nextReadingId + |offsets|
  {
  }

  /**
   * Read through the nested resolvers, the seeded site has exactly the seeded room,
   * which has exactly the seeded device, whose setpoints and readings are its
   * earlier ones (orphans left by unchecked inserts under the same id) followed by
   * the seeded ones.
   */
  lemma SeededHierarchyResolves(t: Tables, now: Timestamp, offsets: seq<int>)
    requires t.Valid()
    ensures var t' := Seeded(t, now, offsets);
      && SeedSite(t, now).Rooms(t'.rooms) == [SeedRoom(t, now)]
      && SeedRoom(t, now).Devices(t'.devices) == [SeedDevice(t, now)]
      && SeedDevice(t, now).ControlSetpoints(t'.setpoints)
           == SeedDevice(t, now).ControlSetpoints(t.setpoints) + [SeedSetpoint(t, now)]
      && SeedDevice(t, now).SensorReadings(t'.readings)
           == SeedDevice(t, now).SensorReadings(t.readings) + t'.readings[|t.readings|..]
  {
    SeededTables(t, now, offsets);
    NewSiteHasOnlyNewRoom(t, t.nextSiteId, SeedRoom(t, now));
    NewRoomHasOnlyNewDevice(t, t.nextRoomId, SeedDevice(t, now));
    SeededDeviceResolves(t, now, offsets);
  }

  /** The seeded device's setpoints and readings: its earlier ones, then the seeded ones. */
  lemma SeededDeviceResolves(t: Tables, now: Timestamp, offsets: seq<int>)
    ensures var t' := Seeded(t, now, offsets);
      && SeedDevice(t, now).ControlSetpoints(t'.setpoints)
           == SeedDevice(t, now).ControlSetpoints(t.setpoints) + [SeedSetpoint(t, now)]
      && SeedDevice(t, now).SensorReadings(t'.readings)
           == SeedDevice(t, now).SensorReadings(t.readings) + t'.readings[|t.readings|..]
  {
    SeededTables(t, now, offsets);
    Rows.SelectAppend(t.setpoints, [SeedSetpoint(t, now)], SetpointDevice, t.nextDeviceId);
    SeededReadingsResolve(t, now, offsets);
  }

  /** Every seeded reading belongs to the seeded device, so its readings end with all of them. */
  lemma SeededReadingsResolve(t: Tables, now: Timestamp, offsets: seq<int>)
    ensures var t' := Seeded(t, now, offsets);
      SeedDevice(t, now).SensorReadings(t'.readings)
        == SeedDevice(t, now).SensorReadings(t.readings) + t'.readings[|t.readings|..]
  {
    SeededTables(t, now, offsets);
    var rs := SeedReadings(t.nextReadingId, t.nextDeviceId, now, DefaultBaseline, offsets);
    var t' := Seeded(t, now, offsets);
    assert t'.readings == t.readings + rs;
    assert t'.readings[|t.readings|..] == rs;
    Rows.AllSelected(rs, ReadingDevice, t.nextDeviceId);
    Rows.SelectAppend(t.readings, rs, ReadingDevice, t.nextDeviceId);
  }

  /** No stored room can name a site id the counter has not handed out yet. */
  lemma NewSiteHasOnlyNewRoom(t: Tables, siteId: Id, room: Room)
    requires t.Valid() && siteId == t.nextSiteId && room.siteId == siteId
    ensures Rows.Select(t.rooms + [room], RoomSite, siteId) == [room]
  {
    forall r | r in t.rooms ensures r.siteId != siteId {
      var s :| s in t.sites && s.id == r.siteId;
    }
    Rows.NoneSelected(t.rooms, RoomSite, siteId);
    Rows.SelectAppend(t.rooms, [room], RoomSite, siteId);
  }

  /** No stored device can name a room id the counter has not handed out yet. */
  lemma NewRoomHasOnlyNewDevice(t: Tables, roomId: Id, device: Device)
    requires t.Valid() && roomId == t.nextRoomId && device.roomId == roomId
    ensures Rows.Select(t.devices + [device], DeviceRoom, roomId) == [device]
  {
    forall d | d in t.devices ensures d.roomId != roomId {
      var r :| r in t.rooms && r.id == d.roomId;
    }
    Rows.NoneSelected(t.devices, DeviceRoom, roomId);
    Rows.SelectAppend(t.devices, [device], DeviceRoom, roomId);
  }

  /**
   * The extend flag does nothing, so seeding a store twice writes two separate,
   * identical hierarchies: two new sites, each resolving to its own room only.
   */
  lemma SeedingTwiceDuplicates(t: Tables, now: Timestamp, later: Timestamp, offsets: seq<int>)
    requires t.Valid()
    ensures var t1 := Seeded(t, now, offsets);
            var t2 := Seeded(t1, later, offsets);
      && t2.sites == t.sites + [SeedSite(t, now), SeedSite(t1, later)]
      && SeedSite(t, now).id != SeedSite(t1, later).id
      && SeedSite(t, now).name == SeedSite(t1, later).name
      && SeedSite(t, now).Rooms(t2.rooms) == [SeedRoom(t, now)]
      && SeedSite(t1, later).Rooms(t2.rooms) == [SeedRoom(t1, later)]
  {
    var t1 := Seeded(t, now, offsets);
    var t2 := Seeded(t1, later, offsets);
    SeededTables(t, now, offsets);
    SeededTables(t1, later, offsets);
    assert t2.rooms == t.rooms + [SeedRoom(t, now)] + [SeedRoom(t1, later)];
    forall r | r in t.rooms ensures r.siteId < t.nextSiteId {
      var s :| s in t.sites && s.id == r.siteId;
    }
    TwoNewSitesKeepTheirRooms(t.rooms, SeedRoom(t, now), SeedRoom(t1, later));
  }

  /** Two rooms under two sites newer than every stored room's site: each site has only its own room. */
  lemma TwoNewSitesKeepTheirRooms(rooms: seq<Room>, r1: Room, r2: Room)
    requires forall r :: r in rooms ==> r.siteId < r1.siteId
    requires r1.siteId < r2.siteId
    ensures Rows.Select(rooms + [r1] + [r2], RoomSite, r1.siteId) == [r1]
    ensures Rows.Select(rooms + [r1] + [r2], RoomSite, r2.siteId) == [r2]
  {
    Rows.NoneSelected(rooms, RoomSite, r1.siteId);
    Rows.NoneSelected(rooms, RoomSite, r2.siteId);
    OnlyNewRoomSelected(rooms, r1, r1.siteId);
    OnlyNewRoomSelected(rooms, r1, r2.siteId);
    OnlyNewRoomSelected(rooms + [r1], r2, r1.siteId);
    OnlyNewRoomSelected(rooms + [r1], r2, r2.siteId);
  }

  /** Appending one room to a table with no room under `siteId` selects that room alone, or nothing. */
  lemma OnlyNewRoomSelected(rooms: seq<Room>, r: Room, siteId: Id)
    ensures Rows.Select(rooms + [r], RoomSite, siteId)
         == Rows.Select(rooms, RoomSite, siteId) + (if r.siteId == siteId then [r] else [])
  {
    Rows.SelectAppend(rooms, [r], RoomSite, siteId);
    assert Rows.Select([r], RoomSite, siteId) == if r.siteId == siteId then [r] else [];
  }

  /**
   * The loop of `seed_db`: one reading per offset, valued `base + offset` written with
   * one decimal, unit Celsius, stamped `now`. Statement `5 + i` inserts reading `i`;
   * when the database fails it, the loop stops and reports it.
   */
  method InsertSeedReadings(tx: Store, deviceId: Id, now: Timestamp, base: int,
                            offsets: seq<int>, failAt: Option<nat>) returns (failed: bool)
    modifies tx
    ensures failed <==> failAt.Some? && 5 <= failAt.value < 5 + |offsets|
    ensures !failed ==>
      tx.State() == old(tx.State()).(readings := old(tx.readings)
                                       + SeedReadings(old(tx.nextReadingId), deviceId, now, base, offsets),
                                     nextReadingId := old(tx.nextReadingId) + |offsets|)
  {
    ghost var before := tx.State();
    // The intended time of each reading: 500 minutes back, 5 minutes apart. It is
    // advanced on every round and never written into a row.
    var currentTimestamp := now - |offsets| * MinutesBetweenReadings * 60;
    var i := 0;
    while i < |offsets|
      invariant 0 <= i <= |offsets|
      invariant tx.State() == before.(readings := before.readings
                                        + SeedReadings(before.nextReadingId, deviceId, now, base, offsets[..i]),
                                      nextReadingId := before.nextReadingId + i)
      invariant currentTimestamp == now - (|offsets| - i) * MinutesBetweenReadings * 60
      invariant !(failAt.Some? && 5 <= failAt.value < 5 + i)
    {
      if failAt == Some(5 + i) { return true; }
      var value := Format.TenthsText(base + offsets[i]);
      var reading := tx.InsertSensorReading(deviceId, value, Some(SensorUnit.Celsius), now);
      assert SeedReadings(before.nextReadingId, deviceId, now, base, offsets[..i + 1])
          == SeedReadings(before.nextReadingId, deviceId, now, base, offsets[..i]) + [reading];
      currentTimestamp := currentTimestamp + MinutesBetweenReadings * 60;
      i := i + 1;
    }
    assert offsets[..i] == offsets;
    return false;
  }

  /**
   * Statements 1 to 4 of `seed_db`, inside the transaction `tx`: the site, its room,
   * the room's temperature sensor and the sensor's setpoint, each taking the id the
   * previous insert returned as its foreign key. Stops at the statement the
   * database fails.
   */
  method InsertSeedHierarchy(tx: Store, now: Timestamp, failAt: Option<nat>)
    returns (r: Option<ControlSetpoint>)
    modifies tx
    ensures r.Some? <==> !(failAt.Some? && 1 <= failAt.value <= 4)
    ensures r.Some? ==> tx.State() == SeedHierarchy(old(tx.State()), now)
    ensures r.Some? ==> r.value == SeedSetpoint(old(tx.State()), now)
  {
    ghost var t := tx.State();
    if failAt == Some(1) { return None; }
    var site := tx.InsertSite("Main Office Site", Some("123 Main St, Anytown, USA"), now);
    ghost var t1 := tx.State();

    if failAt == Some(2) { return None; }
    var room := tx.InsertRoom(site.id, "Server Room", now);
    ghost var t2 := tx.State();

    if failAt == Some(3) { return None; }
    var device := tx.InsertDevice(room.id, "Server Room Temperature Sensor",
                                  TemperatureSensor, None, now);
    ghost var t3 := tx.State();

    if failAt == Some(4) { return None; }
    var setpoint := tx.InsertControlSetpoint(device.id, Temperature, "22.5",
                                             Some(SetpointUnit.Celsius), now);
    assert t1 == t.WithSite(SeedSite(t, now));
    assert t2 == t1.WithRoom(SeedRoom(t, now));
    assert t3 == t2.WithDevice(SeedDevice(t, now));
    return Some(setpoint);
  }

  /**
   * Statements 1 to 104 of `seed_db`, inside the transaction `tx`: the hierarchy,
   * then the readings around the baseline parsed from the setpoint. Stops at the
   * statement the database fails.
   */
  method WriteSeedBatch(tx: Store, now: Timestamp, offsets: seq<int>, failAt: Option<nat>)
    returns (ok: bool)
    requires ValidOffsets(offsets)
    modifies tx
    ensures ok <==> !(failAt.Some? && 1 <= failAt.value < CommitStatement)
    ensures ok ==> tx.State() == Seeded(old(tx.State()), now, offsets)
  {
    var setpoint := InsertSeedHierarchy(tx, now, failAt);
    if setpoint.None? { return false; }
    SeedBaseline();
    var base := Baseline(setpoint.value.value);
    var failed := InsertSeedReadings(tx, setpoint.value.deviceId, now, base, offsets, failAt);
    return !failed;
  }

  /**
   * `seed_db`: on success the store holds exactly `Seeded` of what it held before;
   * when the database fails any statement up to the commit, nothing of the batch
   * remains. `shouldExtend` is accepted and ignored.
   */
  method SeedDb(store: Store, shouldExtend: bool, now: Timestamp, offsets: seq<int>,
                failAt: Option<nat>) returns (r: Result<(), StorageError>)
    requires store.Valid() && ValidOffsets(offsets)
    modifies store
    ensures store.Valid()
    ensures r.Success? <==> failAt.None? || failAt.value > CommitStatement
    ensures r.Success? ==> store.State() == Seeded(old(store.State()), now, offsets)
    ensures r.Failure? ==> r.error == StorageError(failAt.value)
                           && store.State() == old(store.State())
  {
    if failAt == Some(0) { return Failure(StorageError(0)); }
    var tx := store.Begin();
    var ok := WriteSeedBatch(tx, now, offsets, failAt);
    if !ok { return Failure(StorageError(failAt.value)); }
    if failAt == Some(CommitStatement) { return Failure(StorageError(CommitStatement)); }
    SeedKeepsValid(store.State(), now, offsets);
    store.Commit(tx);
    r := Success(());
  }
}
