# Smart-home entity graph, modelled in Dafny

The smart-home backend keeps a graph of entities in SQLite: a **Site** has
**Rooms**, a Room has **Devices**, and a Device has **SensorReadings** and
**ControlSetpoints**. A GraphQL schema exposes this graph:

- a query root: all sites, a site or a room by id, the devices of a room, and
  the latest reading or setpoint of a device;
- a mutation root: one `create_*` per entity;
- nested resolvers: `Site.rooms`, `Room.devices`, `Device.sensor_readings`
  and `Device.control_setpoints`.

A seed routine writes one demo hierarchy and 100 readings in a single
transaction. The web frontend shows readings in a table with a unit label
and 10 rows per page.

This project models these parts in Dafny.

- **`Schema.Store`** is a class with the five tables as `seq` fields and one
  auto-increment counter per table.
- **`Schema.Tables`** is a value snapshot of the store, returned by
  `Store.State()`. The queries are functions on it.
- Each mutation is a method on the store:
  - It states its result row.
  - It states the new state as "the old state with one row appended to one
    table".
  - `create_room` and `create_device` first count the parent. When the
    parent is absent they return the error, and the store is unchanged.
- `Tables.Valid()` is the invariant that every mutation preserves:
  - ids in each table are strictly ascending and below the counter;
  - every room's site exists;
  - every device's room exists.
- Rows and queries:
  - Rows are SQL rows in insertion order.
  - `WHERE` is `Rows.Select`, `COUNT` is `Rows.Count` and lookup by id is
    `Rows.Find`.
  - `ORDER BY timestamp DESC LIMIT 1` is `Rows.Latest`.
- Transactions: `Store.Begin` works on a fresh copy of the store,
  `Store.Commit` copies it back, and dropping the copy rolls back.
- The seed routine (`Seed.SeedDb`) takes as parameters what it cannot read
  from the store:
  - the clock's `now`;
  - the random offsets, as tenths of a degree;
  - the statement at which the database reports an error, if any.
- Decimal text is modelled in `Format`:
  - Rust's `{}` for integers, used in error messages;
  - `{:.1}` for the seeded reading values, in tenths;
  - a parser for each, with a round-trip lemma.
- The frontend's `get_label_for_unit` is `SensorReadingTable.UnitLabel`, and
  its page slice is `SensorReadingTable.PageWindow`, with JavaScript
  `Array.prototype.slice` semantics.

Resolvers and queries are Dafny functions over the tables, so they cannot
change any table.

### Where the model follows the code

- **Timestamps of ordinary inserts.** The `create_*` mutations do not bind
  `created_at`, `updated_at` or `timestamp`, so the database fills them in.
  The model passes in the clock value `now` and stamps the row with it.
- **Seeded readings all share one timestamp.** `seed_db` keeps a running
  `current_timestamp` that starts 500 minutes back and advances 5 minutes a
  round, but it binds `now` for every reading (sh-backend/src/seed.rs:105,
  128-134). The model does the same: every seeded reading is stamped `now`.
  The running value is kept as a local that is advanced every round but never
  written into a row.
- **The `_should_extend` flag has no effect.** `Seed.SeedDb` takes it, and
  none of its postconditions depend on it.
- **Ties in "latest".** SQL leaves the order of rows with equal timestamps
  open. `Rows.Latest` returns the first of them in insertion order. The
  contracts promise only "a row with the maximal timestamp".

### Where the model departs from the code

- **Table names differ.** The nested resolvers read `sensor_reading` and
  `control_setpoint`, while the mutations write `SensorReading` and
  `ControlSetpoint`. The model does not follow this: it gives both the
  intended meaning, one table filtered by `device_id`. The mismatch is noted
  on `Device.SensorReadings` and `Device.ControlSetpoints`.
- **RETURNING columns of four mutations.** `create_room`, `create_device`,
  `create_sensor_reading` and `create_control_setpoint` run their INSERT
  through the runtime `sqlx::query_as::<_, T>` (sh-backend/src/schema.rs:149,
  178, 200, 221). Their RETURNING clauses still use the compile-time macro's
  column aliases, such as `created_at as "created_at!: DateTime<Utc>"`
  (sh-backend/src/schema.rs:153, 182, 204, 225), along with
  `"device_type: DeviceType"`, `"unit: SensorUnit"` and
  `"setpoint_type: SetpointType"`. The runtime function takes such an alias
  as a plain column name, so the row decoder, which looks up `created_at`
  and the other fields by name, would not find them. Read as written, these
  four mutations would insert the row and then report a decoding error. The
  model does not follow this: `Store.CreateRoom`, `Store.CreateDevice`,
  `Store.CreateSensorReading` and `Store.CreateControlSetpoint` return the
  inserted row, which is the evident intent. `create_site` uses the macro
  and the seed routine returns plain column names, so neither is affected.

## Model

| member | source | states |
|---|---|---|
| Models.ParseDeviceType | sh-backend/src/models.rs:6-11 | a stored device-type text decodes to the variant with exactly that PascalCase name, and to nothing when no variant has that name |
| Models.ParseSensorUnit | sh-backend/src/models.rs:13-18 | a stored sensor-unit text decodes to the variant with that name, and to nothing otherwise |
| Models.ParseSetpointType | sh-backend/src/models.rs:20-24 | a stored setpoint-type text decodes to the variant with that name, and to nothing otherwise |
| Models.ParseSetpointUnit | sh-backend/src/models.rs:26-31 | a stored setpoint-unit text decodes to the variant with that name, and to nothing otherwise |
| Models.EnumNamesRoundTrip | sh-backend/src/models.rs:6-31 | each of the four closed enums, stored under its variant's name and read back, gives the same variant |
| Models.Site.Rooms | sh-backend/src/models.rs:100-107 | `Site.rooms` holds exactly the stored rooms whose site_id is the site's id |
| Models.Room.Devices | sh-backend/src/models.rs:112-119 | `Room.devices` holds exactly the stored devices whose room_id is the room's id |
| Models.Device.SensorReadings | sh-backend/src/models.rs:124-132 | `Device.sensor_readings` holds exactly the readings whose device_id is the device's id |
| Models.Device.ControlSetpoints | sh-backend/src/models.rs:134-143 | `Device.control_setpoints` holds exactly the setpoints whose device_id is the device's id |
| Models.DevicesInRoom | sh-backend/src/models.rs:112-119 | the devices filtered by room_id are exactly the stored devices of that room |
| Models.DevicesReadingsChain | sh-backend/src/models.rs:124-132 | readings gathered device by device over a list of devices are exactly the readings of some device in that list |
| Models.RoomsReadingsChain | sh-backend/src/models.rs:112-132 | readings gathered through rooms, then devices, are exactly the readings of a device whose room is in the list |
| Models.SiteReadingsChain | sh-backend/src/models.rs:100-132 | a reading is reached by site → rooms → devices → sensor_readings if and only if it is stored and its device lies in a room of that site, so siblings never mix |
| Rows.Select | sh-backend/src/models.rs:100-107 | the `WHERE key = k` filter returns every stored row with that key exactly as many times as it is stored, and no other row |
| Rows.SelectKeepsOrder | sh-backend/src/models.rs:100-107 | the filtered rows are a subsequence of the table: they come in storage order |
| Rows.NoneSelected | sh-backend/src/models.rs:100-107 | a filter that no stored row matches returns nothing |
| Rows.AllSelected | sh-backend/src/models.rs:124-132 | a filter that every stored row matches returns the whole table |
| Rows.Count | sh-backend/src/schema.rs:137-142 | `SELECT COUNT(id) … WHERE id = ?` is zero exactly when no row has that key |
| Rows.Find | sh-backend/src/schema.rs:28-51 | a lookup by key finds nothing exactly when no row has the key, and otherwise a stored row with that key |
| Rows.Latest | sh-backend/src/schema.rs:75-88 | `ORDER BY timestamp DESC LIMIT 1` is empty only on an empty table, and otherwise gives a stored row whose timestamp no other row exceeds |
| Rows.AppendKeepsKeysAscending | sh-backend/src/schema.rs:149-159 | appending a row whose id is the counter keeps ids strictly ascending and below the advanced counter |
| Rows.FindStored | sh-backend/src/schema.rs:28-51 | with ascending ids, looking up a stored row's id returns that very row |
| Rows.SelectAppend | sh-backend/src/models.rs:100-107 | the filter of a table grown by appends is the old filter followed by the filter of the appended rows |
| Format.NatText | sh-backend/src/schema.rs:143-146 | a non-negative integer prints as a non-empty string of digits |
| Format.ParseNat | sh-backend/src/seed.rs:107 | a text parses as a natural number exactly when it is a non-empty run of digits |
| Format.NatTextRoundTrip | sh-backend/src/schema.rs:143-146 | printing a natural number and parsing it back gives the number |
| Format.IntTextRoundTrip | sh-backend/src/schema.rs:143-146 | an i64 printed with `{}`, negative sign included, parses back to itself |
| Format.IntTextInjective | sh-backend/src/schema.rs:172-175 | two ids that print the same are the same id |
| Format.IntText | sh-backend/src/schema.rs:144 | `{}` writes an i64 as a non-empty text, starting with '-' exactly when it is negative, followed by digits only |
| Format.TenthsText | sh-backend/src/seed.rs:111 | `{:.1}` writes a sign exactly for negative values and ends in '.' and one digit |
| Format.ParseUnsignedTenths | sh-backend/src/seed.rs:107 | accepts exactly the texts of the form digits '.' digit |
| Format.ParseTenths | sh-backend/src/seed.rs:107 | accepts exactly an optional '-' followed by digits '.' digit, with the sign of the result following the text's sign |
| Format.TenthsTextParses | sh-backend/src/seed.rs:107-111 | every text `{:.1}` writes parses back to the number of tenths it was written from |
| Format.UnsignedTenthsRoundTrip | sh-backend/src/seed.rs:111 | a non-negative number of tenths written with one decimal parses back to itself |
| Format.TenthsTextRoundTrip | sh-backend/src/seed.rs:107-111 | any number of tenths written with `{:.1}` parses back to the same number |
| Schema.MessageIdentifiesError | sh-backend/src/schema.rs:143-146 | the "Site/Room with ID {id} does not exist" messages name the parent kind and id unambiguously: equal messages mean equal errors |
| Schema.Message | sh-backend/src/schema.rs:143-146 | the field error text begins with the parent kind, and its id part parses back to the id that was looked up |
| Schema.Tables.Sites | sh-backend/src/schema.rs:14-26 | `sites` returns every stored site and nothing else |
| Schema.Tables.SiteById | sh-backend/src/schema.rs:28-35 | `site(id)` is None exactly when no site has that id, and otherwise a stored site with that id |
| Schema.Tables.RoomById | sh-backend/src/schema.rs:37-51 | `room(id)` is None exactly when no room has that id, and otherwise a stored room with that id |
| Schema.Tables.DevicesInRoom | sh-backend/src/schema.rs:53-67 | `devices_in_room(r)` returns exactly the devices whose room_id is r |
| Schema.Tables.LatestSensorReading | sh-backend/src/schema.rs:69-89 | None exactly when the device has no reading; otherwise a reading of that device whose timestamp is at least that of every other reading of the device |
| Schema.Tables.LatestControlSetpoint | sh-backend/src/schema.rs:91-111 | None exactly when the device has no setpoint; otherwise a setpoint of that device with the maximal timestamp among its setpoints |
| Schema.Tables.SiteCount | sh-backend/src/schema.rs:137-142 | the site-existence count is zero exactly when no site has the id |
| Schema.Tables.RoomCount | sh-backend/src/schema.rs:166-171 | the room-existence count is zero exactly when no room has the id |
| Schema.EmptyTables | sh-backend/src/main.rs:41-44 | the freshly migrated, empty database satisfies the store invariant |
| Schema.SiteInsertKeepsValid | sh-backend/src/schema.rs:118-133 | inserting a site under the next id preserves the store invariant |
| Schema.RoomInsertKeepsValid | sh-backend/src/schema.rs:135-162 | inserting a room whose site has a non-zero count preserves the invariant, so every room's site exists |
| Schema.DeviceInsertKeepsValid | sh-backend/src/schema.rs:164-192 | inserting a device whose room has a non-zero count preserves the invariant, so every device's room exists |
| Schema.SensorReadingInsertKeepsValid | sh-backend/src/schema.rs:194-213 | inserting a reading, for any device id, preserves the invariant |
| Schema.ControlSetpointInsertKeepsValid | sh-backend/src/schema.rs:215-235 | inserting a setpoint, for any device id, preserves the invariant |
| Schema.LookupFindsStoredRows | sh-backend/src/schema.rs:28-51 | in a valid store, `site(id)` and `room(id)` of a stored row's id return exactly that row |
| Schema.CreatedRoomIsVisible | sh-backend/src/schema.rs:149-161 | after a room is created, `room(id)` returns it and its site's `rooms` gains exactly that room at the end |
| Schema.CreatedDeviceIsVisible | sh-backend/src/schema.rs:178-191 | after a device is created, `devices_in_room` and `Room.devices` gain exactly that device at the end |
| Schema.NewestReadingIsLatest | sh-backend/src/schema.rs:194-213 | a reading no older than the device's other readings is, once inserted, reported as latest (up to equal timestamps) |
| Schema.Store.constructor | sh-backend/src/main.rs:41-44 | a store over the freshly migrated database is empty and valid |
| Schema.Store.Begin | sh-backend/src/seed.rs:14 | a transaction starts from a fresh copy of the store's state |
| Schema.Store.Commit | sh-backend/src/seed.rs:141 | committing replaces the store's state by the transaction's |
| Schema.Store.InsertSite | sh-backend/src/schema.rs:120-131 | the INSERT returns the row under the next id, and the only change is that row appended to Site with the counter advanced |
| Schema.Store.InsertRoom | sh-backend/src/schema.rs:149-159 | the INSERT returns the row under the next id, and the only change is that row appended to Room |
| Schema.Store.InsertDevice | sh-backend/src/schema.rs:178-189 | the INSERT returns the row under the next id, and the only change is that row appended to Device |
| Schema.Store.InsertSensorReading | sh-backend/src/schema.rs:200-210 | the INSERT returns the row under the next id, and the only change is that row appended to SensorReading |
| Schema.Store.InsertControlSetpoint | sh-backend/src/schema.rs:221-233 | the INSERT returns the row under the next id, and the only change is that row appended to ControlSetpoint |
| Schema.Store.CreateSite | sh-backend/src/schema.rs:118-133 | returns a site whose name and optional address are the input's, appended under the next id; no other table changes; the invariant holds |
| Schema.Store.CreateRoom | sh-backend/src/schema.rs:135-162 | fails exactly when no site has the input's site_id, with that id in the error and the store unchanged; otherwise returns a room with the input's site_id and name, and only the Room table grows by that row |
| Schema.Store.CreateDevice | sh-backend/src/schema.rs:164-192 | fails exactly when no room has the input's room_id, with the store unchanged; otherwise returns a device with the input's room_id, name, type and unique identifier, and only the Device table grows |
| Schema.Store.CreateSensorReading | sh-backend/src/schema.rs:194-213 | succeeds for any device id, with no existence check; returns a reading whose device_id, text value and unit are the input's, and only SensorReading grows |
| Schema.Store.CreateControlSetpoint | sh-backend/src/schema.rs:215-235 | succeeds for any device id; returns a setpoint whose device_id, type, text value and unit are the input's, and only ControlSetpoint grows |
| Seed.SeedBaseline | sh-backend/src/seed.rs:107 | the setpoint value "22.5" parses to the baseline of 22.5 degrees |
| Seed.Baseline | sh-backend/src/seed.rs:107 | the baseline read from a value written with one decimal is that value, and a value that does not parse gives 22.5 |
| Seed.SeedAddsOneHierarchy | sh-backend/src/seed.rs:20-139 | one seeding adds exactly one site, room, device and setpoint and 100 readings; the foreign keys chain site → room → device → setpoint and readings; every reading is Celsius and stamped `now`; each value parses within 1.0 of 22.5 |
| Seed.SeedReadingsKeysAscending | sh-backend/src/seed.rs:112-132 | the 100 reading inserts take consecutive ids, so ids stay ascending |
| Seed.SeedHierarchyKeepsValid | sh-backend/src/seed.rs:20-103 | the site, room, device and setpoint inserts keep the store invariant, because each takes the previous insert's returned id as its parent |
| Seed.SeedKeepsValid | sh-backend/src/seed.rs:20-139 | a whole seeding keeps the store invariant |
| Seed.SeededTables | sh-backend/src/seed.rs:20-139 | what a seeding writes, table by table: one row each to Site, Room, Device and ControlSetpoint, the readings to SensorReading, and each counter advanced by its row count |
| Seed.SeededHierarchyResolves | sh-backend/src/seed.rs:36-132 | through the resolvers, the seeded site has only the seeded room, which has only the seeded device, and that device's setpoints and readings end with the seeded ones |
| Seed.SeededDeviceResolves | sh-backend/src/seed.rs:81-132 | through `Device.control_setpoints` and `Device.sensor_readings`, the seeded device's setpoints and readings are the ones stored earlier under its id, followed by the seeded ones |
| Seed.SeededReadingsResolve | sh-backend/src/seed.rs:112-132 | every one of the 100 seeded readings is reached through the seeded device, after any readings stored earlier under its id |
| Seed.NewSiteHasOnlyNewRoom | sh-backend/src/seed.rs:39-42 | in a valid store, the only room under a just-created site is the one inserted for it |
| Seed.NewRoomHasOnlyNewDevice | sh-backend/src/seed.rs:58-63 | in a valid store, the only device under a just-created room is the one inserted for it |
| Seed.SeedingTwiceDuplicates | sh-backend/src/seed.rs:20-34 | seeding twice adds two sites with the same name but different ids, each with only its own room |
| Seed.TwoNewSitesKeepTheirRooms | sh-backend/src/models.rs:100-107 | two rooms appended under two site ids newer than every stored room's site: each site's `rooms` is its own room alone |
| Seed.OnlyNewRoomSelected | sh-backend/src/models.rs:100-107 | appending one room adds it to the `rooms` of its own site and to no other site's |
| Seed.InsertSeedReadings | sh-backend/src/seed.rs:105-139 | the loop inserts one Celsius reading per offset, valued baseline + offset with one decimal and stamped `now`, or stops at the statement the database fails |
| Seed.InsertSeedHierarchy | sh-backend/src/seed.rs:20-103 | the four hierarchy inserts either all succeed, leaving exactly the seeded hierarchy and returning the seeded setpoint, or stop at the statement the database fails |
| Seed.WriteSeedBatch | sh-backend/src/seed.rs:20-139 | the statements inside the transaction either all succeed, leaving exactly the seeded state, or stop at the failing one |
| Seed.SeedDb | sh-backend/src/seed.rs:13-145 | succeeds exactly when no statement up to the commit fails, and then the store is the seeded state; on any failure the error names the statement and the store is unchanged; the extend flag plays no part |
| SensorReadingTable.UnitLabel | sh-frontend/src/components/SensorReadingTable.tsx:12-21 | the label is empty exactly when the unit is null or undefined. The two non-empty labels, "(°C)" for Celsius and "(°F)" for Fahrenheit, are the function's own cases and are not restated as a contract; `UnitLabelInjective` shows they differ |
| SensorReadingTable.UnitLabelInjective | sh-frontend/src/components/SensorReadingTable.tsx:12-21 | distinct units get distinct labels |
| SensorReadingTable.Slice | sh-frontend/src/components/SensorReadingTable.tsx:41 | `Array.prototype.slice` returns elements of the array only, never more than it holds; for non-negative bounds it is the stretch between them clamped to the length, and empty when end ≤ start |
| SensorReadingTable.PageWindow | sh-frontend/src/components/SensorReadingTable.tsx:38-42 | any page, even one out of range, shows at most 10 rows, all of them readings from the list |
| SensorReadingTable.ColumnLabel | sh-frontend/src/components/SensorReadingTable.tsx:32 | the column header has no unit label exactly when there are no readings or the first reading has no unit |
| SensorReadingTable.PageRowsMatchColumnLabel | sh-frontend/src/components/SensorReadingTable.tsx:32-42 | when all readings share one unit, the header label, taken from the first reading, is the label of every row shown on any page |
| SensorReadingTable.PageWindowIsContiguous | sh-frontend/src/components/SensorReadingTable.tsx:33-42 | page p ≥ 1 shows readings[min((p-1)·10, n) .. min(p·10, n)], a contiguous stretch of at most 10 rows |
| SensorReadingTable.FirstPagesArePrefix | sh-frontend/src/components/SensorReadingTable.tsx:38-42 | pages 1..k laid end to end are exactly the first min(10k, n) readings: page 1 starts at 0 and each page starts where the previous one ends |
| SensorReadingTable.PageOfIndex | sh-frontend/src/components/SensorReadingTable.tsx:38-42 | reading i appears on page i/10 + 1 at position i mod 10 |

## Left out

- The HTTP server, the GraphiQL page, environment variables, the connection pool and the migrations (sh-backend/src/main.rs) are I/O plumbing and are not modelled.
- The `debug!` logging in the seed routine (sh-backend/src/seed.rs:18-142) has no effect on the store and is not modelled.
- The seeding command line (sh-backend/src/bin/seed_db.rs) is not modelled. Its only effect on the core is the `extend` flag, which `seed_db` ignores.
- The GraphQL runtime is not modelled: field selection, the partial responses when a nested field errors, and the GraphQL spelling of enum values.
- The SQL engine is replaced by in-memory tables. The name resolution of `sensor_reading` and `control_setpoint` against the tables the mutations write is not modelled. The intended filter by `device_id` is.
- Async execution and concurrent resolution of sibling fields are not modelled; every operation runs alone and in sequence.
- Schema.Store.CreateSite: generic storage errors (the `?` on a database error) are not modelled in the mutations and queries. Each mutation succeeds whenever its parent check passes. Storage failures are modelled only in the seed routine, where atomicity depends on them.
- Ids and counters are unbounded integers; i64 overflow of an auto-increment id is not modelled.
- Timestamps are integers (seconds); there is no calendar arithmetic. The database's default timestamps for the `create_*` mutations are the `now` parameter.
- The random generator is the `offsets` parameter: 100 integers in [-10, 10] tenths of a degree.
- Floating point is not modelled. `parse::<f64>` and `{:.1}` become exact tenths (`Format.ParseTenths`, `Format.TenthsText`), so values such as "22.55" or "2e1", which f64 would accept, are outside the parser.
- Seed.SeedAddsOneHierarchy: reading values are shown within 1.0 of the 22.5 baseline, in exact tenths. Rounding of the f64 sum by `{:.1}` is not modelled.
- The React component around the two helpers is not modelled: JSX, `useState`, `useEffect`, the page buttons and the `if (!readings)` early return. So are the other frontend files: routing, the selector components and the GraphQL requests.
- `ORDER BY timestamp DESC LIMIT 1` among equal timestamps: SQLite's choice is unspecified. The model picks the first in insertion order, and the contracts promise only a maximal row.
