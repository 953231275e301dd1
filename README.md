# Record assembly in the Zall Data Go analytics client

This project models the record-assembly layer of the Zall Data Go SDK
(`zallanalytics.go`). It covers two parts and proves properties of both.

The first part is the event builder: `Track`, `TrackSignup`, the six
`Profile*` calls, `ItemSet` and `ItemDelete`. Each call does only some of
the following steps:

- `TrackSignup` checks its original id, and the five `Profile*` calls
  that take a property map reject a nil one;
- `Track` copies the caller's map, and `TrackSignup` starts from an empty
  one; both then merge in the super properties and add `$lib` and
  `$lib_version`, and `TrackSignup` also adds the two id-type keys;
- the `Profile*` calls copy the caller's map (`ProfileDelete` uses an empty
  one), and `ProfileSet` adds `$distinctIdType`; they never read the super
  properties;
- `Track`, `TrackSignup` and the `Profile*` calls take an `int64` `$time`
  out of the map and use it as the event time when it is positive, and add `$is_login_id` when
  the caller says the id is a login id (`TrackSignup` never does);
- `ItemSet` puts the caller's map into the item record as it is (a nil
  map becomes an empty one), and `ItemDelete` an empty map; the item
  calls neither copy, merge nor take out `$time`, and the item time is
  always the clock;
- every call fills an `EventData` or `Item` record, where the type tag
  decides which optional fields are set, and hands it to the consumer only
  when every check and the normaliser pass.

The second part is the package-level super-property map. It starts nil.
`RegisterSuperProperties`, `ClearSuperProperties` and
`UnregisterSuperProperty` change it, and `Track` and `TrackSignup` read it.

Layout:

- `values.dfy` (`GoValues`) holds the Go values the client handles:
  - `GoString` is a byte string, so `|s|` is Go's `len`.
  - `Value` is the dynamic type held in an `interface{}`. `Int64` and
    `Int` are separate constructors.
  - `PropertyMap` is a Go map, which is a reference; `null` is the nil map.
- `records.dfy` (`Records`) holds the constants at zallanalytics.go:31-54,
  the record types, the errors, and `Externals`. `Externals` bundles the
  functions of the `utils` and `structs` packages that the client calls.
- `superprops.dfy` (`SuperProperties`) holds the store:
  - its operations as functions on `Option<Props>` (`None` is the nil map);
  - `Run`, which applies a sequence of operations in order;
  - lemmas about such sequences;
  - the class `SuperPropertyStore`, whose methods update the map in place.
- `builder.dfy` (`EventBuilder`) holds one pure function per call, its
  plan. A plan is either `Reject(error)` (nothing reaches the consumer) or
  `Hand(payload)` (what the consumer receives).
- `client.dfy` (`Client`) holds the class `ZallAnalytics`, whose methods
  are written step by step the way the source is. Each method is proved
  to follow its plan:
  - a rejected plan returns its error and leaves the consumer's call log
    unchanged;
  - a handed plan appends exactly one send of that payload to the log and
    returns the consumer's reply.

## Model

| member | source | states |
|---|---|---|
| `Records.TagIsInjective` | zallanalytics.go:31-41 | the ten record-type tags are pairwise different, so comparing tags is comparing record types |
| `Records.LibPropertiesAt` | zallanalytics.go:291-302 | the library metadata names `Golang`, version `1.0.3` and method `code`; the detail is the call site when one is found and empty otherwise |
| `Records.SdkError.Message` | zallanalytics.go:141-166 | an empty original id, an over-long original id and a nil property map each give their own fixed text; a reported error keeps its reason |
| `Records.MessagesDistinguishErrors` | zallanalytics.go:141-166 | the client's own three errors have pairwise different texts |
| `EventBuilder.UserTime` | zallanalytics.go:304-317 | an `int64` `$time` is removed and returned; any other `$time` stays in the map and 0 is returned; without `$time`, 0 is returned and the map is unchanged; no other key is touched |
| `EventBuilder.UserTimeIdempotent` | zallanalytics.go:304-317 | taking `$time` out a second time returns 0 and changes nothing |
| `Client.ExtractUserTime` | zallanalytics.go:304-317 | the in-place `delete` on the given map leaves exactly the map `UserTime` describes and returns its time |
| `EventBuilder.AssembleEvent` | zallanalytics.go:69-101 | event time is the positive `int64` `$time` when given, the clock otherwise; `Event` is set only for track and track_signup; `OriginId` only for track_signup; the project is the client's (empty when unset); `TimeFree` iff the client's flag; every other caller key passes through; with `isLoginId` the login flag is `true`, overriding any caller value |
| `EventBuilder.Normalized` | zallanalytics.go:103-108 | the record reaches the consumer exactly when the normaliser returns nil; otherwise the normaliser's error is the result |
| `Client.ZallAnalytics.Emit` | zallanalytics.go:69-109 | `track` leaves its map as the assembled record's properties and sends that record once, only when the normaliser accepts it |
| `Client.ZallAnalytics.InitZallAnalytics` | zallanalytics.go:65-67 | the client holds the given consumer, project name and time-free flag |
| `EventBuilder.TrackProperties` | zallanalytics.go:119-134 | `$lib` is "Golang" and `$lib_version` is "1.0.3" whatever the caller or the store held; with no store, every other key is the copy's |
| `EventBuilder.TrackRecord` | zallanalytics.go:119-136 | a Track record has type track, the given event name, no original id, both library tags, and the login flag when asked |
| `EventBuilder.TrackRecordWithoutStore` | zallanalytics.go:119-136 | with a nil store, the record's properties are exactly the copy plus the library tags (plus the login flag), with the clock's time when the copy has no `$time` |
| `Client.ZallAnalytics.Track` | zallanalytics.go:119-137 | the caller's map is unchanged; a nil map counts as empty; the call follows the Track plan |
| `EventBuilder.CheckOriginId` | zallanalytics.go:141-146 | an empty original id fails with the empty-id error; one over 255 bytes fails with the too-long error; 1 to 255 bytes pass |
| `EventBuilder.SignupProperties` | zallanalytics.go:148-157 | the library tags and `$distinctIdType`/`$originalIdType` hold the given values; with no store these are the only keys |
| `EventBuilder.SignupRecord` | zallanalytics.go:148-159 | a sign-up record has event name "$SignUp", the given ids and id types and the library tags, and no login flag is injected |
| `EventBuilder.SignupRecordWithoutStore` | zallanalytics.go:148-159 | with a nil store, a sign-up record carries exactly four properties and the clock's time |
| `EventBuilder.PlanTrackSignup` | zallanalytics.go:139-160 | a bad original id is rejected before anything is built; only an id of 1 to 255 bytes can be sent, and then exactly when the normaliser accepts the sign-up record |
| `Client.ZallAnalytics.TrackSignup` | zallanalytics.go:139-160 | follows the TrackSignup plan: on a bad original id the consumer's log is unchanged |
| `EventBuilder.ProfileRecord` | zallanalytics.go:171-225 | a profile record has the profile type, no event name and no original id, and the login flag when asked |
| `EventBuilder.ProfileSetProperties` | zallanalytics.go:165-170 | `$distinctIdType` is written over the copy; every other key is the copy's |
| `EventBuilder.PlanProfileSet` | zallanalytics.go:162-172 | a nil map is rejected; otherwise the record built from the copy is sent exactly when the normaliser accepts it, and it carries the distinct-id type |
| `Client.ZallAnalytics.ProfileSet` | zallanalytics.go:162-172 | the caller's map is unchanged; the call follows the ProfileSet plan and never reads the store |
| `EventBuilder.PlanProfileUpdate` | zallanalytics.go:174-220 | a nil map is rejected; otherwise the record built from the copy is sent exactly when the normaliser accepts it |
| `Client.ZallAnalytics.ProfileUpdate` | zallanalytics.go:174-220 | the caller's map is unchanged; the call follows the plan for its profile type |
| `Client.ZallAnalytics.ProfileSetOnce` | zallanalytics.go:174-184 | follows the profile_set_once plan |
| `Client.ZallAnalytics.ProfileIncrement` | zallanalytics.go:186-196 | follows the profile_increment plan |
| `Client.ZallAnalytics.ProfileAppend` | zallanalytics.go:198-208 | follows the profile_append plan |
| `Client.ZallAnalytics.ProfileUnset` | zallanalytics.go:210-220 | follows the profile_unset plan |
| `EventBuilder.PlanProfileDelete` | zallanalytics.go:222-226 | the record's properties are empty or just the login flag, and its time is the clock's |
| `Client.ZallAnalytics.ProfileDelete` | zallanalytics.go:222-226 | follows the ProfileDelete plan |
| `EventBuilder.NormalizedItem` | zallanalytics.go:244-249 | the item reaches the consumer exactly when the item normaliser returns nil |
| `EventBuilder.ItemRecord` | zallanalytics.go:235-263 | the item record carries the given type tag, item type, item id and properties, the clock's time, and the library metadata for the call site |
| `EventBuilder.PlanItemSet` | zallanalytics.go:228-250 | the item holds the caller's map, or an empty one for nil, unchanged (no `$time` extraction), with the clock's time |
| `Client.ZallAnalytics.ItemSet` | zallanalytics.go:228-250 | follows the ItemSet plan |
| `EventBuilder.PlanItemDelete` | zallanalytics.go:252-271 | the item has an empty property map and the clock's time |
| `Client.ZallAnalytics.ItemDelete` | zallanalytics.go:252-271 | follows the ItemDelete plan |
| `Client.ZallAnalytics.Flush` | zallanalytics.go:111-113 | forwards one flush to the consumer |
| `Client.ZallAnalytics.Close` | zallanalytics.go:115-117 | forwards one close to the consumer |
| `SuperProperties.Registered` | zallanalytics.go:274-279 | registration leaves the map non-nil; it merges into the existing map, or into an empty one when it was nil |
| `SuperProperties.Unregistered` | zallanalytics.go:287-289 | unregistering removes the key and keeps every other entry unchanged; it is a no-op on a nil map or an absent key |
| `SuperProperties.Step` | zallanalytics.go:274-289 | a clear leaves an empty, non-nil map; the other operations are as stated above |
| `SuperProperties.RunAppend` | zallanalytics.go:274-289 | running two sequences of store operations one after the other is running their concatenation |
| `SuperProperties.ClearForgetsHistory` | zallanalytics.go:282-284 | after a clear, the store depends only on the operations that follow it |
| `SuperProperties.NeverNilAgain` | zallanalytics.go:274-289 | once the map exists, no sequence of operations makes it nil again |
| `SuperProperties.NilUntilWritten` | zallanalytics.go:274-289 | starting from nil, the map stays nil exactly while only unregistrations have happened |
| `SuperProperties.UnregisterEach` | zallanalytics.go:287-289 | unregistering a list of keys removes exactly those keys |
| `SuperProperties.SuperPropertyStore.constructor` | zallanalytics.go:57 | the package map starts nil |
| `SuperProperties.SuperPropertyStore.RegisterSuperProperties` | zallanalytics.go:274-279 | the map is non-nil afterwards and equals `Registered` of the old map |
| `SuperProperties.SuperPropertyStore.ClearSuperProperties` | zallanalytics.go:282-284 | the map is empty and non-nil afterwards |
| `SuperProperties.SuperPropertyStore.UnregisterSuperProperty` | zallanalytics.go:287-289 | the map is nil afterwards iff it was before, and otherwise loses exactly the key |

## Behaviour of zallanalytics.go

- An invalid `$time` does not fail the call. A `$time` whose dynamic type
  is not `int64` is left in the map. The event time then falls back to
  the clock, and the value goes on to the normaliser. A plain Go `int` is
  such a value.
- `ItemSet` is the one call that does not copy the caller's map: the
  item's properties are the caller's map itself (zallanalytics.go:231-240).
- In zallanalytics.go, the emptiness and length checks apply only to
  TrackSignup's original id. No check on `distinctId`, the event name,
  `itemType` or `itemId` appears there; any such check would live in the
  normalisers.
- Which side wins when super properties and caller properties share a key
  is decided by `utils.MergeSuperProperty`. That function is not part of
  this model, so the model does not fix the direction.
- The store is not synchronised in the code.
- The Profile calls never read the store. Their plans take no store
  argument.

## Left out

- The `consumers` package (buffered, immediate, debug and logging
  consumers) and the `Init*Consumer` wrappers at zallanalytics.go:319-337
  are not part of this model. The consumer is a sink that logs every call
  it receives.
- Client.Consumer.Send: the consumer's reply is unconstrained, because its
  transport is not part of this model.
- `utils.DeepCopy`, `utils.MergeSuperProperty`, `EventData.NormalizeData`
  and `Item.NormalizeItem` are not part of this model. They are the
  parameters in `Externals`.
  - DeepCopy is taken to return a fresh map; its contents are opaque.
  - A nil map passed to MergeSuperProperty as the source reads as empty,
    as reading a nil map does in Go.
  - The normalisers are modelled as checks that return an error or nil.
    If they change the record through a pointer receiver, the model does
    not capture that change.
- `utils.NowMs()` is the wall clock; its reading is a parameter of each
  call.
- The `runtime.Caller` stack lookup in `getLibProperties` is reflection.
  The formatted call site is a parameter; `None` gives an empty detail.
- The diagnostic line that `extractUserTime` writes to standard error is
  output only.
- Concurrent use of the package-level map is not modelled.
- A nil `interface{}` stored under `$time` is one of the `Other` values.
- Go `int` (the id types) is taken as 64 bits wide.
- Go's record holds a reference to its property map. The model copies the
  map into the record at the point the record is normalised and sent.
  For every call but `ItemSet` that map is a copy or a fresh map that the
  source does not write again.
- Client.ZallAnalytics.ItemSet: the Go item holds the caller's own map, but
  the model's item holds a snapshot of its contents and the caller's map is
  framed as unchanged. The model therefore does not capture that a write
  the caller makes after the call reaches an item a buffering consumer
  still holds, that two ItemSet calls given one map share it, or that a
  `NormalizeItem` editing its receiver edits the caller's map.
- `Track` and `TrackSignup` take the super-property store as an argument.
  Nothing ties the store they read to the one that
  `RegisterSuperProperties` last wrote; the package variable's single
  identity is left to the caller.
- EventBuilder.TrackProperties: when the store exists, it states only the
  two library tags, because the merge result is opaque.
- EventBuilder.SignupProperties: when the store exists, it states only the
  injected keys, because the merge result is opaque.
