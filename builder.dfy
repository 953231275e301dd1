/** Record assembly: what each client call builds from its inputs, and
    whether it hands the result to the consumer or returns an error. The
    client's methods (module Client) are proved against these functions. */
module EventBuilder {
  import opened GoValues
  import opened Records

  /** The outcome of building a record: rejected with an error before the
      consumer is called, or handed to the consumer. */
  datatype Plan = Reject(error: SdkError) | Hand(payload: Payload)

  /** extractUserTime: a `$time` holding an `int64` is taken out of the map
      and returned; any other `$time` stays and 0 is returned. */
  function UserTime(p: Props): (r: (i64, Props))
    ensures r.1.Keys <= p.Keys && p.Keys - r.1.Keys <= {TIME_KEY}
    ensures forall k | k in r.1 :: r.1[k] == p[k]
    ensures TIME_KEY in r.1 <==> TIME_KEY in p && !p[TIME_KEY].Int64?
    ensures TIME_KEY in p && p[TIME_KEY].Int64? ==> r.0 == p[TIME_KEY].i
    ensures !(TIME_KEY in p && p[TIME_KEY].Int64?) ==> r.0 == 0
  {
    if TIME_KEY in p && p[TIME_KEY].Int64? then
      assert TIME_KEY in p - {TIME_KEY} <==> false;
      (p[TIME_KEY].i, p - {TIME_KEY})
    else
      (0, p)
  }

  /** A caller-supplied `$time` that sets the event time. */
  predicate HasUserTime(p: Props) {
    TIME_KEY in p && p[TIME_KEY].Int64? && p[TIME_KEY].i > 0
  }

  /** The record `track` builds before normalising it: the time from `$time`
      or the clock, the event name only for Track and TrackSignup, the
      original id only for TrackSignup, the login flag written last. */
  function AssembleEvent(
    etype: RecordType, event: GoString, distinctId: GoString, originId: GoString,
    props: Props, isLoginId: bool, projectName: GoString, timeFree: bool,
    nowMs: i64, callSite: Option<GoString>): (r: EventData)
    ensures r.recordType == etype && r.distinctId == distinctId && r.lib == LibPropertiesAt(callSite)
    ensures etype.IsEvent() ==> r.event == event
    ensures !etype.IsEvent() ==> r.event == ""
    ensures etype == TrackSignup ==> r.originId == originId
    ensures etype != TrackSignup ==> r.originId == ""
    // The project is set only when non-empty; left unset it is "" too.
    ensures r.project == projectName
    ensures r.timeFree <==> timeFree
    ensures HasUserTime(props) ==> r.time == props[TIME_KEY].i
    ensures !HasUserTime(props) ==> r.time == nowMs
    // Every caller entry except `$time` and the login flag passes through.
    ensures forall k | k != TIME_KEY && k != LOGIN_FLAG_KEY ::
      (k in r.properties <==> k in props) && (k in props ==> r.properties[k] == props[k])
    ensures TIME_KEY in r.properties <==> TIME_KEY in props && !props[TIME_KEY].Int64?
    ensures TIME_KEY in r.properties ==> r.properties[TIME_KEY] == props[TIME_KEY]
    ensures isLoginId ==> LOGIN_FLAG_KEY in r.properties && r.properties[LOGIN_FLAG_KEY] == Bool(true)
    ensures !isLoginId ==> r.properties == UserTime(props).1
  {
    var (userTime, rest) := UserTime(props);
    var time := if userTime > 0 then userTime else nowMs;
    var properties := if isLoginId then rest[LOGIN_FLAG_KEY := Bool(true)] else rest;
    EventData(
      recordType := etype,
      time := time,
      distinctId := distinctId,
      originId := if etype == TrackSignup then originId else "",
      event := if etype == Track || etype == TrackSignup then event else "",
      project := if projectName != "" then projectName else "",
      timeFree := if timeFree then true else false,
      properties := properties,
      lib := LibPropertiesAt(callSite))
  }

  /** The tail of `track`: the record reaches the consumer exactly when the
      normaliser accepts it; otherwise the normaliser's error is returned. */
  function Normalized(rec: EventData, ext: Externals): (r: Plan)
    ensures r.Hand? <==> ext.normalizeData(rec).None?
    ensures r.Hand? ==> r.payload == EventPayload(rec)
    ensures r.Reject? ==> ext.normalizeData(rec) == Some(r.error)
  {
    match ext.normalizeData(rec)
    case Some(e) => Reject(e)
    case None => Hand(EventPayload(rec))
  }

  /** The map Track hands to `track`: a copy of the caller's map (a fresh
      empty one for nil), the super properties merged in when the store
      exists, then the library name and version written over it. */
  function TrackProperties(caller: Option<Props>, store: Option<Props>, ext: Externals): (r: Props)
    ensures LIB_KEY in r && r[LIB_KEY] == Str(LIB_NAME)
    ensures LIB_VERSION_KEY in r && r[LIB_VERSION_KEY] == Str(SDK_VERSION)
    // Without a store, the rest is the copy of the caller's map.
    ensures store.None? ==> forall k | k != LIB_KEY && k != LIB_VERSION_KEY ::
      var copy := if caller.None? then map[] else ext.deepCopy(caller.value);
      (k in r <==> k in copy) && (k in copy ==> r[k] == copy[k])
  {
    var copy := if caller.None? then map[] else ext.deepCopy(caller.value);
    var merged := if store.Some? then ext.mergeSuperProperty(store.value, copy) else copy;
    merged[LIB_KEY := Str(LIB_NAME)][LIB_VERSION_KEY := Str(SDK_VERSION)]
  }

  /** The record Track builds. */
  function TrackRecord(
    projectName: GoString, timeFree: bool, distinctId: GoString, event: GoString,
    caller: Option<Props>, store: Option<Props>, isLoginId: bool,
    ext: Externals, nowMs: i64, callSite: Option<GoString>): (r: EventData)
    ensures r.recordType == Track && r.event == event && r.distinctId == distinctId && r.originId == ""
    ensures LIB_KEY in r.properties && r.properties[LIB_KEY] == Str(LIB_NAME)
    ensures LIB_VERSION_KEY in r.properties && r.properties[LIB_VERSION_KEY] == Str(SDK_VERSION)
    ensures isLoginId ==> LOGIN_FLAG_KEY in r.properties && r.properties[LOGIN_FLAG_KEY] == Bool(true)
    ensures r.project == projectName && (r.timeFree <==> timeFree)
  {
    AssembleEvent(Track, event, distinctId, "", TrackProperties(caller, store, ext), isLoginId,
                  projectName, timeFree, nowMs, callSite)
  }

  /** TrackSignup's checks on the original id: not empty, at most
      MAX_ID_LEN bytes. */
  function CheckOriginId(originId: GoString): (r: Option<SdkError>)
    ensures r.None? <==> 0 < |originId| <= MAX_ID_LEN
    ensures |originId| == 0 ==> r == Some(EmptyOriginId)
    ensures |originId| > MAX_ID_LEN ==> r == Some(OriginIdTooLong)
  {
    if originId == "" then Some(EmptyOriginId)
    else if |originId| > MAX_ID_LEN then Some(OriginIdTooLong)
    else None
  }

  /** The map TrackSignup hands to `track`: a fresh map, the super
      properties merged in when the store exists, then the library tags and
      both id types. */
  function SignupProperties(store: Option<Props>, distinctIdType: i64, originIdType: i64, ext: Externals): (r: Props)
    ensures LIB_KEY in r && r[LIB_KEY] == Str(LIB_NAME)
    ensures LIB_VERSION_KEY in r && r[LIB_VERSION_KEY] == Str(SDK_VERSION)
    ensures DISTINCT_ID_TYPE_KEY in r && r[DISTINCT_ID_TYPE_KEY] == Int(distinctIdType)
    ensures ORIGINAL_ID_TYPE_KEY in r && r[ORIGINAL_ID_TYPE_KEY] == Int(originIdType)
    ensures store.None? ==> r.Keys == {LIB_KEY, LIB_VERSION_KEY, DISTINCT_ID_TYPE_KEY, ORIGINAL_ID_TYPE_KEY}
  {
    var merged := if store.Some? then ext.mergeSuperProperty(store.value, map[]) else map[];
    merged[LIB_KEY := Str(LIB_NAME)][LIB_VERSION_KEY := Str(SDK_VERSION)]
          [DISTINCT_ID_TYPE_KEY := Int(distinctIdType)][ORIGINAL_ID_TYPE_KEY := Int(originIdType)]
  }

  /** The record TrackSignup builds once the original id passed its checks. */
  function SignupRecord(
    projectName: GoString, timeFree: bool, distinctId: GoString, originId: GoString,
    distinctIdType: i64, originIdType: i64, store: Option<Props>,
    ext: Externals, nowMs: i64, callSite: Option<GoString>): (r: EventData)
    ensures r.recordType == TrackSignup && r.event == SIGNUP_EVENT
    ensures r.distinctId == distinctId && r.originId == originId
    ensures LIB_KEY in r.properties && r.properties[LIB_KEY] == Str(LIB_NAME)
    ensures LIB_VERSION_KEY in r.properties && r.properties[LIB_VERSION_KEY] == Str(SDK_VERSION)
    ensures DISTINCT_ID_TYPE_KEY in r.properties && r.properties[DISTINCT_ID_TYPE_KEY] == Int(distinctIdType)
    ensures ORIGINAL_ID_TYPE_KEY in r.properties && r.properties[ORIGINAL_ID_TYPE_KEY] == Int(originIdType)
    // The login flag is never injected: TrackSignup passes false.
    ensures r.properties == UserTime(SignupProperties(store, distinctIdType, originIdType, ext)).1
  {
    AssembleEvent(TrackSignup, SIGNUP_EVENT, distinctId, originId,
                  SignupProperties(store, distinctIdType, originIdType, ext), false,
                  projectName, timeFree, nowMs, callSite)
  }

  /** TrackSignup: rejected before anything is built when the original id
      is empty or too long; otherwise the signup record, normalised. */
  function PlanTrackSignup(
    projectName: GoString, timeFree: bool, distinctId: GoString, originId: GoString,
    distinctIdType: i64, originIdType: i64, store: Option<Props>,
    ext: Externals, nowMs: i64, callSite: Option<GoString>): (r: Plan)
    ensures |originId| == 0 ==> r == Reject(EmptyOriginId)
    ensures |originId| > MAX_ID_LEN ==> r == Reject(OriginIdTooLong)
    ensures r.Hand? ==> 0 < |originId| <= MAX_ID_LEN
    ensures 0 < |originId| <= MAX_ID_LEN ==>
      var rec := SignupRecord(projectName, timeFree, distinctId, originId, distinctIdType, originIdType,
                              store, ext, nowMs, callSite);
      (r.Hand? <==> ext.normalizeData(rec).None?) && (r.Hand? ==> r.payload == EventPayload(rec))
  {
    match CheckOriginId(originId)
    case Some(e) => Reject(e)
    case None =>
      Normalized(SignupRecord(projectName, timeFree, distinctId, originId, distinctIdType, originIdType,
                              store, ext, nowMs, callSite), ext)
  }

  /** The record a profile call builds from the map it hands to `track`:
      no event name, no original id. */
  function ProfileRecord(
    kind: RecordType, projectName: GoString, timeFree: bool, distinctId: GoString,
    props: Props, isLoginId: bool, nowMs: i64, callSite: Option<GoString>): (r: EventData)
    requires kind == ProfileSet || kind.IsProfileUpdate() || kind == ProfileDelete
    ensures r.recordType == kind && r.distinctId == distinctId
    ensures r.event == "" && r.originId == ""
    ensures isLoginId ==> LOGIN_FLAG_KEY in r.properties && r.properties[LOGIN_FLAG_KEY] == Bool(true)
  {
    AssembleEvent(kind, "", distinctId, "", props, isLoginId, projectName, timeFree, nowMs, callSite)
  }

  /** The map ProfileSet hands to `track`: a copy of the caller's map with
      the distinct-id type written over it. The store is not read. */
  function ProfileSetProperties(caller: Props, distinctIdType: i64, ext: Externals): (r: Props)
    ensures DISTINCT_ID_TYPE_KEY in r && r[DISTINCT_ID_TYPE_KEY] == Int(distinctIdType)
    ensures forall k | k != DISTINCT_ID_TYPE_KEY ::
      (k in r <==> k in ext.deepCopy(caller)) && (k in r ==> r[k] == ext.deepCopy(caller)[k])
  {
    ext.deepCopy(caller)[DISTINCT_ID_TYPE_KEY := Int(distinctIdType)]
  }

  /** ProfileSet: a nil map is an error; otherwise the record, normalised. */
  function PlanProfileSet(
    projectName: GoString, timeFree: bool, distinctId: GoString, distinctIdType: i64,
    caller: Option<Props>, isLoginId: bool,
    ext: Externals, nowMs: i64, callSite: Option<GoString>): (r: Plan)
    ensures caller.None? ==> r == Reject(NilProperties)
    ensures caller.Some? ==>
      var rec := ProfileRecord(ProfileSet, projectName, timeFree, distinctId,
                               ProfileSetProperties(caller.value, distinctIdType, ext), isLoginId, nowMs, callSite);
      (r.Hand? <==> ext.normalizeData(rec).None?) && (r.Hand? ==> r.payload == EventPayload(rec))
    ensures r.Hand? ==>
      && r.payload.EventPayload?
      && DISTINCT_ID_TYPE_KEY in r.payload.data.properties
      && r.payload.data.properties[DISTINCT_ID_TYPE_KEY] == Int(distinctIdType)
  {
    match caller
    case None => Reject(NilProperties)
    case Some(props) =>
      Normalized(ProfileRecord(ProfileSet, projectName, timeFree, distinctId,
                               ProfileSetProperties(props, distinctIdType, ext), isLoginId, nowMs, callSite), ext)
  }

  /** ProfileSetOnce, ProfileIncrement, ProfileAppend, ProfileUnset: a nil
      map is an error; otherwise a copy of the caller's map, untouched
      until `track`, and the record, normalised. The store is not read. */
  function PlanProfileUpdate(
    kind: RecordType, projectName: GoString, timeFree: bool, distinctId: GoString,
    caller: Option<Props>, isLoginId: bool,
    ext: Externals, nowMs: i64, callSite: Option<GoString>): (r: Plan)
    requires kind.IsProfileUpdate()
    ensures caller.None? ==> r == Reject(NilProperties)
    ensures caller.Some? ==>
      var rec := ProfileRecord(kind, projectName, timeFree, distinctId, ext.deepCopy(caller.value),
                               isLoginId, nowMs, callSite);
      (r.Hand? <==> ext.normalizeData(rec).None?) && (r.Hand? ==> r.payload == EventPayload(rec))
  {
    match caller
    case None => Reject(NilProperties)
    case Some(props) =>
      Normalized(ProfileRecord(kind, projectName, timeFree, distinctId, ext.deepCopy(props),
                               isLoginId, nowMs, callSite), ext)
  }

  /** ProfileDelete: always an empty map, so the record's properties are at
      most the login flag and its time is the clock's. */
  function PlanProfileDelete(
    projectName: GoString, timeFree: bool, distinctId: GoString, isLoginId: bool,
    ext: Externals, nowMs: i64, callSite: Option<GoString>): (r: Plan)
    ensures r.Hand? ==> r.payload.EventPayload? && r.payload.data.recordType == ProfileDelete
    ensures r.Hand? ==> r.payload.data.time == nowMs
    ensures r.Hand? ==> r.payload.data.properties == if isLoginId then map[LOGIN_FLAG_KEY := Bool(true)] else map[]
    ensures r.Hand? <==> ext.normalizeData(ProfileRecord(ProfileDelete, projectName, timeFree, distinctId,
                                                        map[], isLoginId, nowMs, callSite)).None?
  {
    Normalized(ProfileRecord(ProfileDelete, projectName, timeFree, distinctId, map[], isLoginId, nowMs, callSite), ext)
  }

  /** An item record. Items take no `$time` from their properties, carry no
      project and no time-free flag. */
  function ItemRecord(kind: RecordType, itemType: GoString, itemId: GoString, props: Props,
                      nowMs: i64, callSite: Option<GoString>): (item: ItemData)
    ensures item.recordType == kind && item.itemType == itemType && item.itemId == itemId
    ensures item.time == nowMs && item.properties == props
    ensures item.lib == LibPropertiesAt(callSite)
  {
    ItemData(kind, itemId, nowMs, itemType, props, LibPropertiesAt(callSite))
  }

  /** The item record reaches the consumer exactly when the item normaliser
      accepts it. */
  function NormalizedItem(item: ItemData, ext: Externals): (r: Plan)
    ensures r.Hand? <==> ext.normalizeItem(item).None?
    ensures r.Hand? ==> r.payload == ItemPayload(item)
    ensures r.Reject? ==> ext.normalizeItem(item) == Some(r.error)
  {
    match ext.normalizeItem(item)
    case Some(e) => Reject(e)
    case None => Hand(ItemPayload(item))
  }

  /** ItemSet: the caller's own map (no copy), or an empty one for nil. */
  function PlanItemSet(itemType: GoString, itemId: GoString, caller: Option<Props>,
                       ext: Externals, nowMs: i64, callSite: Option<GoString>): (r: Plan)
    ensures r.Hand? ==> r.payload.ItemPayload? && r.payload.item.recordType == ItemSet
    ensures r.Hand? ==> r.payload.item.itemType == itemType && r.payload.item.itemId == itemId
    ensures r.Hand? ==> r.payload.item.time == nowMs
    ensures r.Hand? ==> r.payload.item.properties == if caller.None? then map[] else caller.value
    ensures r.Hand? <==> ext.normalizeItem(ItemRecord(ItemSet, itemType, itemId, caller.GetOr(map[]), nowMs, callSite)).None?
  {
    NormalizedItem(ItemRecord(ItemSet, itemType, itemId, caller.GetOr(map[]), nowMs, callSite), ext)
  }

  /** ItemDelete: always an empty map. */
  function PlanItemDelete(itemType: GoString, itemId: GoString,
                          ext: Externals, nowMs: i64, callSite: Option<GoString>): (r: Plan)
    ensures r.Hand? ==> r.payload.ItemPayload? && r.payload.item.recordType == ItemDelete
    ensures r.Hand? ==> r.payload.item.itemType == itemType && r.payload.item.itemId == itemId
    ensures r.Hand? ==> r.payload.item.time == nowMs && r.payload.item.properties == map[]
    ensures r.Hand? <==> ext.normalizeItem(ItemRecord(ItemDelete, itemType, itemId, map[], nowMs, callSite)).None?
  {
    NormalizedItem(ItemRecord(ItemDelete, itemType, itemId, map[], nowMs, callSite), ext)
  }

  /** Taking `$time` out twice finds nothing the second time. */
  lemma UserTimeIdempotent(p: Props)
    ensures UserTime(UserTime(p).1) == (0, UserTime(p).1)
  {
  }

  /** With no store, Track's record holds exactly the copy of the caller's
      map, the two library tags and, when asked, the login flag; without a
      `$time` in the copy, the time is the clock's. */
  lemma TrackRecordWithoutStore(
    projectName: GoString, timeFree: bool, distinctId: GoString, event: GoString,
    p: Props, isLoginId: bool, ext: Externals, nowMs: i64, callSite: Option<GoString>)
    requires TIME_KEY !in ext.deepCopy(p)
    ensures
      var r := TrackRecord(projectName, timeFree, distinctId, event, Some(p), None, isLoginId, ext, nowMs, callSite);
      var tagged := ext.deepCopy(p)[LIB_KEY := Str(LIB_NAME)][LIB_VERSION_KEY := Str(SDK_VERSION)];
      && r.time == nowMs
      && r.properties == if isLoginId then tagged[LOGIN_FLAG_KEY := Bool(true)] else tagged
  {
  }

  /** With no store, a sign-up record holds exactly the library tags and
      the two id types: no login flag and no `$time`. */
  lemma SignupRecordWithoutStore(
    projectName: GoString, timeFree: bool, distinctId: GoString, originId: GoString,
    distinctIdType: i64, originIdType: i64, ext: Externals, nowMs: i64, callSite: Option<GoString>)
    ensures
      var r := SignupRecord(projectName, timeFree, distinctId, originId, distinctIdType, originIdType,
                            None, ext, nowMs, callSite);
      && r.time == nowMs
      && r.properties.Keys == {LIB_KEY, LIB_VERSION_KEY, DISTINCT_ID_TYPE_KEY, ORIGINAL_ID_TYPE_KEY}
  {
  }
}
