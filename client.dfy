/** The analytics client (zallanalytics.go): its public calls update the
    maps they own in place and hand at most one record to the consumer.
    Each call is proved against the plan EventBuilder gives for it. */
module Client {
  import opened GoValues
  import opened Records
  import opened EventBuilder
  import opened SuperProperties

  /** One call the client made on its consumer, with the consumer's reply. */
  datatype ConsumerCall = Sent(payload: Payload, reply: Option<SdkError>) | Flushed | Closed

  /** The consumer the client delivers to. Its buffering and transport are
      not part of this model: it records every call it receives, and its
      reply to a send may be any error or none. */
  class Consumer {
    var calls: seq<ConsumerCall>

    constructor ()
      ensures calls == []
    {
      calls := [];
    }

    method Send(data: EventData) returns (err: Option<SdkError>)
      modifies this
      ensures calls == old(calls) + [Sent(EventPayload(data), err)]
    {
      err := *;
      calls := calls + [Sent(EventPayload(data), err)];
    }

    method ItemSend(item: ItemData) returns (err: Option<SdkError>)
      modifies this
      ensures calls == old(calls) + [Sent(ItemPayload(item), err)]
    {
      err := *;
      calls := calls + [Sent(ItemPayload(item), err)];
    }

    method Flush()
      modifies this
      ensures calls == old(calls) + [Flushed]
    {
      calls := calls + [Flushed];
    }

    method Close()
      modifies this
      ensures calls == old(calls) + [Closed]
    {
      calls := calls + [Closed];
    }
  }

  /** A client call followed its plan: a rejected plan returns its error
      and leaves the consumer untouched; a handed plan sends its payload
      exactly once and returns the consumer's reply. */
  ghost predicate Follows(before: seq<ConsumerCall>, after: seq<ConsumerCall>, plan: Plan, err: Option<SdkError>) {
    match plan
    case Reject(e) => after == before && err == Some(e)
    case Hand(p) => after == before + [Sent(p, err)]
  }

  /** extractUserTime: deletes an `int64` `$time` from the map it is given
      and returns it; returns 0 otherwise. */
  method ExtractUserTime(p: PropertyMap) returns (t: i64)
    modifies p
    ensures (t, p.entries) == UserTime(old(p.entries))
  {
    if TIME_KEY in p.entries {
      var v := p.entries[TIME_KEY];
      if !v.Int64? {
        // The source also writes a diagnostic line here.
        return 0;
      }
      p.entries := p.entries - {TIME_KEY};
      return v.i;
    }
    return 0;
  }

  /** An analytics client: its consumer, project name and time-free flag.
      The super-property store is the package's, shared by every client,
      and is passed to the calls that read it. The clock reading and the
      call site that each call records are parameters too. */
  class ZallAnalytics {
    const c: Consumer
    const projectName: GoString
    const timeFree: bool

    constructor InitZallAnalytics(c: Consumer, projectName: GoString, timeFree: bool)
      ensures this.c == c && this.projectName == projectName && this.timeFree == timeFree
    {
      this.c := c;
      this.projectName := projectName;
      this.timeFree := timeFree;
    }

    /** track: builds the record from `properties`, which it updates in
      place (`$time` removed, login flag added), normalises it, and sends
      it only if the normaliser accepts it. */
    method Emit(etype: RecordType, event: GoString, distinctId: GoString, originId: GoString,
                properties: PropertyMap, isLoginId: bool,
                ext: Externals, nowMs: i64, callSite: Option<GoString>) returns (err: Option<SdkError>)
      modifies properties, c
      ensures properties.entries
        == AssembleEvent(etype, event, distinctId, originId, old(properties.entries), isLoginId,
                         projectName, timeFree, nowMs, callSite).properties
      ensures Follows(old(c.calls), c.calls,
                      Normalized(AssembleEvent(etype, event, distinctId, originId, old(properties.entries), isLoginId,
                                               projectName, timeFree, nowMs, callSite), ext), err)
    {
      ghost var rec := AssembleEvent(etype, event, distinctId, originId, properties.entries, isLoginId,
                                     projectName, timeFree, nowMs, callSite);
      var eventTime := nowMs;
      var et := ExtractUserTime(properties);
      if et > 0 {
        eventTime := et;
      }
      var data := EventData(
        recordType := etype, time := eventTime, distinctId := distinctId,
        originId := "", event := "", project := "", timeFree := false,
        properties := properties.entries, lib := LibPropertiesAt(callSite));
      if projectName != "" {
        data := data.(project := projectName);
      }
      if etype == RecordType.Track || etype == RecordType.TrackSignup {
        data := data.(event := event);
      }
      if etype == RecordType.TrackSignup {
        data := data.(originId := originId);
      }
      if timeFree {
        data := data.(timeFree := true);
      }
      if isLoginId {
        properties.entries := properties.entries[LOGIN_FLAG_KEY := Bool(true)];
      }
      // The record holds the same map, so it sees the flag written above.
      data := data.(properties := properties.entries);
      assert data == rec;
      var normErr := ext.normalizeData(data);
      if normErr.Some? {
        return normErr;
      }
      err := c.Send(data);
    }

    method Flush()
      modifies c
      ensures c.calls == old(c.calls) + [Flushed]
    {
      c.Flush();
    }

    method Close()
      modifies c
      ensures c.calls == old(c.calls) + [Closed]
    {
      c.Close();
    }

    /** Track: works on a copy of the caller's map, which it never changes. */
    method Track(distinctId: GoString, event: GoString, properties: PropertyMap?, isLoginId: bool,
                 store: SuperPropertyStore, ext: Externals, nowMs: i64, callSite: Option<GoString>)
      returns (err: Option<SdkError>)
      modifies c
      ensures properties != null ==> properties.entries == old(properties.entries)
      ensures Follows(old(c.calls), c.calls,
                      Normalized(TrackRecord(projectName, timeFree, distinctId, event, Contents(properties),
                                             store.props, isLoginId, ext, nowMs, callSite), ext), err)
    {
      var nproperties: PropertyMap;
      if properties == null {
        nproperties := new PropertyMap(map[]);
      } else {
        nproperties := new PropertyMap(ext.deepCopy(properties.entries));
      }
      if store.props.Some? {
        nproperties.entries := ext.mergeSuperProperty(store.props.value, nproperties.entries);
      }
      nproperties.entries := nproperties.entries[LIB_KEY := Str(LIB_NAME)];
      nproperties.entries := nproperties.entries[LIB_VERSION_KEY := Str(SDK_VERSION)];
      err := Emit(RecordType.Track, event, distinctId, "", nproperties, isLoginId, ext, nowMs, callSite);
    }

    method TrackSignup(distinctId: GoString, originId: GoString, distinctIdType: i64, originIdType: i64,
                       store: SuperPropertyStore, ext: Externals, nowMs: i64, callSite: Option<GoString>)
      returns (err: Option<SdkError>)
      modifies c
      ensures Follows(old(c.calls), c.calls,
                      PlanTrackSignup(projectName, timeFree, distinctId, originId, distinctIdType, originIdType,
                                      store.props, ext, nowMs, callSite), err)
    {
      if originId == "" {
        return Some(EmptyOriginId);
      }
      if |originId| > MAX_ID_LEN {
        return Some(OriginIdTooLong);
      }
      var properties := new PropertyMap(map[]);
      if store.props.Some? {
        properties.entries := ext.mergeSuperProperty(store.props.value, properties.entries);
      }
      properties.entries := properties.entries[LIB_KEY := Str(LIB_NAME)];
      properties.entries := properties.entries[LIB_VERSION_KEY := Str(SDK_VERSION)];
      properties.entries := properties.entries[DISTINCT_ID_TYPE_KEY := Int(distinctIdType)];
      properties.entries := properties.entries[ORIGINAL_ID_TYPE_KEY := Int(originIdType)];
      err := Emit(RecordType.TrackSignup, SIGNUP_EVENT, distinctId, originId, properties, false, ext, nowMs, callSite);
    }

    method ProfileSet(distinctId: GoString, distinctIdType: i64, properties: PropertyMap?, isLoginId: bool,
                      ext: Externals, nowMs: i64, callSite: Option<GoString>)
      returns (err: Option<SdkError>)
      modifies c
      ensures properties != null ==> properties.entries == old(properties.entries)
      ensures Follows(old(c.calls), c.calls,
                      PlanProfileSet(projectName, timeFree, distinctId, distinctIdType, Contents(properties),
                                     isLoginId, ext, nowMs, callSite), err)
    {
      if properties == null {
        return Some(NilProperties);
      }
      var nproperties := new PropertyMap(ext.deepCopy(properties.entries));
      nproperties.entries := nproperties.entries[DISTINCT_ID_TYPE_KEY := Int(distinctIdType)];
      err := Emit(RecordType.ProfileSet, "", distinctId, "", nproperties, isLoginId, ext, nowMs, callSite);
    }

    /** The shared body of ProfileSetOnce, ProfileIncrement, ProfileAppend
        and ProfileUnset, which differ only in the record type. */
    method ProfileUpdate(kind: RecordType, distinctId: GoString, properties: PropertyMap?, isLoginId: bool,
                         ext: Externals, nowMs: i64, callSite: Option<GoString>)
      returns (err: Option<SdkError>)
      requires kind.IsProfileUpdate()
      modifies c
      ensures properties != null ==> properties.entries == old(properties.entries)
      ensures Follows(old(c.calls), c.calls,
                      PlanProfileUpdate(kind, projectName, timeFree, distinctId, Contents(properties),
                                        isLoginId, ext, nowMs, callSite), err)
    {
      if properties == null {
        return Some(NilProperties);
      }
      var nproperties := new PropertyMap(ext.deepCopy(properties.entries));
      err := Emit(kind, "", distinctId, "", nproperties, isLoginId, ext, nowMs, callSite);
    }

    method ProfileSetOnce(distinctId: GoString, properties: PropertyMap?, isLoginId: bool,
                          ext: Externals, nowMs: i64, callSite: Option<GoString>)
      returns (err: Option<SdkError>)
      modifies c
      ensures Follows(old(c.calls), c.calls,
                      PlanProfileUpdate(RecordType.ProfileSetOnce, projectName, timeFree, distinctId, Contents(properties),
                                        isLoginId, ext, nowMs, callSite), err)
    {
      err := ProfileUpdate(RecordType.ProfileSetOnce, distinctId, properties, isLoginId, ext, nowMs, callSite);
    }

    method ProfileIncrement(distinctId: GoString, properties: PropertyMap?, isLoginId: bool,
                            ext: Externals, nowMs: i64, callSite: Option<GoString>)
      returns (err: Option<SdkError>)
      modifies c
      ensures Follows(old(c.calls), c.calls,
                      PlanProfileUpdate(RecordType.ProfileIncrement, projectName, timeFree, distinctId, Contents(properties),
                                        isLoginId, ext, nowMs, callSite), err)
    {
      err := ProfileUpdate(RecordType.ProfileIncrement, distinctId, properties, isLoginId, ext, nowMs, callSite);
    }

    method ProfileAppend(distinctId: GoString, properties: PropertyMap?, isLoginId: bool,
                         ext: Externals, nowMs: i64, callSite: Option<GoString>)
      returns (err: Option<SdkError>)
      modifies c
      ensures Follows(old(c.calls), c.calls,
                      PlanProfileUpdate(RecordType.ProfileAppend, projectName, timeFree, distinctId, Contents(properties),
                                        isLoginId, ext, nowMs, callSite), err)
    {
      err := ProfileUpdate(RecordType.ProfileAppend, distinctId, properties, isLoginId, ext, nowMs, callSite);
    }

    method ProfileUnset(distinctId: GoString, properties: PropertyMap?, isLoginId: bool,
                        ext: Externals, nowMs: i64, callSite: Option<GoString>)
      returns (err: Option<SdkError>)
      modifies c
      ensures Follows(old(c.calls), c.calls,
                      PlanProfileUpdate(RecordType.ProfileUnset, projectName, timeFree, distinctId, Contents(properties),
                                        isLoginId, ext, nowMs, callSite), err)
    {
      err := ProfileUpdate(RecordType.ProfileUnset, distinctId, properties, isLoginId, ext, nowMs, callSite);
    }

    method ProfileDelete(distinctId: GoString, isLoginId: bool,
                         ext: Externals, nowMs: i64, callSite: Option<GoString>)
      returns (err: Option<SdkError>)
      modifies c
      ensures Follows(old(c.calls), c.calls,
                      PlanProfileDelete(projectName, timeFree, distinctId, isLoginId, ext, nowMs, callSite), err)
    {
      var nproperties := new PropertyMap(map[]);
      err := Emit(RecordType.ProfileDelete, "", distinctId, "", nproperties, isLoginId, ext, nowMs, callSite);
    }

    /** ItemSet: the record holds the caller's own map; nothing here writes to it. */
    method ItemSet(itemType: GoString, itemId: GoString, properties: PropertyMap?,
                   ext: Externals, nowMs: i64, callSite: Option<GoString>)
      returns (err: Option<SdkError>)
      modifies c
      ensures Follows(old(c.calls), c.calls,
                      PlanItemSet(itemType, itemId, Contents(properties), ext, nowMs, callSite), err)
    {
      var libProperties := LibPropertiesAt(callSite);
      var time := nowMs;
      var entries := if properties == null then map[] else properties.entries;
      var itemData := ItemData(
        recordType := RecordType.ItemSet, itemId := itemId, time := time,
        itemType := itemType, properties := entries, lib := libProperties);
      var normErr := ext.normalizeItem(itemData);
      if normErr.Some? {
        return normErr;
      }
      err := c.ItemSend(itemData);
    }

    method ItemDelete(itemType: GoString, itemId: GoString,
                      ext: Externals, nowMs: i64, callSite: Option<GoString>)
      returns (err: Option<SdkError>)
      modifies c
      ensures Follows(old(c.calls), c.calls, PlanItemDelete(itemType, itemId, ext, nowMs, callSite), err)
    {
      var itemData := ItemData(
        recordType := RecordType.ItemDelete, itemId := itemId, time := nowMs,
        itemType := itemType, properties := map[], lib := LibPropertiesAt(callSite));
      var normErr := ext.normalizeItem(itemData);
      if normErr.Some? {
        return normErr;
      }
      err := c.ItemSend(itemData);
    }
  }
}
