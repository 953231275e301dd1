/** The records the client assembles, the constants it stamps into them,
    the errors it reports, and the collaborators it calls without their
    code being part of this model. */
module Records {
  import opened GoValues

  // The record-type tags, the identity-binding kinds and the library tags.
  const TRACK: GoString := "track"
  const TRACK_SIGNUP: GoString := "track_signup"
  const PROFILE_SET: GoString := "profile_set"
  const PROFILE_SET_ONCE: GoString := "profile_set_once"
  const PROFILE_INCREMENT: GoString := "profile_increment"
  const PROFILE_APPEND: GoString := "profile_append"
  const PROFILE_UNSET: GoString := "profile_unset"
  const PROFILE_DELETE: GoString := "profile_delete"
  const ITEM_SET: GoString := "item_set"
  const ITEM_DELETE: GoString := "item_delete"

  const BIND_DEVICE_ID: i64 := 0
  const BIND_LOGIN_ID: i64 := 1
  const BIND_MOBILE: i64 := 2
  const BIND_UNION_ID: i64 := 3
  const BIND_OPEN_ID: i64 := 4
  const BIND_EXTERNAL_ID: i64 := 5

  const SDK_VERSION: GoString := "1.0.3"
  const LIB_NAME: GoString := "Golang"

  /** Longest original id, in bytes, that a sign-up accepts. */
  const MAX_ID_LEN: nat := 255

  // Property names the client writes itself.
  const TIME_KEY: GoString := "$time"
  const LIB_KEY: GoString := "$lib"
  const LIB_VERSION_KEY: GoString := "$lib_version"
  const LOGIN_FLAG_KEY: GoString := "$is_login_id"
  const DISTINCT_ID_TYPE_KEY: GoString := "$distinctIdType"
  const ORIGINAL_ID_TYPE_KEY: GoString := "$originalIdType"

  /** Event name of every sign-up record. */
  const SIGNUP_EVENT: GoString := "$SignUp"

  /** The `Type` of a record. The source compares tag strings; the tags are
      pairwise different (TagIsInjective), so comparing constructors is the same. */
  datatype RecordType =
    | Track | TrackSignup
    | ProfileSet | ProfileSetOnce | ProfileIncrement | ProfileAppend | ProfileUnset | ProfileDelete
    | ItemSet | ItemDelete
  {
    function Tag(): GoString {
      match this
      case Track => TRACK
      case TrackSignup => TRACK_SIGNUP
      case ProfileSet => PROFILE_SET
      case ProfileSetOnce => PROFILE_SET_ONCE
      case ProfileIncrement => PROFILE_INCREMENT
      case ProfileAppend => PROFILE_APPEND
      case ProfileUnset => PROFILE_UNSET
      case ProfileDelete => PROFILE_DELETE
      case ItemSet => ITEM_SET
      case ItemDelete => ITEM_DELETE
    }

    /** Record types that carry an event name. */
    predicate IsEvent() {
      this == Track || this == TrackSignup
    }

    /** Record types that are profile updates keyed on a caller map. */
    predicate IsProfileUpdate() {
      this == ProfileSetOnce || this == ProfileIncrement || this == ProfileAppend || this == ProfileUnset
    }
  }

  lemma TagIsInjective(a: RecordType, b: RecordType)
    ensures a.Tag() == b.Tag() <==> a == b
  {
  }

  /** Library metadata attached to every record. */
  datatype LibProperties = LibProperties(lib: GoString, libVersion: GoString, libMethod: GoString, libDetail: GoString)

  /** The library metadata for one call: the fixed name, version and method
      tag, and the formatted call site when the runtime could find one. */
  function LibPropertiesAt(callSite: Option<GoString>): (lp: LibProperties)
    ensures lp.lib == "Golang" && lp.libVersion == "1.0.3" && lp.libMethod == "code"
    ensures callSite.Some? ==> lp.libDetail == callSite.value
    ensures callSite.None? ==> lp.libDetail == ""
  {
    LibProperties(LIB_NAME, SDK_VERSION, "code", callSite.GetOr(""))
  }

  /** An event or profile record. A field the builder leaves unset holds
      Go's zero value ("" or false). */
  datatype EventData = EventData(
    recordType: RecordType,
    time: i64,
    distinctId: GoString,
    originId: GoString,
    event: GoString,
    project: GoString,
    timeFree: bool,
    properties: Props,
    lib: LibProperties)

  /** An item record. */
  datatype ItemData = ItemData(
    recordType: RecordType,
    itemId: GoString,
    time: i64,
    itemType: GoString,
    properties: Props,
    lib: LibProperties)

  /** What the client hands to its consumer. */
  datatype Payload = EventPayload(data: EventData) | ItemPayload(item: ItemData)

  datatype SdkError =
    | EmptyOriginId
    | OriginIdTooLong
    | NilProperties
    /** An error returned by a normaliser or by the consumer; its text is theirs. */
    | Reported(reason: string)
  {
    /** The text of the error: the client's own three errors carry fixed,
        pairwise different texts, and a reported error keeps its reason. */
    function Message(): (text: string)
      ensures EmptyOriginId? ==> text == "property [original_id] must not be empty"
      ensures OriginIdTooLong? ==> text == "the max length of property [original_id] is 255"
      ensures NilProperties? ==> text == "property should not be nil"
      ensures Reported? ==> text == reason
    {
      match this
      case EmptyOriginId => "property [original_id] must not be empty"
      case OriginIdTooLong => "the max length of property [original_id] is 255"
      case NilProperties => "property should not be nil"
      case Reported(reason) => reason
    }
  }

  /** A caller can tell the client's own errors apart by their text alone. */
  lemma MessagesDistinguishErrors(e1: SdkError, e2: SdkError)
    requires !e1.Reported? && !e2.Reported?
    ensures e1.Message() == e2.Message() <==> e1 == e2
  {
  }

  /** The functions of the `utils` and `structs` packages that the client
      calls. Only their signatures are known, so they are parameters:
      - deepCopy: `utils.DeepCopy`, the contents of a fresh copy of a map;
      - mergeSuperProperty: `utils.MergeSuperProperty(src, dst)`, the new
        contents of `dst` (which side wins on a shared key is not known);
      - normalizeData, normalizeItem: `EventData.NormalizeData` and
        `Item.NormalizeItem`, `None` for a nil error. */
  datatype Externals = Externals(
    deepCopy: Props -> Props,
    mergeSuperProperty: (Props, Props) -> Props,
    normalizeData: EventData -> Option<SdkError>,
    normalizeItem: ItemData -> Option<SdkError>)
}
