/** The package-level super-property map (zallanalytics.go:57): a map that
    starts nil, is created by the first registration or clear, and is merged
    into every Track and TrackSignup record. */
module SuperProperties {
  import opened GoValues
  import opened Records

  /** One change to the store; `None` is the nil map. */
  datatype StoreOp = Register(props: Props) | Clear | Unregister(key: GoString)

  /** RegisterSuperProperties: the map is created if it is nil, then the
      caller's properties are merged into it. */
  function Registered(s: Option<Props>, props: Props, ext: Externals): (r: Option<Props>)
    ensures r.Some?
    ensures s.None? ==> r.value == ext.mergeSuperProperty(props, map[])
    ensures s.Some? ==> r.value == ext.mergeSuperProperty(props, s.value)
  {
    Some(ext.mergeSuperProperty(props, s.GetOr(map[])))
  }

  /** UnregisterSuperProperty: Go's `delete`, a no-op on a nil map and on
      an absent key. */
  function Unregistered(s: Option<Props>, key: GoString): (r: Option<Props>)
    ensures r.Some? <==> s.Some?
    ensures r.Some? ==> key !in r.value && r.value.Keys <= s.value.Keys
    ensures r.Some? ==> forall k | k in s.value && k != key :: k in r.value && r.value[k] == s.value[k]
    ensures s.Some? && key !in s.value ==> r == s
  {
    match s
    case None => None
    case Some(m) =>
      assert key !in m ==> m - {key} == m;
      Some(m - {key})
  }

  function Step(s: Option<Props>, op: StoreOp, ext: Externals): (r: Option<Props>)
    ensures op.Clear? ==> r == Some(map[])
    ensures op.Register? ==> r == Registered(s, op.props, ext)
    ensures op.Unregister? ==> r == Unregistered(s, op.key)
  {
    match op
    case Register(props) => Registered(s, props, ext)
    case Clear => Some(map[])
    case Unregister(key) => Unregistered(s, key)
  }

  /** The store after a sequence of operations, in order. */
  function Run(s: Option<Props>, ops: seq<StoreOp>, ext: Externals): Option<Props>
    decreases |ops|
  {
    if ops == [] then s else Run(Step(s, ops[0], ext), ops[1..], ext)
  }

  /** Running two sequences one after the other is running their concatenation. */
  lemma {:induction false} RunAppend(s: Option<Props>, ops1: seq<StoreOp>, ops2: seq<StoreOp>, ext: Externals)
    ensures Run(s, ops1 + ops2, ext) == Run(Run(s, ops1, ext), ops2, ext)
    decreases |ops1|
  {
    if ops1 == [] {
      assert ops1 + ops2 == ops2;
    } else {
      assert (ops1 + ops2)[1..] == ops1[1..] + ops2;
      RunAppend(Step(s, ops1[0], ext), ops1[1..], ops2, ext);
    }
  }

  /** A clear forgets everything that came before it. */
  lemma {:induction false} ClearForgetsHistory(s: Option<Props>, before: seq<StoreOp>, after: seq<StoreOp>, ext: Externals)
    ensures Run(s, before + [Clear] + after, ext) == Run(Some(map[]), after, ext)
  {
    RunAppend(s, before, [Clear] + after, ext);
    assert before + [Clear] + after == before + ([Clear] + after);
    assert ([Clear] + after)[1..] == after;
  }

  /** Once the map exists it is never nil again: no operation sets it back to nil. */
  lemma {:induction false} NeverNilAgain(s: Option<Props>, ops: seq<StoreOp>, ext: Externals)
    requires s.Some?
    ensures Run(s, ops, ext).Some?
    decreases |ops|
  {
    if ops != [] {
      NeverNilAgain(Step(s, ops[0], ext), ops[1..], ext);
    }
  }

  /** Starting from the nil map, the map stays nil exactly as long as only
      unregistrations have happened. */
  lemma {:induction false} NilUntilWritten(ops: seq<StoreOp>, ext: Externals)
    ensures Run(None, ops, ext).None? <==> forall i | 0 <= i < |ops| :: ops[i].Unregister?
    decreases |ops|
  {
    if ops != [] {
      if ops[0].Unregister? {
        NilUntilWritten(ops[1..], ext);
        assert forall i | 1 <= i < |ops| :: ops[i] == ops[1..][i - 1];
      } else {
        NeverNilAgain(Step(None, ops[0], ext), ops[1..], ext);
      }
    }
  }

  /** One unregistration per key, in order. */
  function Unregisters(keys: seq<GoString>): seq<StoreOp>
    decreases |keys|
  {
    if keys == [] then [] else [Unregister(keys[0])] + Unregisters(keys[1..])
  }

  /** Unregistering a list of keys removes exactly those keys and keeps every
      other entry as it was. */
  lemma {:induction false} UnregisterEach(m: Props, keys: seq<GoString>, ext: Externals)
    ensures Run(Some(m), Unregisters(keys), ext) == Some(m - (set k | k in keys))
    decreases |keys|
  {
    if keys == [] {
      assert m - (set k | k in keys) == m;
    } else {
      assert Unregisters(keys)[1..] == Unregisters(keys[1..]);
      UnregisterEach(m - {keys[0]}, keys[1..], ext);
      assert (m - {keys[0]}) - (set k | k in keys[1..]) == m - (set k | k in keys);
    }
  }

  /** The package-level map itself. */
  class SuperPropertyStore {
    var props: Option<Props>

    /** At program start the package variable is a nil map. */
    constructor ()
      ensures props == None
    {
      props := None;
    }

    method RegisterSuperProperties(superProperty: PropertyMap?, ext: Externals)
      modifies this
      ensures props.Some?
      ensures props == Step(old(props), Register(if superProperty == null then map[] else superProperty.entries), ext)
    {
      if props == None {
        props := Some(map[]);
      }
      var source := if superProperty == null then map[] else superProperty.entries;
      props := Some(ext.mergeSuperProperty(source, props.value));
    }

    method ClearSuperProperties()
      modifies this
      ensures props == Some(map[])
    {
      props := Some(map[]);
    }

    method UnregisterSuperProperty(key: GoString)
      modifies this
      ensures props.Some? == old(props).Some?
      ensures props.Some? ==> props.value == old(props).value - {key}
      ensures props == Unregistered(old(props), key)
    {
      if props.Some? {
        props := Some(props.value - {key});
      }
    }
  }
}
