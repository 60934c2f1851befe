/** The properties every Ariston entity shares: unique id, model text, the extra state
    attributes and availability (entity.py). */
module Entity {
  import opened Wrappers
  import Text

  const Unknown: string := "unknown"
  const UnknownModel: string := "Unknown Model"

  /** `unique_id`: gateway and name joined by '-', with the zone appended when it is not
      0. A missing gateway or name attribute reads as "unknown". */
  function UniqueId(gateway: Option<string>, name: Option<string>, zone: int): (s: string)
    ensures var base := gateway.GetOr(Unknown) + "-" + name.GetOr(Unknown);
      && |s| >= |base| && s[..|base|] == base
      && (zone == 0 <==> s == base)
      && (zone != 0 ==> s[|base|..] == "-" + Text.IntToString(zone))
  {
    var base := gateway.GetOr(Unknown) + "-" + name.GetOr(Unknown);
    if zone != 0 then base + "-" + Text.IntToString(zone) else base
  }

  /** On one gateway and under one name, entities of different zones have different
      unique ids. */
  lemma UniqueIdDistinguishesZones(gateway: Option<string>, name: Option<string>, z1: int, z2: int)
    ensures UniqueId(gateway, name, z1) == UniqueId(gateway, name, z2) ==> z1 == z2
  {
    var base := gateway.GetOr(Unknown) + "-" + name.GetOr(Unknown);
    if UniqueId(gateway, name, z1) == UniqueId(gateway, name, z2) && z1 != 0 && z2 != 0 {
      assert ("-" + Text.IntToString(z1))[1..] == Text.IntToString(z1);
      assert ("-" + Text.IntToString(z2))[1..] == Text.IntToString(z2);
      Text.IntToStringInjective(z1, z2);
    }
  }

  /** The device attributes `model` reads, or `ModelUnreadable` when reading them raises. */
  datatype ModelInfo =
    | ModelUnreadable
    | ModelInfo(systemType: string, wheType: string, wheTypeIsUnknown: bool, wheModelType: int)

  /** `model`. */
  function Model(m: ModelInfo): (s: string)
    ensures m.ModelUnreadable? ==> s == UnknownModel
    ensures m.ModelInfo? && m.wheModelType == 0 && m.wheTypeIsUnknown ==> s == m.systemType
    ensures m.ModelInfo? && m.wheModelType == 0 && !m.wheTypeIsUnknown ==> s == m.systemType + " " + m.wheType
    ensures m.ModelInfo? && m.wheModelType != 0 ==>
      s == m.systemType + " " + m.wheType + " | Model " + Text.IntToString(m.wheModelType)
  {
    match m
    case ModelUnreadable => UnknownModel
    case ModelInfo(system, whe, wheUnknown, modelType) =>
      if modelType == 0 then
        if wheUnknown then system else system + " " + whe
      else system + " " + whe + " | Model " + Text.IntToString(modelType)
  }

  // ---------------------------------------------------------------- extra attributes

  /** What one device method of an extra state does when called. */
  datatype MethodCall<V> = MethodRaises | MethodReturns(value: Option<V>)

  /** One entry of a description's extra_states: its device method, if any, and its
      attribute key, if any. */
  datatype ExtraState<V> = ExtraState(deviceMethod: Option<MethodCall<V>>, attribute: Option<string>)

  /** Whether an entry contributes an attribute: its method exists and returns a value,
      and its key is present and not empty. */
  predicate Contributes<V>(e: ExtraState<V>) {
    && e.deviceMethod.Some? && e.deviceMethod.value.MethodReturns? && e.deviceMethod.value.value.Some?
    && e.attribute.Some? && e.attribute.value != ""
  }

  /** The attributes collected from the entries in order, a later entry with the same
      key replacing an earlier one. */
  function Collected<V>(states: seq<ExtraState<V>>): map<string, V> {
    if states == [] then map[]
    else
      var n := |states| - 1;
      var e := states[n];
      if Contributes(e) then Collected(states[..n])[e.attribute.value := e.deviceMethod.value.value.value]
      else Collected(states[..n])
  }

  /** A key is collected exactly when some entry with that key contributes. */
  lemma {:induction false} CollectedKeys<V>(states: seq<ExtraState<V>>, k: string)
    ensures k in Collected(states) <==>
      exists i :: 0 <= i < |states| && Contributes(states[i]) && states[i].attribute.value == k
  {
    if states != [] {
      var n := |states| - 1;
      CollectedKeys(states[..n], k);
      if exists i :: 0 <= i < |states| && Contributes(states[i]) && states[i].attribute.value == k {
        var i :| 0 <= i < |states| && Contributes(states[i]) && states[i].attribute.value == k;
        if i < n {
          assert states[..n][i] == states[i];
        }
      }
      if exists i :: 0 <= i < n && Contributes(states[..n][i]) && states[..n][i].attribute.value == k {
        var i :| 0 <= i < n && Contributes(states[..n][i]) && states[..n][i].attribute.value == k;
        assert states[i] == states[..n][i];
      }
    }
  }

  /** The value under a key is the one the last contributing entry with that key
      returned. */
  lemma {:induction false} CollectedValue<V>(states: seq<ExtraState<V>>, i: nat)
    requires i < |states| && Contributes(states[i])
    requires forall j :: i < j < |states| && Contributes(states[j]) ==>
      states[j].attribute.value != states[i].attribute.value
    ensures states[i].attribute.value in Collected(states)
    ensures Collected(states)[states[i].attribute.value] == states[i].deviceMethod.value.value.value
  {
    var n := |states| - 1;
    if i < n {
      assert states[..n][i] == states[i];
      forall j | i < j < n && Contributes(states[..n][j])
        ensures states[..n][j].attribute.value != states[..n][i].attribute.value
      {
        assert states[..n][j] == states[j];
      }
      CollectedValue(states[..n], i);
    }
  }

  /** `extra_state_attributes`: None without extra_states; otherwise the collected
      attributes, or None when none were collected. An entry without a device method,
      whose method raises or returns None, or whose key is missing or empty adds
      nothing and does not stop the others. */
  method ExtraStateAttributes<V>(extraStates: Option<seq<ExtraState<V>>>) returns (r: Option<map<string, V>>)
    ensures extraStates.None? ==> r.None?
    ensures extraStates.Some? ==>
      r == (if Collected(extraStates.value) == map[] then None else Some(Collected(extraStates.value)))
  {
    if extraStates.None? {
      return None;
    }
    var states := extraStates.value;
    var attributes: map<string, V> := map[];
    var i := 0;
    while i < |states|
      invariant 0 <= i <= |states|
      invariant attributes == Collected(states[..i])
    {
      assert states[..i + 1][..i] == states[..i];
      var e := states[i];
      if e.deviceMethod.Some? {
        match e.deviceMethod.value
        case MethodRaises =>
        case MethodReturns(v) =>
          if v.Some? && e.attribute.Some? && e.attribute.value != "" {
            attributes := attributes[e.attribute.value := v.value];
          }
      }
      i := i + 1;
    }
    assert states[..i] == states;
    if attributes == map[] {
      return None;
    }
    return Some(attributes);
  }

  /** No attributes at all exactly when no entry contributes. */
  lemma NothingCollected<V>(states: seq<ExtraState<V>>)
    ensures Collected(states) == map[] <==> forall i :: 0 <= i < |states| ==> !Contributes(states[i])
  {
    if exists i :: 0 <= i < |states| && Contributes(states[i]) {
      var i :| 0 <= i < |states| && Contributes(states[i]);
      CollectedKeys(states, states[i].attribute.value);
    } else if Collected(states) != map[] {
      var k :| k in Collected(states);
      CollectedKeys(states, k);
    }
  }

  // ---------------------------------------------------------------- availability

  /** The coordinator an entity watches, as `available` sees it. */
  datatype CoordinatorView = CoordinatorView(isAvailable: bool, lastUpdateSuccess: bool)

  /** `available`: a coordinator exists, says it is available, and its last update
      succeeded. */
  function Available(coordinator: Option<CoordinatorView>): (b: bool)
    ensures b <==> coordinator.Some? && coordinator.value.isAvailable && coordinator.value.lastUpdateSuccess
  {
    match coordinator
    case None => false
    case Some(c) => c.isAvailable && c.lastUpdateSuccess
  }
}
