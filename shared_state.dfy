/**
 * The two resources the delegate shares with the rest of the app: the
 * `UserDefaults.standard` store (string keys to string values) and the Flutter
 * method channels. A `Step` is one effect on either, in program order; a run
 * of the delegate is a sequence of steps.
 */
module SharedState {
  import opened Wrappers
  import opened Channel

  const DeviceTokenKey := "deviceToken"
  const AppleUserIdKey := "appleUserID"

  type Store = map<string, string>

  datatype Step = Write(key: string, value: string) | Remove(key: string) | Emit(event: Event)

  /** The store after the steps, starting from `store`. */
  function Replay(store: Store, steps: seq<Step>): Store
    decreases |steps|
  {
    if steps == [] then store
    else
      var last := steps[|steps| - 1];
      var before := Replay(store, steps[..|steps| - 1]);
      match last
      case Write(k, v) => before[k := v]
      case Remove(k) => before - {k}
      case Emit(_) => before
  }

  /** The channel invocations among the steps, in order. */
  function Emitted(steps: seq<Step>): (events: seq<Event>)
    ensures |events| <= |steps|
    decreases |steps|
  {
    if steps == [] then []
    else
      var rest := Emitted(steps[..|steps| - 1]);
      match steps[|steps| - 1]
      case Emit(e) => rest + [e]
      case _ => rest
  }

  /** The steps of an optional channel invocation: none, or one `Emit`. */
  function Emission(event: Option<Event>): (steps: seq<Step>)
    ensures |steps| <= 1 && Emitted(steps) == ToSeq(event)
    ensures forall i :: 0 <= i < |steps| ==> steps[i].Emit?
  {
    match event
    case None => []
    case Some(e) => [Emit(e)]
  }

  /** Does any step touch `key`? */
  predicate Touches(steps: seq<Step>, key: string) {
    exists i :: 0 <= i < |steps| && !steps[i].Emit? && steps[i].key == key
  }

  /** Replaying two runs one after the other is replaying their concatenation. */
  lemma {:induction false} ReplayAppend(store: Store, s1: seq<Step>, s2: seq<Step>)
    ensures Replay(store, s1 + s2) == Replay(Replay(store, s1), s2)
    decreases |s2|
  {
    if s2 != [] {
      var s := s1 + s2;
      assert s[..|s| - 1] == s1 + s2[..|s2| - 1];
      assert s[|s| - 1] == s2[|s2| - 1];
      ReplayAppend(store, s1, s2[..|s2| - 1]);
    } else {
      assert s1 + s2 == s1;
    }
  }

  lemma {:induction false} EmittedAppend(s1: seq<Step>, s2: seq<Step>)
    ensures Emitted(s1 + s2) == Emitted(s1) + Emitted(s2)
    decreases |s2|
  {
    if s2 != [] {
      var s := s1 + s2;
      assert s[..|s| - 1] == s1 + s2[..|s2| - 1];
      assert s[|s| - 1] == s2[|s2| - 1];
      EmittedAppend(s1, s2[..|s2| - 1]);
    } else {
      assert s1 + s2 == s1;
    }
  }

  /** Steps that never touch `key` leave its entry (present or absent) as it was. */
  lemma {:induction false} ReplayUntouched(store: Store, steps: seq<Step>, key: string)
    requires !Touches(steps, key)
    ensures key in Replay(store, steps) <==> key in store
    ensures key in store ==> Replay(store, steps)[key] == store[key]
    decreases |steps|
  {
    if steps != [] {
      var init := steps[..|steps| - 1];
      assert !Touches(init, key) by {
        forall i | 0 <= i < |init| ensures !(!init[i].Emit? && init[i].key == key) {
          assert init[i] == steps[i];
        }
      }
      ReplayUntouched(store, init, key);
    }
  }
}
