/** The per-frame keyboard state machine (src/engine/input/inputmanager.cpp,
    inputmanager.hpp): key events update the held-key map and the lists of keys
    pressed and released this frame; `update` starts a new frame. */
module Input {

  datatype Option<T> = None | Some(value: T)

  /** `SDL_Scancode`. */
  type Scancode = nat

  /** The part of an `SDL_Event` the manager reads: its type, and for key
      events the scancode and the auto-repeat flag. */
  datatype Event =
    | KeyDown(scancode: Scancode, repeat: bool)
    | KeyUp(scancode: Scancode)
    | Other

  /** `std::find` over a vector: the index of the first occurrence of `key`,
      or `|s|` (the end iterator) when there is none. */
  function Find(s: seq<Scancode>, key: Scancode): (i: nat)
    ensures i <= |s|
    ensures i < |s| ==> s[i] == key
    ensures forall j :: 0 <= j < i ==> s[j] != key
  {
    if s == [] then 0
    else if s[0] == key then 0
    else 1 + Find(s[1..], key)
  }

  // ---------------------------------------------------------------------------
  // The manager's four fields as a value, and what one event and one update do
  // to them. The class below is proved to follow these; the lemmas about whole
  // frames are stated over them.
  // ---------------------------------------------------------------------------

  datatype Snapshot = Snapshot(
    currentKeys: map<Scancode, bool>,
    previousKeys: map<Scancode, bool>,
    keysPressed: seq<Scancode>,
    keysReleased: seq<Scancode>)

  function Step(s: Snapshot, e: Event): Snapshot
  {
    match e
    case KeyDown(k, repeat) =>
      if repeat then s
      else s.(currentKeys := s.currentKeys[k := true], keysPressed := s.keysPressed + [k])
    case KeyUp(k) =>
      s.(currentKeys := s.currentKeys[k := false], keysReleased := s.keysReleased + [k])
    case Other => s
  }

  function EndFrame(s: Snapshot): Snapshot
  {
    Snapshot(s.currentKeys, s.currentKeys, [], [])
  }

  /** The state after `process_event` has been called on each of `events`, in order. */
  function ProcessAll(s: Snapshot, events: seq<Event>): Snapshot
    decreases |events|
  {
    if events == [] then s
    else Step(ProcessAll(s, events[..|events| - 1]), events[|events| - 1])
  }

  /** What an event says about `key` being held: a non-repeat key-down holds it,
      a key-up releases it, anything else says nothing. */
  function Transition(e: Event, key: Scancode): Option<bool>
  {
    match e
    case KeyDown(k, repeat) => if k == key && !repeat then Some(true) else None
    case KeyUp(k) => if k == key then Some(false) else None
    case Other => None
  }

  /** The scancodes of the non-repeat key-downs among `events`, in order. */
  function Downs(events: seq<Event>): seq<Scancode>
    decreases |events|
  {
    if events == [] then []
    else
      var e := events[|events| - 1];
      Downs(events[..|events| - 1]) + (if e.KeyDown? && !e.repeat then [e.scancode] else [])
  }

  /** The scancodes of the key-ups among `events`, in order. */
  function Ups(events: seq<Event>): seq<Scancode>
    decreases |events|
  {
    if events == [] then []
    else
      var e := events[|events| - 1];
      Ups(events[..|events| - 1]) + (if e.KeyUp? then [e.scancode] else [])
  }

  /** Over a run of events the pressed list grows by exactly the non-repeat
      key-downs, in order, duplicates kept. */
  lemma {:induction false} PressedListIsDowns(s: Snapshot, events: seq<Event>)
    ensures ProcessAll(s, events).keysPressed == s.keysPressed + Downs(events)
    decreases |events|
  {
    if events != [] {
      PressedListIsDowns(s, events[..|events| - 1]);
    }
  }

  /** Over a run of events the released list grows by exactly the key-ups, in order. */
  lemma {:induction false} ReleasedListIsUps(s: Snapshot, events: seq<Event>)
    ensures ProcessAll(s, events).keysReleased == s.keysReleased + Ups(events)
    decreases |events|
  {
    if events != [] {
      ReleasedListIsUps(s, events[..|events| - 1]);
    }
  }

  /** Events never touch the previous frame's key map. */
  lemma {:induction false} EventsKeepPreviousKeys(s: Snapshot, events: seq<Event>)
    ensures ProcessAll(s, events).previousKeys == s.previousKeys
    decreases |events|
  {
    if events != [] {
      EventsKeepPreviousKeys(s, events[..|events| - 1]);
    }
  }

  /** One event's effect on one key's entry in the held-key map. */
  lemma StepOnKey(t: Snapshot, e: Event, key: Scancode)
    ensures Transition(e, key).Some? ==>
              key in Step(t, e).currentKeys && Step(t, e).currentKeys[key] == Transition(e, key).value
    ensures Transition(e, key) == None ==>
              (key in Step(t, e).currentKeys <==> key in t.currentKeys) &&
              (key in t.currentKeys ==> Step(t, e).currentKeys[key] == t.currentKeys[key])
  {
  }

  /** A key no event of the run says anything about keeps its entry (or its absence)
      in the held-key map. */
  lemma {:induction false} UntouchedKeyKeepsEntry(s: Snapshot, events: seq<Event>, key: Scancode)
    requires forall i :: 0 <= i < |events| ==> Transition(events[i], key) == None
    ensures key in ProcessAll(s, events).currentKeys <==> key in s.currentKeys
    ensures key in s.currentKeys ==> ProcessAll(s, events).currentKeys[key] == s.currentKeys[key]
    decreases |events|
  {
    if events != [] {
      var n := |events| - 1;
      assert forall i :: 0 <= i < n ==> events[..n][i] == events[i];
      UntouchedKeyKeepsEntry(s, events[..n], key);
      StepOnKey(ProcessAll(s, events[..n]), events[n], key);
    }
  }

  /** A key's entry in the held-key map is what the last event about it set:
      held after a non-repeat key-down, not held after a key-up. */
  lemma {:induction false} HeldKeyFollowsLastTransition(s: Snapshot, events: seq<Event>, key: Scancode, i: nat)
    requires i < |events| && Transition(events[i], key).Some?
    requires forall j :: i < j < |events| ==> Transition(events[j], key) == None
    ensures key in ProcessAll(s, events).currentKeys
    ensures ProcessAll(s, events).currentKeys[key] == Transition(events[i], key).value
    decreases |events|
  {
    var n := |events| - 1;
    StepOnKey(ProcessAll(s, events[..n]), events[n], key);
    if i < n {
      assert forall j :: 0 <= j < n ==> events[..n][j] == events[j];
      HeldKeyFollowsLastTransition(s, events[..n], key, i);
    }
  }

  lemma {:induction false} InDowns(events: seq<Event>, key: Scancode)
    ensures key in Downs(events) <==> exists i :: 0 <= i < |events| && events[i] == KeyDown(key, false)
    decreases |events|
  {
    if events != [] {
      var n := |events| - 1;
      InDowns(events[..n], key);
      assert forall i :: 0 <= i < n ==> events[i] == events[..n][i];
    }
  }

  lemma {:induction false} InUps(events: seq<Event>, key: Scancode)
    ensures key in Ups(events) <==> exists i :: 0 <= i < |events| && events[i] == KeyUp(key)
    decreases |events|
  {
    if events != [] {
      var n := |events| - 1;
      InUps(events[..n], key);
      assert forall i :: 0 <= i < n ==> events[i] == events[..n][i];
    }
  }

  /** Within a frame that started with `update`, a key reports pressed iff a
      non-repeat key-down for it arrived, and released iff a key-up for it arrived. */
  lemma {:induction false} QueriesReportThisFrame(s: Snapshot, events: seq<Event>, key: Scancode)
    requires s.keysPressed == [] && s.keysReleased == []
    ensures key in ProcessAll(s, events).keysPressed <==>
            exists i :: 0 <= i < |events| && events[i] == KeyDown(key, false)
    ensures key in ProcessAll(s, events).keysReleased <==>
            exists i :: 0 <= i < |events| && events[i] == KeyUp(key)
  {
    PressedListIsDowns(s, events);
    ReleasedListIsUps(s, events);
    InDowns(events, key);
    InUps(events, key);
  }

  /** A key tapped within one frame (down, then up) reports both pressed and
      released, and is no longer held. */
  lemma {:induction false} TapReportsBoth(s: Snapshot, key: Scancode)
    ensures var t := ProcessAll(s, [KeyDown(key, false), KeyUp(key)]);
            key in t.keysPressed && key in t.keysReleased &&
            key in t.currentKeys && !t.currentKeys[key]
  {
  }

  /** The per-frame lists are vectors: down, up, down in one fresh frame leaves
      the key in the pressed list twice. */
  lemma {:induction false} PressedTwiceListedTwice(s: Snapshot, key: Scancode)
    requires s.keysPressed == []
    ensures ProcessAll(s, [KeyDown(key, false), KeyUp(key), KeyDown(key, false)]).keysPressed == [key, key]
  {
    var events := [KeyDown(key, false), KeyUp(key), KeyDown(key, false)];
    PressedListIsDowns(s, events);
    assert events[..2] == [KeyDown(key, false), KeyUp(key)];
    assert events[..2][..1] == [KeyDown(key, false)];
    assert events[..2][..1][..0] == [];
    assert Downs(events[..2][..1]) == [key];
    assert Downs(events[..2]) == [key];
  }

  // ---------------------------------------------------------------------------
  // InputManager
  // ---------------------------------------------------------------------------

  /** `InputManager`. Only `ProcessEvent` and `Update` change its fields; the
      two queries are functions and cannot. */
  class InputManager {
    var currentKeys: map<Scancode, bool>
    var previousKeys: map<Scancode, bool>
    var keysPressedThisFrame: seq<Scancode>
    var keysReleasedThisFrame: seq<Scancode>

    function State(): Snapshot
      reads this
    {
      Snapshot(currentKeys, previousKeys, keysPressedThisFrame, keysReleasedThisFrame)
    }

    constructor ()
      ensures currentKeys == map[] && previousKeys == map[]
      ensures keysPressedThisFrame == [] && keysReleasedThisFrame == []
      ensures forall key :: !IsKeyPressed(key) && !IsKeyReleased(key)
    {
      currentKeys := map[];
      previousKeys := map[];
      keysPressedThisFrame := [];
      keysReleasedThisFrame := [];
    }

    method ProcessEvent(event: Event)
      modifies this
      ensures State() == Step(old(State()), event)
      ensures event.KeyDown? && !event.repeat ==>
                && currentKeys == old(currentKeys)[event.scancode := true]
                && keysPressedThisFrame == old(keysPressedThisFrame) + [event.scancode]
                && keysReleasedThisFrame == old(keysReleasedThisFrame)
                && previousKeys == old(previousKeys)
      ensures event.KeyUp? ==>
                && currentKeys == old(currentKeys)[event.scancode := false]
                && keysReleasedThisFrame == old(keysReleasedThisFrame) + [event.scancode]
                && keysPressedThisFrame == old(keysPressedThisFrame)
                && previousKeys == old(previousKeys)
      ensures (event.KeyDown? && event.repeat) || event.Other? ==> State() == old(State())
    {
      match event
      case KeyDown(k, repeat) =>
        if !repeat {
          currentKeys := currentKeys[k := true];
          keysPressedThisFrame := keysPressedThisFrame + [k];
        }
      case KeyUp(k) =>
        currentKeys := currentKeys[k := false];
        keysReleasedThisFrame := keysReleasedThisFrame + [k];
      case Other =>
    }

    method Update()
      modifies this
      ensures State() == EndFrame(old(State()))
      ensures previousKeys == currentKeys == old(currentKeys)
      ensures keysPressedThisFrame == [] && keysReleasedThisFrame == []
      ensures forall key :: !IsKeyPressed(key) && !IsKeyReleased(key)
    {
      previousKeys := currentKeys;
      keysPressedThisFrame := [];
      keysReleasedThisFrame := [];
    }

    function IsKeyPressed(key: Scancode): (r: bool)
      reads this
      ensures r <==> key in keysPressedThisFrame
    {
      Find(keysPressedThisFrame, key) != |keysPressedThisFrame|
    }

    function IsKeyReleased(key: Scancode): (r: bool)
      reads this
      ensures r <==> key in keysReleasedThisFrame
    {
      Find(keysReleasedThisFrame, key) != |keysReleasedThisFrame|
    }
  }
}
