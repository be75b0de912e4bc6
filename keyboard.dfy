/**
 * The keyboard callback of the scene viewer: a held-key vector of 1024
 * booleans, written in place on press and release, and the window's
 * should-close flag, raised by Escape.
 */
module Keyboard {
  import opened Optional
  import opened Glfw

  /** Number of entries of the held-key vector: key codes 0 to 1023. */
  const KEY_COUNT: nat := 1024

  /** Key codes the callback records; all others are ignored. */
  predicate InRange(key: int) {
    0 <= key < KEY_COUNT
  }

  /** An event that asks the window to close: Escape pressed. */
  predicate RequestsClose(key: int, action: int) {
    key == KEY_ESCAPE && action == PRESS
  }

  /** The held-key vector after one key event. */
  function KeyTransition(held: seq<bool>, key: int, action: int): (r: seq<bool>)
    requires |held| == KEY_COUNT
    ensures |r| == KEY_COUNT
  {
    if InRange(key) && action == PRESS then held[key := true]
    else if InRange(key) && action == RELEASE then held[key := false]
    else held
  }

  /** A press of an in-range key sets that entry and no other. */
  lemma PressSetsOnlyThatKey(held: seq<bool>, key: int)
    requires |held| == KEY_COUNT && InRange(key)
    ensures KeyTransition(held, key, PRESS)[key]
    ensures forall i :: 0 <= i < KEY_COUNT && i != key ==> KeyTransition(held, key, PRESS)[i] == held[i]
  {
  }

  /** A release of an in-range key clears that entry and no other. */
  lemma ReleaseClearsOnlyThatKey(held: seq<bool>, key: int)
    requires |held| == KEY_COUNT && InRange(key)
    ensures !KeyTransition(held, key, RELEASE)[key]
    ensures forall i :: 0 <= i < KEY_COUNT && i != key ==> KeyTransition(held, key, RELEASE)[i] == held[i]
  {
  }

  /**
   * Out-of-range key codes (1024, -1, ...) and actions other than press and
   * release (such as repeat) leave the vector as it was.
   */
  lemma IgnoredEventsLeaveVector(held: seq<bool>, key: int, action: int)
    requires |held| == KEY_COUNT
    requires !InRange(key) || (action != PRESS && action != RELEASE)
    ensures KeyTransition(held, key, action) == held
  {
  }

  /**
   * Escape is below 1024, so the press that closes the window (see
   * KeyCallback) is also recorded as held, like any other key.
   */
  lemma EscapePressIsAlsoHeld(held: seq<bool>)
    requires |held| == KEY_COUNT
    ensures InRange(KEY_ESCAPE) && KeyTransition(held, KEY_ESCAPE, PRESS)[KEY_ESCAPE]
    ensures forall i :: 0 <= i < KEY_COUNT && i != KEY_ESCAPE ==> KeyTransition(held, KEY_ESCAPE, PRESS)[i] == held[i]
  {
  }

  /** A key event as the window system delivers it. */
  datatype KeyEvent = KeyEvent(key: int, action: int)

  /** The held-key vector after a run of events, oldest first. */
  function Replay(held: seq<bool>, events: seq<KeyEvent>): (r: seq<bool>)
    requires |held| == KEY_COUNT
    ensures |r| == KEY_COUNT
    decreases |events|
  {
    if events == [] then held
    else
      var e := events[|events| - 1];
      KeyTransition(Replay(held, events[..|events| - 1]), e.key, e.action)
  }

  /**
   * The most recent press (Some(true)) or release (Some(false)) of `key`
   * among `events`, or None when there is none.
   */
  function LastTransition(events: seq<KeyEvent>, key: int): (r: Option<bool>)
    ensures r.Some? ==> exists i :: 0 <= i < |events| && events[i].key == key
    decreases |events|
  {
    if events == [] then None
    else
      var e := events[|events| - 1];
      if e.key == key && e.action == PRESS then Some(true)
      else if e.key == key && e.action == RELEASE then Some(false)
      else LastTransition(events[..|events| - 1], key)
  }

  /**
   * What the vector means: after any run of events, key `key` is held exactly
   * when its latest press-or-release was a press, and keeps its initial value
   * when it had none.
   */
  lemma {:induction false} HeldIffLastTransitionIsPress(held: seq<bool>, events: seq<KeyEvent>, key: int)
    requires |held| == KEY_COUNT && InRange(key)
    ensures Replay(held, events)[key] == match LastTransition(events, key)
                                         case Some(pressed) => pressed
                                         case None => held[key]
  {
    if events != [] {
      HeldIffLastTransitionIsPress(held, events[..|events| - 1], key);
    }
  }

  /** Events that all carry out-of-range key codes never touch the vector. */
  lemma {:induction false} OutOfRangeEventsIgnored(held: seq<bool>, events: seq<KeyEvent>)
    requires |held| == KEY_COUNT
    requires forall i :: 0 <= i < |events| ==> !InRange(events[i].key)
    ensures Replay(held, events) == held
  {
    if events != [] {
      OutOfRangeEventsIgnored(held, events[..|events| - 1]);
    }
  }

  /** The held-key vector and the window's should-close flag. */
  class KeyboardInput {
    /** Entry k is true while key k is held. */
    const held: array<bool>
    /** Set once Escape is pressed; never cleared by the callback. */
    var shouldClose: bool

    ghost predicate Valid()
      reads this
    {
      held.Length == KEY_COUNT
    }

    /** A vector of 1024 released keys and a window that stays open. */
    constructor ()
      ensures Valid() && fresh(held)
      ensures forall k :: 0 <= k < KEY_COUNT ==> !held[k]
      ensures !shouldClose
    {
      held := new bool[KEY_COUNT](_ => false);
      shouldClose := false;
    }

    /** The keyboard event callback: one event, `key` pressed, released or repeated. */
    method KeyCallback(key: int, action: int)
      requires Valid()
      modifies this, held
      ensures Valid()
      ensures held[..] == KeyTransition(old(held[..]), key, action)
      ensures InRange(key) && action == PRESS ==> held[key]
      ensures InRange(key) && action == RELEASE ==> !held[key]
      ensures forall i :: 0 <= i < KEY_COUNT && (i != key || (action != PRESS && action != RELEASE)) ==>
                held[i] == old(held[i])
      ensures shouldClose == (old(shouldClose) || RequestsClose(key, action))
    {
      if key == KEY_ESCAPE && action == PRESS {
        shouldClose := true;
      }
      if 0 <= key < KEY_COUNT {
        if action == PRESS {
          held[key] := true;
        } else if action == RELEASE {
          held[key] := false;
        }
      }
    }
  }
}
