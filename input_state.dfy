/** The keyboard binding state of src/input_state.rs: four held-key flags,
    set on a key press and cleared on its release. */
module InputState {

  /** The piston keys the bindings mention; every other key is `OtherKey`. */
  datatype Key = W | A | S | D | OtherKey(code: nat)

  /** A piston `Button`: a keyboard key, or a mouse or controller button. */
  datatype Button = Keyboard(key: Key) | NonKeyboard

  /** A piston `Input` event: press or release of a button, or anything
      else (mouse motion, text, resize, focus, ...). */
  datatype Input = Press(button: Button) | Release(button: Button) | Other

  /** A snapshot of the four flags of `InputState`. */
  datatype Keys = Keys(forward: bool, left: bool, right: bool, back: bool)

  const NoKeys: Keys := Keys(false, false, false, false)

  /** The flag bound to key `k`, after an event that presses (`down`) or
      releases (`!down`) it. */
  function Bind(s: Keys, k: Key, down: bool): (r: Keys)
    ensures k == W ==> r == s.(forward := down)
    ensures k == A ==> r == s.(left := down)
    ensures k == D ==> r == s.(right := down)
    ensures k == S ==> r == s.(back := down)
    ensures k.OtherKey? ==> r == s
  {
    match k
    case W => s.(forward := down)
    case A => s.(left := down)
    case D => s.(right := down)
    case S => s.(back := down)
    case OtherKey(_) => s
  }

  /** The effect of one event on the flags: the specification of
      `InputState.HandleEvent`. */
  function Handled(s: Keys, e: Input): (r: Keys)
    ensures e.Press? && e.button == Keyboard(W) ==> r == s.(forward := true)
    ensures e.Press? && e.button == Keyboard(A) ==> r == s.(left := true)
    ensures e.Press? && e.button == Keyboard(D) ==> r == s.(right := true)
    ensures e.Press? && e.button == Keyboard(S) ==> r == s.(back := true)
    ensures e.Release? && e.button == Keyboard(W) ==> r == s.(forward := false)
    ensures e.Release? && e.button == Keyboard(A) ==> r == s.(left := false)
    ensures e.Release? && e.button == Keyboard(D) ==> r == s.(right := false)
    ensures e.Release? && e.button == Keyboard(S) ==> r == s.(back := false)
    ensures e.Other? || e.button.NonKeyboard? || e.button.key.OtherKey? ==> r == s
  {
    match e
    case Press(Keyboard(k)) => Bind(s, k, true)
    case Release(Keyboard(k)) => Bind(s, k, false)
    case _ => s
  }

  /** The number of flags on which two snapshots differ. */
  function Differences(s: Keys, t: Keys): nat
  {
    (if s.forward != t.forward then 1 else 0) + (if s.left != t.left then 1 else 0) +
    (if s.right != t.right then 1 else 0) + (if s.back != t.back then 1 else 0)
  }

  /** An event changes at most one flag. */
  lemma AtMostOneFlagChanges(s: Keys, e: Input)
    ensures Differences(s, Handled(s, e)) <= 1
  {
  }

  /** Delivering the same event twice has the effect of delivering it once. */
  lemma HandledIdempotent(s: Keys, e: Input)
    ensures Handled(Handled(s, e), e) == Handled(s, e)
  {
  }

  /** After a press the key's flag is set and after a release it is clear,
      whatever the flags were before: a release undoes a press of the same
      key when the flag was clear, and a press undoes a release when it was set. */
  lemma PressReleaseRoundTrip(s: Keys, k: Key)
    ensures k != W && k != A && k != D && k != S ==> Handled(s, Press(Keyboard(k))) == s
    ensures !s.forward && k == W ==> Handled(Handled(s, Press(Keyboard(k))), Release(Keyboard(k))) == s
    ensures s.forward && k == W ==> Handled(Handled(s, Release(Keyboard(k))), Press(Keyboard(k))) == s
    ensures !s.left && k == A ==> Handled(Handled(s, Press(Keyboard(k))), Release(Keyboard(k))) == s
    ensures s.left && k == A ==> Handled(Handled(s, Release(Keyboard(k))), Press(Keyboard(k))) == s
    ensures !s.right && k == D ==> Handled(Handled(s, Press(Keyboard(k))), Release(Keyboard(k))) == s
    ensures s.right && k == D ==> Handled(Handled(s, Release(Keyboard(k))), Press(Keyboard(k))) == s
    ensures !s.back && k == S ==> Handled(Handled(s, Press(Keyboard(k))), Release(Keyboard(k))) == s
    ensures s.back && k == S ==> Handled(Handled(s, Release(Keyboard(k))), Press(Keyboard(k))) == s
  {
  }

  /** `InputState`: the held-key flags, updated in place by `handle_event`. */
  class InputState {
    var forward: bool
    var left: bool
    var right: bool
    var back: bool

    /** `InputState::default()`: no key held. */
    constructor ()
      ensures Snapshot() == NoKeys
    {
      forward, left, right, back := false, false, false, false;
    }

    function Snapshot(): Keys
      reads this
    {
      Keys(forward, left, right, back)
    }

    /** `handle_event`: the four `bind!` expansions, in the source's order. */
    method HandleEvent(e: Input)
      modifies this
      ensures Snapshot() == Handled(old(Snapshot()), e)
    {
      match e {
        case Press(Keyboard(W)) => forward := true;
        case Release(Keyboard(W)) => forward := false;
        case _ =>
      }
      match e {
        case Press(Keyboard(A)) => left := true;
        case Release(Keyboard(A)) => left := false;
        case _ =>
      }
      match e {
        case Press(Keyboard(D)) => right := true;
        case Release(Keyboard(D)) => right := false;
        case _ =>
      }
      match e {
        case Press(Keyboard(S)) => back := true;
        case Release(Keyboard(S)) => back := false;
        case _ =>
      }
    }
  }
}
