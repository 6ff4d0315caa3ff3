/** The keyboard half of the drivable car: five level-triggered flags that the
    window's key-down and key-up listeners set and clear, and that the frame
    tick reads. */
module Controls {
  import opened Wrappers

  /** The logical actions a key can drive. */
  datatype Action = Forward | Backward | Left | Right | Brake

  /** A snapshot of the five flags, as the tick destructures them. */
  datatype Flags = Flags(forward: bool, backward: bool, left: bool, right: bool, brake: bool)
  {
    /** The flag that drives action `a`. */
    function Get(a: Action): bool
    {
      match a
      case Forward => forward
      case Backward => backward
      case Left => left
      case Right => right
      case Brake => brake
    }

    /** These flags with the one for `a` set to `v`: that flag and no other changes. */
    function With(a: Action, v: bool): (r: Flags)
      ensures r.Get(a) == v
      ensures forall b :: b != a ==> r.Get(b) == Get(b)
    {
      match a
      case Forward => this.(forward := v)
      case Backward => this.(backward := v)
      case Left => this.(left := v)
      case Right => this.(right := v)
      case Brake => this.(brake := v)
    }
  }

  /** All keys up: the value the input ref starts with. */
  const Released := Flags(false, false, false, false, false)

  /** The key codes bound to each action: an arrow key and its WASD twin, and
      Space alone for the brake. */
  function Bindings(a: Action): set<string>
  {
    match a
    case Forward => {"ArrowUp", "KeyW"}
    case Backward => {"ArrowDown", "KeyS"}
    case Left => {"ArrowLeft", "KeyA"}
    case Right => {"ArrowRight", "KeyD"}
    case Brake => {"Space"}
  }

  /** The action the key handler's switch selects for `code`, if any. */
  function ActionOf(code: string): (r: Option<Action>)
    ensures forall a :: r == Some(a) <==> code in Bindings(a)
  {
    if code == "ArrowUp" || code == "KeyW" then Some(Forward)
    else if code == "ArrowDown" || code == "KeyS" then Some(Backward)
    else if code == "ArrowLeft" || code == "KeyA" then Some(Left)
    else if code == "ArrowRight" || code == "KeyD" then Some(Right)
    else if code == "Space" then Some(Brake)
    else None
  }

  /** The value of `input.current` in the controls hook: one mutable record of
      five flags shared by the listeners and the tick. */
  class Input {
    var forward: bool
    var backward: bool
    var left: bool
    var right: bool
    var brake: bool

    /** The five flags as one value. */
    function Snapshot(): Flags
      reads this
    {
      Flags(forward, backward, left, right, brake)
    }

    constructor ()
      ensures Snapshot() == Released
    {
      forward, backward, left, right, brake := false, false, false, false, false;
    }

    /** The shared key handler: a bound key writes `isDown` into its flag and
        into no other; any other key code changes nothing. */
    method HandleKey(code: string, isDown: bool)
      modifies this
      ensures ActionOf(code).Some? ==> Snapshot() == old(Snapshot()).With(ActionOf(code).value, isDown)
      ensures ActionOf(code).None? ==> Snapshot() == old(Snapshot())
    {
      if code == "ArrowUp" || code == "KeyW" {
        forward := isDown;
      } else if code == "ArrowDown" || code == "KeyS" {
        backward := isDown;
      } else if code == "ArrowLeft" || code == "KeyA" {
        left := isDown;
      } else if code == "ArrowRight" || code == "KeyD" {
        right := isDown;
      } else if code == "Space" {
        brake := isDown;
      }
    }

    /** The window's key-down listener. */
    method KeyDown(code: string)
      modifies this
      ensures ActionOf(code).Some? ==> Snapshot() == old(Snapshot()).With(ActionOf(code).value, true)
      ensures forall a :: code in Bindings(a) ==> Snapshot() == old(Snapshot()).With(a, true)
      ensures (forall a :: code !in Bindings(a)) ==> Snapshot() == old(Snapshot())
    {
      HandleKey(code, true);
    }

    /** The window's key-up listener. */
    method KeyUp(code: string)
      modifies this
      ensures ActionOf(code).Some? ==> Snapshot() == old(Snapshot()).With(ActionOf(code).value, false)
      ensures forall a :: code in Bindings(a) ==> Snapshot() == old(Snapshot()).With(a, false)
      ensures (forall a :: code !in Bindings(a)) ==> Snapshot() == old(Snapshot())
    {
      HandleKey(code, false);
    }
  }

  /** The flags after one key event, as a value: the handler's effect, used to
      reason about sequences of events. */
  function AfterKey(f: Flags, code: string, isDown: bool): (r: Flags)
    ensures forall a :: code in Bindings(a) ==> r.Get(a) == isDown
    ensures forall a :: code !in Bindings(a) ==> r.Get(a) == f.Get(a)
  {
    match ActionOf(code)
    case Some(a) => f.With(a, isDown)
    case None => f
  }

  /** Flags are level-triggered: an auto-repeated key-down (or a second key-up)
      changes nothing more than the first did. */
  lemma RepeatIsIdempotent(f: Flags, code: string, isDown: bool)
    ensures AfterKey(AfterKey(f, code, isDown), code, isDown) == AfterKey(f, code, isDown)
  {
  }

  /** Releasing a key clears its flag whatever happened to that flag before,
      and leaves the other four as they were before the press. */
  lemma PressThenRelease(f: Flags, code: string, a: Action)
    requires code in Bindings(a)
    ensures AfterKey(AfterKey(f, code, true), code, false) == f.With(a, false)
  {
  }

  /** Events on keys bound to different actions commute, so the order in
      which two keys are pressed or released between frames does not matter. */
  lemma DistinctKeysCommute(f: Flags, c1: string, d1: bool, c2: string, d2: bool)
    requires ActionOf(c1) != ActionOf(c2) || ActionOf(c1).None?
    ensures AfterKey(AfterKey(f, c1, d1), c2, d2) == AfterKey(AfterKey(f, c2, d2), c1, d1)
  {
    var one, other := AfterKey(AfterKey(f, c1, d1), c2, d2), AfterKey(AfterKey(f, c2, d2), c1, d1);
    forall a ensures one.Get(a) == other.Get(a) {
    }
    SameFlagsEqual(one, other);
  }

  /** Two snapshots that agree on every action are the same snapshot. */
  lemma SameFlagsEqual(f: Flags, g: Flags)
    requires forall a :: f.Get(a) == g.Get(a)
    ensures f == g
  {
    assert f.Get(Forward) == g.Get(Forward) && f.Get(Backward) == g.Get(Backward);
    assert f.Get(Left) == g.Get(Left) && f.Get(Right) == g.Get(Right) && f.Get(Brake) == g.Get(Brake);
  }
}
