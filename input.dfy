/** The keyboard state of the viewer: one flag per bound key, set on key-down and
    cleared on key-up, and the rule that doubles or halves the fractal's iteration
    count when the Q or E flag is set. */
module Input {
  import opened Gl

  /** The keys the viewer reacts to; `Other` stands for every other key code. */
  datatype Keycode = W | S | A | D | Q | E | Space | LShift | Other(code: int)

  /** The flags of the event manager that keys drive. */
  datatype Flag = Forward | Backward | Left | Right | Up | Down | Inc | Dec

  /** The flag a key drives, if any (a key event may carry no key code at all). */
  function FlagOf(key: Option<Keycode>): (r: Option<Flag>)
    ensures r.None? <==> key.None? || key.value.Other?
  {
    match key
    case None => None
    case Some(code) =>
      match code
      case W => Some(Forward)
      case S => Some(Backward)
      case A => Some(Left)
      case D => Some(Right)
      case Q => Some(Inc)
      case E => Some(Dec)
      case Space => Some(Up)
      case LShift => Some(Down)
      case Other(_) => None
  }

  /** Each flag is driven by exactly one key. */
  lemma FlagOfInjective(a: Option<Keycode>, b: Option<Keycode>)
    requires FlagOf(a).Some?
    ensures FlagOf(a) == FlagOf(b) <==> a == b
  {
  }

  /** Every flag has its key. */
  lemma FlagOfOnto(f: Flag)
    ensures exists k :: FlagOf(Some(k)) == Some(f)
  {
    var k := match f
      case Forward => W
      case Backward => S
      case Left => A
      case Right => D
      case Up => Space
      case Down => LShift
      case Inc => Q
      case Dec => E;
    assert FlagOf(Some(k)) == Some(f);
  }

  /** The iteration count and the two flags that change it. */
  datatype IterState = IterState(iter: int, inc: bool, dec: bool)

  /** One `update_pos` on the iteration count: double it when `inc` is set and it is
      below 1024, clearing `inc`; then halve it when `dec` is set and it is above 2,
      clearing `dec`.  (The count is positive where it is halved, so the source's
      truncating division and Dafny's agree.) */
  function IterStep(s: IterState): (t: IterState)
  {
    var a := if s.inc && s.iter < 1024 then IterState(s.iter * 2, false, s.dec) else s;
    if a.dec && a.iter > 2 then IterState(a.iter / 2, a.inc, false) else a
  }

  /** `inc` is cleared exactly when the count doubles, and an `inc` at 1024 or more
      stays set; `dec` is cleared exactly when the (possibly doubled) count halves. */
  lemma IterStepFlags(s: IterState)
    ensures IterStep(s).inc == (s.inc && s.iter >= 1024)
    ensures var doubled := if s.inc && s.iter < 1024 then s.iter * 2 else s.iter;
      IterStep(s).dec == (s.dec && doubled <= 2) &&
      IterStep(s).iter == (if s.dec && doubled > 2 then doubled / 2 else doubled)
  {
  }

  /** Pressing both keys within one frame doubles first and halves after: the count
      comes back, and both flags are cleared. */
  lemma IncThenDec(n: int)
    requires 2 <= n < 1024
    ensures IterStep(IterState(n, true, true)) == IterState(n, false, false)
  {
  }

  /** Powers of two. */
  predicate IsPow2(n: int)
    decreases if n < 0 then 0 else n
  {
    n == 1 || (n > 1 && n % 2 == 0 && IsPow2(n / 2))
  }

  /** The range the iteration count keeps: a power of two from 2 to 1024. */
  predicate IterInv(n: int)
  {
    2 <= n <= 1024 && IsPow2(n)
  }

  /** The counts in range are exactly 2, 4, ..., 1024. */
  lemma {:induction false} IterInvValues(n: int)
    ensures IterInv(n) <==> n in {2, 4, 8, 16, 32, 64, 128, 256, 512, 1024}
  {
    if 2 < n <= 1024 && n % 2 == 0 {
      IterInvValues(n / 2);
    }
  }

  /** One update keeps the count in range, whatever the flags. */
  lemma IterStepKeepsInv(s: IterState)
    requires IterInv(s.iter)
    ensures IterInv(IterStep(s).iter)
  {
    IterInvValues(s.iter);
    var a := if s.inc && s.iter < 1024 then s.iter * 2 else s.iter;
    IterInvValues(a);
    IterInvValues(IterStep(s).iter);
  }

  /** The count after a run of frames; frame `k` holds the `inc` and `dec` flags as the
      key events of that frame left them. */
  function Run(iter: int, frames: seq<(bool, bool)>): int
    decreases |frames|
  {
    if frames == [] then iter
    else Run(IterStep(IterState(iter, frames[0].0, frames[0].1)).iter, frames[1..])
  }

  /** Starting from 2, the count is a power of two in [2, 1024] after any frames. */
  lemma {:induction false} RunKeepsInv(iter: int, frames: seq<(bool, bool)>)
    requires IterInv(iter)
    ensures IterInv(Run(iter, frames))
    decreases |frames|
  {
    if frames != [] {
      IterStepKeepsInv(IterState(iter, frames[0].0, frames[0].1));
      RunKeepsInv(IterStep(IterState(iter, frames[0].0, frames[0].1)).iter, frames[1..]);
    }
  }

  /** The event manager's flags, and the mouse state the keys do not touch. */
  class EvtManager {
    var forward: bool
    var backward: bool
    var left: bool
    var right: bool
    var up: bool
    var down: bool
    var inc: bool
    var dec: bool
    var mouse: bool
    var mouseX: F32
    var mouseY: F32

    /** All flags clear, the mouse released at offset zero. */
    constructor ()
      ensures forall f :: !Get(f)
      ensures !mouse && mouseX == F32(0) && mouseY == F32(0)
    {
      forward := false;
      backward := false;
      left := false;
      right := false;
      up := false;
      down := false;
      inc := false;
      dec := false;
      mouse := false;
      mouseX := F32(0);
      mouseY := F32(0);
    }

    /** The value of flag `f`. */
    function Get(f: Flag): bool
      reads this
    {
      match f
      case Forward => forward
      case Backward => backward
      case Left => left
      case Right => right
      case Up => up
      case Down => down
      case Inc => inc
      case Dec => dec
    }

    /** Sets the flag `key` drives to `state`; every other flag, and the mouse state,
        is kept.  A key that drives no flag changes nothing. */
    method KeyStateSet(key: Option<Keycode>, state: bool)
      modifies this
      ensures forall f :: Get(f) == if FlagOf(key) == Some(f) then state else old(Get(f))
      ensures mouse == old(mouse) && mouseX == old(mouseX) && mouseY == old(mouseY)
    {
      match key {
        case None =>
        case Some(code) =>
          match code {
            case W => forward := state;
            case S => backward := state;
            case A => left := state;
            case D => right := state;
            case Q => inc := state;
            case E => dec := state;
            case Space => up := state;
            case LShift => down := state;
            case Other(_) =>
          }
      }
    }

    /** Releasing `key` clears the flag it drives. */
    method KeyUp(key: Option<Keycode>)
      modifies this
      ensures forall f :: Get(f) == if FlagOf(key) == Some(f) then false else old(Get(f))
      ensures mouse == old(mouse) && mouseX == old(mouseX) && mouseY == old(mouseY)
    {
      KeyStateSet(key, false);
    }

    /** Pressing `key` sets the flag it drives. */
    method KeyDown(key: Option<Keycode>)
      modifies this
      ensures forall f :: Get(f) == if FlagOf(key) == Some(f) then true else old(Get(f))
      ensures mouse == old(mouse) && mouseX == old(mouseX) && mouseY == old(mouseY)
    {
      KeyStateSet(key, true);
    }

    /** The iteration-count part of one position update: `iter` becomes `next`, and
        only `inc` and `dec` among the flags can change.  Doubling must not overflow
        the `i32`, which would panic. */
    method UpdatePos(iter: i32) returns (next: i32)
      requires inc && iter < 1024 ==> -0x4000_0000 <= iter
      modifies this
      ensures IterState(next, inc, dec) == IterStep(IterState(iter, old(inc), old(dec)))
      ensures forward == old(forward) && backward == old(backward) && left == old(left)
      ensures right == old(right) && up == old(up) && down == old(down)
      ensures mouse == old(mouse) && mouseX == old(mouseX) && mouseY == old(mouseY)
    {
      next := iter;
      if inc && next < 1024 {
        next := next * 2;
        inc := false;
      }
      if dec && next > 2 {
        next := next / 2;
        dec := false;
      }
    }
  }
}
