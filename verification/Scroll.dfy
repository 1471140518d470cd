/** Cursor steps and window scrolling of yazi-widgets/src/step.rs and scrollable.rs. */
module Scroll {
  datatype Step = Top | Bot | Prev | Next | Offset(n: int) | Percent(n: int) | Vp(n: int)

  function Min(a: int, b: int): int { if a < b then a else b }

  /** Subtraction that stops at zero. */
  function Minus(a: nat, b: nat): nat { if a < b then 0 else a - b }

  /** Addition of a signed number that stops at zero. */
  function Plus(a: nat, d: int): nat { if a + d < 0 then 0 else a + d }

  /** Division that truncates toward zero. */
  function Quot(a: int, b: nat): int
    requires b > 0
  {
    if a >= 0 then a / b else -((-a) / b)
  }

  // --- Steps

  /** End of the visible window (exclusive). */
  function VisibleEnd(len: nat, limit: nat, offset: nat): nat { Min(len, offset + limit) }

  /** How far the scroll margin reaches when only count + 1 rows are visible. */
  function Margin(len: nat, limit: nat, offset: nat, scrolloff: nat): nat
    requires offset < VisibleEnd(len, limit, offset)
  {
    Min(scrolloff, (VisibleEnd(len, limit, offset) - offset - 1) / 2)
  }

  function Lowest(len: nat, limit: nat, offset: nat, scrolloff: nat): nat
    requires offset < VisibleEnd(len, limit, offset)
  {
    if offset == 0 then 0 else offset + Margin(len, limit, offset, scrolloff)
  }

  function Highest(len: nat, limit: nat, offset: nat, scrolloff: nat): int
    requires offset < VisibleEnd(len, limit, offset)
  {
    var end := VisibleEnd(len, limit, offset);
    end - 1 - (if end == len then 0 else Margin(len, limit, offset, scrolloff))
  }

  function Clamp(x: int, lo: int, hi: int): int
    requires lo <= hi
  {
    if x < lo then lo else if x > hi then hi else x
  }

  function Add(step: Step, pos: nat, len: nat, limit: nat, offset: nat, scrolloff: nat): nat {
    if len == 0 then 0
    else match step
      case Top => 0
      case Bot => len - 1
      case Prev => (pos - 1) % len
      case Next => (pos + 1) % len
      case Offset(n) => Min(Plus(pos, n), len - 1)
      case Percent(n) => Min(Plus(pos, Quot(n * limit, 100)), len - 1)
      case Vp(n) =>
        if limit == 0 then Min(Plus(pos, Quot(n * len, 100)), len - 1)
        else if VisibleEnd(len, limit, offset) < offset + 1 then 0
        else
          var count := VisibleEnd(len, limit, offset) - offset - 1;
          ClampIsValid(len, limit, offset, scrolloff);
          var to := Clamp(Plus(offset, Quot(n * count, 100)), Lowest(len, limit, offset, scrolloff),
                          Highest(len, limit, offset, scrolloff));
          Min(Plus(pos, to - pos), len - 1)
  }

  /** The bounds the target is clamped to never cross, so the clamp cannot fail, and they stay inside
      the window. */
  lemma {:induction false} ClampIsValid(len: nat, limit: nat, offset: nat, scrolloff: nat)
    requires offset < VisibleEnd(len, limit, offset)
    ensures offset <= Lowest(len, limit, offset, scrolloff) <= Highest(len, limit, offset, scrolloff)
    ensures Highest(len, limit, offset, scrolloff) < VisibleEnd(len, limit, offset)
  {}

  lemma {:induction false} AddLandsInRange(step: Step, pos: nat, len: nat, limit: nat, offset: nat, scrolloff: nat)
    ensures if len == 0 then Add(step, pos, len, limit, offset, scrolloff) == 0
            else Add(step, pos, len, limit, offset, scrolloff) < len
  {}

  /** A viewport step goes to a visible row, clear of the scroll margins that do not touch an end of
      the list. */
  lemma {:induction false} ViewportStepStaysVisible(n: int, pos: nat, len: nat, limit: nat, offset: nat,
      scrolloff: nat)
    requires limit > 0 && offset < VisibleEnd(len, limit, offset)
    ensures var to := Add(Vp(n), pos, len, limit, offset, scrolloff);
      && offset <= to < VisibleEnd(len, limit, offset)
      && (offset > 0 ==> to >= offset + Margin(len, limit, offset, scrolloff))
      && (VisibleEnd(len, limit, offset) < len ==>
            to + Margin(len, limit, offset, scrolloff) < VisibleEnd(len, limit, offset))
  {
    ClampIsValid(len, limit, offset, scrolloff);
  }

  lemma {:induction false} ModIs(x: int, len: nat, q: int, r: nat)
    requires x == q * len + r && r < len
    ensures x % len == r
  {
    var k := q - x / len;
    assert x % len - r == k * len;
    assert k >= 1 ==> k * len >= len;
    assert k <= -1 ==> k * len + len <= 0;
  }

  lemma {:induction false} ModInRange(x: int, len: nat)
    requires 0 <= x < len
    ensures x % len == x && (x - len) % len == x && (x + len) % len == x
  {
    ModIs(x, len, 0, x);
    ModIs(x - len, len, -1, x);
    ModIs(x + len, len, 1, x);
  }

  /** Inside the list, `prev` and `next` undo each other, around the ends as well. */
  lemma {:induction false} PrevUndoesNext(pos: nat, len: nat, limit: nat, offset: nat, scrolloff: nat)
    requires pos < len
    ensures Add(Prev, Add(Next, pos, len, limit, offset, scrolloff), len, limit, offset, scrolloff) == pos
    ensures Add(Next, Add(Prev, pos, len, limit, offset, scrolloff), len, limit, offset, scrolloff) == pos
  {
    ModInRange(0, len);
    ModInRange(len - 1, len);
    ModInRange(pos, len);
    if pos + 1 < len { ModInRange(pos + 1, len); }
    if pos > 0 { ModInRange(pos - 1, len); }
  }

  // --- Windows

  datatype View = View(total: nat, cursor: nat, offset: nat)

  /** The cursor is inside the window. */
  predicate Windowed(v: View, limit: nat) { v.offset <= v.cursor < v.offset + limit }

  /** The window does not reach past the end of the list unless it is larger than the list. */
  predicate Full(v: View, limit: nat) { v.offset <= Minus(v.total, limit) }

  function Advanced(v: View, limit: nat, scrolloff: nat, to: nat): View
    requires v.cursor <= to
  {
    View(v.total, to,
         if to >= Minus(VisibleEnd(v.total, limit, v.offset), scrolloff)
         then Min(Minus(v.total, limit), v.offset + (to - v.cursor))
         else Min(v.offset, Minus(v.total, 1)))
  }

  function Retreated(v: View, limit: nat, scrolloff: nat, to: nat): View
    requires to <= v.cursor
  {
    View(v.total, to,
         if to < v.offset + scrolloff then Minus(v.offset, v.cursor - to)
         else Min(Minus(v.total, 1), v.offset))
  }

  function Scrolled(v: View, limit: nat, scrolloff: nat, step: Step): View {
    var to := Add(step, v.cursor, v.total, limit, v.offset, scrolloff);
    if to > v.cursor then Advanced(v, limit, scrolloff, to) else Retreated(v, limit, scrolloff, to)
  }

  /** From any state with the cursor in the window, even one where the list has shrunk below the cursor,
      any step ends with the cursor inside the list and inside the window; and a window that does not
      reach past the end keeps not doing so. */
  lemma {:induction false} ScrollKeepsCursorVisible(v: View, limit: nat, scrolloff: nat, step: Step)
    requires limit > 0 && Windowed(v, limit)
    ensures var r := Scrolled(v, limit, scrolloff, step);
      && Windowed(r, limit) && r.total == v.total
      && (if v.total == 0 then r.cursor == 0 else r.cursor < v.total)
      && (Full(v, limit) ==> Full(r, limit))
  {
    AddLandsInRange(step, v.cursor, v.total, limit, v.offset, scrolloff);
  }

  datatype Event = Resize(total: nat) | Move(step: Step)

  function After(v: View, limit: nat, scrolloff: nat, e: Event): View {
    match e
    case Resize(total) => v.(total := total)
    case Move(step) => Scrolled(v, limit, scrolloff, step)
  }

  function Played(v: View, limit: nat, scrolloff: nat, es: seq<Event>): View
    decreases |es|
  {
    if es == [] then v
    else After(Played(v, limit, scrolloff, es[..|es| - 1]), limit, scrolloff, es[|es| - 1])
  }

  /** Over every run of list changes and steps the cursor stays in the window, and after a step it is in
      the list. */
  lemma {:induction false} RunsKeepCursorVisible(v: View, limit: nat, scrolloff: nat, es: seq<Event>)
    requires limit > 0 && Windowed(v, limit)
    ensures var r := Played(v, limit, scrolloff, es);
      Windowed(r, limit) && (es != [] && es[|es| - 1].Move? && r.total > 0 ==> r.cursor < r.total)
    decreases |es|
  {
    if es != [] {
      RunsKeepCursorVisible(v, limit, scrolloff, es[..|es| - 1]);
      var before, e := Played(v, limit, scrolloff, es[..|es| - 1]), es[|es| - 1];
      if e.Move? { ScrollKeepsCursorVisible(before, limit, scrolloff, e.step); }
    }
  }

  /** A scrollable widget. */
  class Scrollable {
    var total: nat
    var limit: nat
    var scrolloff: nat
    var cursor: nat
    var offset: nat

    ghost function Sees(): View
      reads this
    {
      View(total, cursor, offset)
    }

    method Scroll(step: Step) returns (changed: bool)
      modifies `cursor, `offset
      ensures Sees() == Scrolled(old(Sees()), limit, scrolloff, step)
      ensures changed <==> Sees() != old(Sees())
    {
      var before := cursor;
      var to := Add(step, before, total, limit, offset, scrolloff);
      if to > before {
        changed := GoNext(to);
      } else {
        changed := GoPrev(to);
      }
    }

    method GoNext(to: nat) returns (changed: bool)
      requires cursor <= to
      modifies `cursor, `offset
      ensures Sees() == Advanced(old(Sees()), limit, scrolloff, to)
      ensures changed <==> Sees() != old(Sees())
    {
      var oCur, oOff := cursor, offset;
      var down := to >= Minus(VisibleEnd(total, limit, offset), scrolloff);
      var nOff := if down then Min(Minus(total, limit), oOff + to - oCur) else Min(oOff, Minus(total, 1));
      cursor, offset := to, nOff;
      changed := (to, nOff) != (oCur, oOff);
    }

    method GoPrev(to: nat) returns (changed: bool)
      requires to <= cursor
      modifies `cursor, `offset
      ensures Sees() == Retreated(old(Sees()), limit, scrolloff, to)
      ensures changed <==> Sees() != old(Sees())
    {
      var oCur, oOff := cursor, offset;
      var up := to < offset + scrolloff;
      var nOff := if up then Minus(oOff, oCur - to) else Min(Minus(total, 1), oOff);
      cursor, offset := to, nOff;
      changed := (to, nOff) != (oCur, oOff);
    }
  }
}
