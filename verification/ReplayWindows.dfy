// The sliding anti-replay window of fastudp/security.py (section 3.4.3 of RFC 4303): a bitmap of
// the newest 64 numbers, proved to refine the plain set of every number ever accepted.
module ReplayWindows {
  import opened Bits

  const REPLAY_WINDOW := 64
  const BITMAP_LIMIT := 0x1_0000_0000_0000_0000 // 1 << REPLAY_WINDOW

  // The window's two fields as a value.
  datatype Window = Window(highest: int, bitmap: nat)

  const EMPTY := Window(-1, 0)

  // Offering `n` to accept: the new window and the verdict.
  function Offer(w: Window, n: int): (Window, bool) {
    if n < 0 then (w, false)
    else if w.highest == -1 then (Window(n, 1), true)
    else if n > w.highest then
      var shift := n - w.highest;
      var bitmap := if shift >= REPLAY_WINDOW then 1 else And(Or(Shl(w.bitmap, shift), 1), BITMAP_LIMIT - 1);
      (Window(n, bitmap), true)
    else
      var delta := w.highest - n;
      if delta >= REPLAY_WINDOW then (w, false)
      else if And(w.bitmap, Shl(1, delta)) != 0 then (w, false)
      else (w.(bitmap := Or(w.bitmap, Shl(1, delta))), true)
  }

  predicate Valid(w: Window) {
    && w.highest >= -1
    && w.bitmap < BITMAP_LIMIT
    && (w.highest == -1 ==> w.bitmap == 0)
  }

  // `n` is marked in the part of the history that the bitmap covers.
  predicate Marked(w: Window, n: int) {
    0 <= w.highest - n < REPLAY_WINDOW && Bit(w.bitmap, w.highest - n)
  }

  // `n` would be refused: it is marked, or older than the bitmap reaches.
  predicate Seen(w: Window, n: int) {
    Marked(w, n) || w.highest - n >= REPLAY_WINDOW
  }

  lemma LimitIsPow2()
    ensures BITMAP_LIMIT == Pow2(REPLAY_WINDOW)
  {
    assert Pow2(4) == 16;
    Squared(4, 16);
    Squared(8, 0x100);
    Squared(16, 0x1_0000);
    Squared(32, 0x1_0000_0000);
  }

  lemma Squared(k: nat, v: nat)
    requires Pow2(k) == v
    ensures Pow2(k + k) == v * v
  {
    Pow2Adds(k, k);
  }

  // What one call does to the status of every other number `m`. A refused number stays refused.
  lemma OfferStep(w: Window, n: int, m: int)
    requires Valid(w)
    ensures var (w', ok) := Offer(w, n);
            && Valid(w')
            && (ok <==> n >= 0 && !Seen(w, n))
            && (!ok ==> w' == w)
            && (ok ==> w'.highest == if w.highest < n then n else w.highest)
            && (ok ==> (Marked(w', m) <==> (m == n || Marked(w, m)) && w'.highest - m < REPLAY_WINDOW))
            && (Seen(w, m) ==> Seen(w', m))
  {
    if n < 0 {
    } else if w.highest == -1 {
      EmptyBitmap(n - m);
      EmptyBitmap(w.highest - m);
      assert Bit(1, 0);
    } else if n > w.highest {
      var shift := n - w.highest;
      AndBelow(Or(Shl(w.bitmap, shift), 1), BITMAP_LIMIT - 1);
      EmptyBitmap(n - m);
      if shift < REPLAY_WINDOW && m <= n {
        ShiftedBit(w.bitmap, shift, n - m);
      }
    } else if w.highest - n < REPLAY_WINDOW {
      var delta := w.highest - n;
      AndOfOneBit(w.bitmap, delta);
      LimitIsPow2();
      ShlIsPow2(delta);
      Pow2Grows(delta, REPLAY_WINDOW);
      OrBelow(w.bitmap, Shl(1, delta), REPLAY_WINDOW);
      if m <= w.highest {
        BitOfOr(w.bitmap, Shl(1, delta), w.highest - m);
        BitOfOne(delta, w.highest - m);
      }
    }
  }

  lemma EmptyBitmap(d: int)
    ensures d >= 0 ==> !Bit(0, d) && (Bit(1, d) <==> d == 0)
  {
    if d >= 0 {
      BitOfZero(d);
      BitOfOne(0, d);
    }
  }

  lemma ShiftedBit(bitmap: nat, shift: nat, d: nat)
    requires shift > 0
    ensures Bit(And(Or(Shl(bitmap, shift), 1), BITMAP_LIMIT - 1), d)
       <==> d < REPLAY_WINDOW && (d == 0 || (d >= shift && Bit(bitmap, d - shift)))
  {
    BitOfAnd(Or(Shl(bitmap, shift), 1), BITMAP_LIMIT - 1, d);
    LimitIsPow2();
    BitOfMask(REPLAY_WINDOW, d);
    BitOfOr(Shl(bitmap, shift), 1, d);
    BitOfShl(bitmap, shift, d);
    BitOfOne(0, d);
  }

  // ---------- refinement of the set of accepted numbers ----------

  // The rule the window implements, on the whole history: a number is new when it is non-negative,
  // was never accepted, and lies less than 64 below the largest number accepted so far.
  predicate Fresh(history: set<int>, n: int) {
    && n >= 0
    && n !in history
    && forall h | h in history :: n > h - REPLAY_WINDOW
  }

  // Everything accepted by a sequence of calls, by that rule alone.
  function History(calls: seq<int>): set<int> {
    if calls == [] then {}
    else
      var before := History(calls[..|calls| - 1]);
      var n := calls[|calls| - 1];
      if Fresh(before, n) then before + {n} else before
  }

  // The window object after the same calls.
  function After(calls: seq<int>): Window {
    if calls == [] then EMPTY
    else Offer(After(calls[..|calls| - 1]), calls[|calls| - 1]).0
  }

  ghost predicate Represents(w: Window, history: set<int>) {
    && Valid(w)
    && (forall h | h in history :: 0 <= h <= w.highest)
    && (w.highest >= 0 ==> w.highest in history)
    && (forall d | 0 <= d < REPLAY_WINDOW :: Bit(w.bitmap, d) <==> w.highest - d in history)
  }

  lemma OfferRefines(w: Window, history: set<int>, n: int)
    requires Represents(w, history)
    ensures var (w', ok) := Offer(w, n);
            && (ok <==> Fresh(history, n))
            && Represents(w', if ok then history + {n} else history)
  {
    var (w', ok) := Offer(w, n);
    OfferStep(w, n, n);
    assert n <= w.highest < n + REPLAY_WINDOW ==> (Bit(w.bitmap, w.highest - n) <==> w.highest - (w.highest - n) in history);
    if ok {
      forall d | 0 <= d < REPLAY_WINDOW
        ensures Bit(w'.bitmap, d) <==> w'.highest - d in history + {n}
      {
        var m := w'.highest - d;
        OfferStep(w, n, m);
        assert Marked(w', m) <==> Bit(w'.bitmap, d);
        assert 0 <= w.highest - m < REPLAY_WINDOW ==> (Bit(w.bitmap, w.highest - m) <==> w.highest - (w.highest - m) in history);
      }
    }
  }

  // For every sequence of calls: the window represents the set of accepted numbers, bit d marks
  // exactly `highest - d`, and the next verdict is the set rule's.
  lemma {:induction false} EveryCallSequence(calls: seq<int>, next: int)
    ensures Represents(After(calls), History(calls))
    ensures Offer(After(calls), next).1 <==> Fresh(History(calls), next)
  {
    if calls == [] {
      forall d | 0 <= d < REPLAY_WINDOW ensures !Bit(0, d) {
        BitOfZero(d);
      }
    } else {
      var before := calls[..|calls| - 1];
      EveryCallSequence(before, calls[|calls| - 1]);
      OfferRefines(After(before), History(before), calls[|calls| - 1]);
    }
    OfferRefines(After(calls), History(calls), next);
  }

  // No number is accepted twice, whatever is offered in between.
  lemma NeverTwice(calls: seq<int>, later: seq<int>, n: int)
    requires Offer(After(calls), n).1
    ensures !Offer(After(calls + [n] + later), n).1
  {
    EveryCallSequence(calls, n);
    Remembered(calls, later, n);
    EveryCallSequence(calls + [n] + later, n);
  }

  lemma {:induction false} Remembered(calls: seq<int>, later: seq<int>, n: int)
    requires Fresh(History(calls), n)
    ensures n in History(calls + [n] + later)
  {
    var all := calls + [n] + later;
    if later == [] {
      assert all[..|all| - 1] == calls;
    } else {
      assert all[..|all| - 1] == calls + [n] + later[..|later| - 1];
      Remembered(calls, later[..|later| - 1], n);
    }
  }

  // The mutable object. `history` is every number it ever accepted.
  class ReplayWindow {
    var highest: int
    var bitmap: nat
    ghost var history: set<int>

    function View(): Window
      reads this
    {
      Window(highest, bitmap)
    }

    ghost predicate Valid()
      reads this
    {
      Represents(View(), history)
    }

    constructor ()
      ensures Valid() && View() == EMPTY && history == {}
    {
      highest := -1;
      bitmap := 0;
      history := {};
      EveryCallSequence([], 0);
    }

    method Accept(n: int) returns (ok: bool)
      requires Valid()
      modifies this
      ensures Valid()
      ensures ok <==> Fresh(old(history), n)
      ensures history == if ok then old(history) + {n} else old(history)
      ensures (View(), ok) == Offer(old(View()), n)
    {
      OfferRefines(View(), history, n);
      if n < 0 {
        return false;
      }
      if highest == -1 {
        highest, bitmap := n, 1;
        history := history + {n};
        return true;
      }
      if n > highest {
        var shift := n - highest;
        if shift >= REPLAY_WINDOW {
          bitmap := 1;
        } else {
          bitmap := Or(Shl(bitmap, shift), 1);
          LimitIsPow2();
          ShlIsPow2(REPLAY_WINDOW);
          bitmap := And(bitmap, Shl(1, REPLAY_WINDOW) - 1);
        }
        highest := n;
        history := history + {n};
        return true;
      }
      var delta := highest - n;
      if delta >= REPLAY_WINDOW {
        return false;
      }
      var bit := Shl(1, delta);
      if And(bitmap, bit) != 0 {
        return false;
      }
      bitmap := Or(bitmap, bit);
      history := history + {n};
      return true;
    }
  }
}
