// UDPCongestionController of fastudp/congestion.py, over the reals.
module Congestion {
  import opened Common

  // The window after one ack, and after one loss.
  function Acked(maxWindow: real, c: real): real {
    Min(maxWindow, c + 1.0 / Max(c, 1.0))
  }

  function Lost(c: real): real {
    Max(2.0, c / 2.0)
  }

  function Acks(maxWindow: real, c: real, n: nat): real {
    if n == 0 then c else Acked(maxWindow, Acks(maxWindow, c, n - 1))
  }

  function Losses(c: real, k: nat): real {
    if k == 0 then c else Lost(Losses(c, k - 1))
  }

  function Halved(c: real, k: nat): real {
    if k == 0 then c else Halved(c, k - 1) / 2.0
  }

  function Square(x: real): real {
    x * x
  }

  // (c + 1/c)^2 lies between c^2 + 2 and c^2 + 3.
  lemma OneAck(c: real)
    requires c >= 1.0
    ensures 0.0 < 1.0 / c <= 1.0
    ensures Square(c) + 2.0 <= Square(c + 1.0 / c) <= Square(c) + 3.0
  {
    var d := 1.0 / c;
    assert c * d == 1.0;
    assert d <= 1.0;
    assert d * d <= d;
    assert Square(c + d) == Square(c) + 2.0 * (c * d) + d * d;
  }

  lemma SquareGrows(a: real, b: real)
    requires 0.0 <= a <= b
    ensures Square(a) <= Square(b)
  {
  }

  // The window grows like the square root of the number of acks, up to its maximum.
  lemma {:induction false} GrowthBound(maxWindow: real, c: real, n: nat)
    requires 1.0 <= c <= maxWindow
    ensures c <= Acks(maxWindow, c, n) <= maxWindow
    ensures Min(Square(maxWindow), Square(c) + 2.0 * n as real) <= Square(Acks(maxWindow, c, n)) <= Square(c) + 3.0 * n as real
  {
    hide Square;
    if n > 0 {
      GrowthBound(maxWindow, c, n - 1);
      var before, after := Acks(maxWindow, c, n - 1), Acks(maxWindow, c, n);
      OneAck(before);
      assert after == Min(maxWindow, before + 1.0 / before);
      SquareGrows(before, maxWindow);
      SquareGrows(after, before + 1.0 / before);
    } else {
      SquareGrows(c, maxWindow);
    }
  }

  // Each ack adds at most 1/c, so one window's worth of acks adds at most one.
  lemma {:induction false} OneWindowOfAcks(maxWindow: real, c: real, n: nat)
    requires 1.0 <= c <= maxWindow
    ensures Acks(maxWindow, c, n) <= c + Times(n, 1.0 / c)
    ensures n as real <= c ==> Acks(maxWindow, c, n) <= c + 1.0
  {
    hide Square;
    if n > 0 {
      OneWindowOfAcks(maxWindow, c, n - 1);
      GrowthBound(maxWindow, c, n - 1);
      Reciprocal(c, Acks(maxWindow, c, n - 1));
    }
    if n as real <= c {
      TimesReciprocal(n, c);
    }
  }

  // n * d
  function Times(n: nat, d: real): real {
    if n == 0 then 0.0 else Times(n - 1, d) + d
  }

  lemma {:induction false} TimesIsProduct(n: nat, d: real)
    ensures Times(n, d) == n as real * d
  {
    if n > 0 {
      TimesIsProduct(n - 1, d);
      assert n as real * d == (n - 1) as real * d + d;
    }
  }

  lemma TimesReciprocal(n: nat, c: real)
    requires c >= 1.0 && n as real <= c
    ensures Times(n, 1.0 / c) <= 1.0
  {
    var d := 1.0 / c;
    TimesIsProduct(n, d);
    assert c * d == 1.0;
    assert (c - n as real) * d >= 0.0;
  }

  lemma Reciprocal(a: real, b: real)
    requires 0.0 < a <= b
    ensures 1.0 / b <= 1.0 / a
  {
  }

  // k losses in a row halve the window k times, but never below 2.
  lemma {:induction false} LossBound(c: real, k: nat)
    requires k > 0
    ensures Losses(c, k) == Max(2.0, Halved(c, k))
  {
    if k > 1 {
      LossBound(c, k - 1);
    }
  }

  // ---------- the controller ----------

  datatype Event = Send(seqNo: int) | Ack(seqNo: int) | Loss

  datatype Controller = Controller(cwnd: real, maxWindow: real, inFlight: int, rtt: real, sent: map<int, real>)

  function Handle(c: Controller, e: Event, now: real): Controller {
    match e
    case Send(n) => c.(inFlight := c.inFlight + 1, sent := c.sent[n := now])
    case Ack(n) =>
      c.(rtt := if n in c.sent then c.rtt * 0.875 + (now - c.sent[n]) * 0.125 else c.rtt,
         sent := c.sent - {n},
         inFlight := if c.inFlight >= 1 then c.inFlight - 1 else 0,
         cwnd := Acked(c.maxWindow, c.cwnd))
    case Loss => c.(cwnd := Lost(c.cwnd))
  }

  datatype Timed = Timed(event: Event, at: real)

  function After(c: Controller, events: seq<Timed>): Controller {
    if events == [] then c
    else
      var last := events[|events| - 1];
      Handle(After(c, events[..|events| - 1]), last.event, last.at)
  }

  // Under any mix of events the window stays between 2 and its maximum, and the in-flight count
  // never goes negative.
  lemma {:induction false} StaysInRange(c: Controller, events: seq<Timed>)
    requires 2.0 <= c.cwnd <= c.maxWindow && c.inFlight >= 0
    ensures var after := After(c, events);
            2.0 <= after.cwnd <= c.maxWindow && after.maxWindow == c.maxWindow && after.inFlight >= 0
  {
    if events != [] {
      var before := After(c, events[..|events| - 1]);
      StaysInRange(c, events[..|events| - 1]);
      OneAck(before.cwnd);
    }
  }

  function AckCount(events: seq<Timed>): nat {
    if events == [] then 0 else AckCount(events[..|events| - 1]) + if events[|events| - 1].event.Ack? then 1 else 0
  }

  function LossCount(events: seq<Timed>): nat {
    if events == [] then 0 else LossCount(events[..|events| - 1]) + if events[|events| - 1].event.Loss? then 1 else 0
  }

  // Whatever is sent in between, events without a loss leave the window of that many acks, and events without
  // an ack that of that many losses.
  lemma {:induction false} WindowOfEvents(c: Controller, events: seq<Timed>)
    ensures LossCount(events) == 0 ==> After(c, events).cwnd == Acks(c.maxWindow, c.cwnd, AckCount(events))
    ensures AckCount(events) == 0 ==> After(c, events).cwnd == Losses(c.cwnd, LossCount(events))
    ensures After(c, events).maxWindow == c.maxWindow
  {
    hide Acked, Lost;
    if events != [] {
      WindowOfEvents(c, events[..|events| - 1]);
    }
  }

  // So the controller's window grows like the square root of its acks while nothing is lost, and is halved by
  // each loss, down to 2, while nothing is acknowledged.
  lemma WindowBounds(c: Controller, events: seq<Timed>)
    requires 2.0 <= c.cwnd <= c.maxWindow
    ensures var after, n, k := After(c, events).cwnd, AckCount(events), LossCount(events);
            && (k == 0 ==> Min(Square(c.maxWindow), Square(c.cwnd) + 2.0 * n as real) <= Square(after) <= Square(c.cwnd) + 3.0 * n as real)
            && (k == 0 && n as real <= c.cwnd ==> c.cwnd <= after <= c.cwnd + 1.0)
            && (n == 0 && k > 0 ==> after == Max(2.0, Halved(c.cwnd, k)))
  {
    hide Square, After, Acks, Losses;
    WindowOfEvents(c, events);
    GrowthBound(c.maxWindow, c.cwnd, AckCount(events));
    OneWindowOfAcks(c.maxWindow, c.cwnd, AckCount(events));
    if LossCount(events) > 0 {
      LossBound(c.cwnd, LossCount(events));
    }
  }

  // ---------- the in-flight count and the record of sent packets ----------

  predicate Agrees(c: Controller) {
    c.inFlight == |c.sent|
  }

  // The event sends a number that is not on record, or acknowledges one that is (or anything, when
  // the record is empty).
  predicate OnRecord(c: Controller, e: Event) {
    match e
    case Send(n) => n !in c.sent
    case Ack(n) => n in c.sent || c.sent == map[]
    case Loss => true
  }

  lemma OneEventAgreesIff(c: Controller, e: Event, now: real)
    requires Agrees(c)
    ensures Agrees(Handle(c, e, now)) <==> OnRecord(c, e)
  {
    hide Acked;
    match e
    case Send(n) => RecordSize(c.sent, n, now);
    case Ack(n) => RecordSize(c.sent, n, now);
    case Loss =>
  }

  lemma RecordSize(sent: map<int, real>, n: int, now: real)
    ensures |sent[n := now]| == |sent| + if n in sent then 0 else 1
    ensures |sent - {n}| == |sent| - if n in sent then 1 else 0
    ensures |sent| == 0 <==> sent == map[]
  {
    assert sent[n := now].Keys == sent.Keys + {n};
    assert (sent - {n}).Keys == sent.Keys - {n};
  }

  ghost predicate AgreesAlong(c: Controller, events: seq<Timed>) {
    forall k | 0 <= k <= |events| :: Agrees(After(c, events[..k]))
  }

  ghost predicate OnRecordAlong(c: Controller, events: seq<Timed>) {
    forall k | 0 <= k < |events| :: OnRecord(After(c, events[..k]), events[k].event)
  }

  // One event more.
  lemma AlongGrows(c: Controller, init: seq<Timed>, last: Timed)
    ensures AgreesAlong(c, init + [last]) <==> AgreesAlong(c, init) && Agrees(Handle(After(c, init), last.event, last.at))
    ensures OnRecordAlong(c, init + [last]) <==> OnRecordAlong(c, init) && OnRecord(After(c, init), last.event)
  {
    hide Agrees, OnRecord, Handle, After;
    var events := init + [last];
    var n := |init|;
    assert forall k | 0 <= k <= n :: events[..k] == init[..k];
    assert init[..n] == init && events[..n + 1] == events && events[n] == last;
    LastEvent(c, init, last);
  }

  lemma LastEvent(c: Controller, init: seq<Timed>, last: Timed)
    ensures After(c, init + [last]) == Handle(After(c, init), last.event, last.at)
  {
    hide Handle;
    assert (init + [last])[..|init|] == init;
  }

  // From agreement, the count agrees with the record all along the way exactly when every event, in
  // the state it meets, is on record: re-sending an outstanding number and a duplicate ack break it.
  lemma {:induction false} InFlightMatchesIff(c: Controller, events: seq<Timed>)
    requires Agrees(c)
    ensures AgreesAlong(c, events) <==> OnRecordAlong(c, events)
  {
    if events == [] {
      assert events[..0] == [];
    } else {
      hide Agrees, OnRecord, Handle, After, AgreesAlong, OnRecordAlong;
      var init, last := events[..|events| - 1], events[|events| - 1];
      assert init + [last] == events;
      InFlightMatchesIff(c, init);
      AlongGrows(c, init, last);
      if AgreesAlong(c, init) {
        AgreesAtEnd(c, init);
        OneEventAgreesIff(After(c, init), last.event, last.at);
      }
    }
  }

  lemma AgreesAtEnd(c: Controller, events: seq<Timed>)
    requires AgreesAlong(c, events)
    ensures Agrees(After(c, events))
  {
    hide Agrees, After;
    assert events[..|events|] == events;
  }

  // Agreement can come back by accident: a number sent twice and then an unknown number acknowledged.
  lemma AgreesAgain(c: Controller)
    requires c.inFlight == 0 && c.sent == map[]
    ensures !Agrees(After(c, [Timed(Send(1), 0.0)] + [Timed(Send(1), 0.0)]))
    ensures Agrees(After(c, [Timed(Send(1), 0.0)] + [Timed(Send(1), 0.0)] + [Timed(Ack(9), 0.0)]))
  {
    assert After(c, []) == c;
    hide After, Handle, Agrees;
    var sent := Timed(Send(1), 0.0);
    assert [] + [sent] == [sent];
    LastEvent(c, [], sent);
    LastEvent(c, [sent], sent);
    LastEvent(c, [sent] + [sent], Timed(Ack(9), 0.0));
    SentTwice(c);
  }

  lemma SentTwice(c: Controller)
    requires c.inFlight == 0 && c.sent == map[]
    ensures var twice := Handle(Handle(c, Send(1), 0.0), Send(1), 0.0);
            !Agrees(twice) && Agrees(Handle(twice, Ack(9), 0.0))
  {
    hide Acked;
    var twice := Handle(Handle(c, Send(1), 0.0), Send(1), 0.0);
    assert twice.sent == map[1 := 0.0];
    assert twice.sent - {9} == twice.sent;
  }

  // ---------- round trips ----------

  function Abs(x: real): real {
    if x >= 0.0 then x else -x
  }

  // The ack of a number on record brings the estimate to seven eighths of its distance from the time since
  // that number was sent; nothing else changes the estimate.
  lemma EstimateMoves(c: Controller, e: Event, now: real)
    ensures var c' := Handle(c, e, now);
            if e.Ack? && e.seqNo in c.sent then
              var sample := now - c.sent[e.seqNo];
              8.0 * Abs(c'.rtt - sample) == 7.0 * Abs(c.rtt - sample) && (c'.rtt >= sample <==> c.rtt >= sample)
            else c'.rtt == c.rtt
  {
  }

  predicate Touches(e: Event, n: int) {
    !e.Loss? && e.seqNo == n
  }

  // `events[k]` is the last event of number `n`, and sent it at this time.
  predicate LastSent(events: seq<Timed>, k: nat, n: int, at: real) {
    && k < |events| && events[k] == Timed(Send(n), at)
    && forall j | k < j < |events| :: !Touches(events[j].event, n)
  }

  // A number is on record, with a time, exactly if its last event sent it at that time.
  lemma {:induction false} RecordIff(c: Controller, events: seq<Timed>, n: int, at: real)
    requires c.sent == map[]
    ensures n in After(c, events).sent && After(c, events).sent[n] == at <==> exists k: nat :: LastSent(events, k, n, at)
  {
    hide Acked;
    if events != [] {
      var last := |events| - 1;
      var init := events[..last];
      RecordIff(c, init, n, at);
      if Touches(events[last].event, n) {
        assert (exists k: nat :: LastSent(events, k, n, at)) <==> LastSent(events, last, n, at);
      } else {
        assert forall k: nat {:trigger LastSent(events, k, n, at)} :: LastSent(events, k, n, at) ==> LastSent(init, k, n, at);
        assert forall k: nat {:trigger LastSent(init, k, n, at)} :: LastSent(init, k, n, at) ==> LastSent(events, k, n, at);
      }
    }
  }

  // ---------- sends that the window allows ----------

  // can_send
  predicate CanSend(c: Controller) {
    c.inFlight as real < c.cwnd
  }

  // Every send of the sequence was allowed when it was made.
  ghost predicate Guarded(c: Controller, events: seq<Timed>) {
    forall k | 0 <= k < |events| && events[k].event.Send? :: CanSend(After(c, events[..k]))
  }

  // A sender that asks first never has more packets in flight than the maximum window, rounded up.
  lemma {:induction false} GuardedInFlight(c: Controller, events: seq<Timed>)
    requires 2.0 <= c.cwnd <= c.maxWindow && c.inFlight == 0 && Guarded(c, events)
    ensures 0.0 <= After(c, events).inFlight as real < c.maxWindow + 1.0
  {
    if events != [] {
      var last := |events| - 1;
      var init := events[..last];
      assert forall k | 0 <= k < last :: init[..k] == events[..k] && init[k] == events[k];
      GuardedInFlight(c, init);
      StaysInRange(c, init);
    }
  }

  function Sends(n: nat): seq<Timed> {
    if n == 0 then [] else Sends(n - 1) + [Timed(Send(n), 0.0)]
  }

  // From nothing in flight the window lets through as many packets as it is wide, rounded up.
  lemma {:induction false} SendsAllowed(c: Controller, n: nat)
    requires c.inFlight == 0
    ensures After(c, Sends(n)).inFlight == n && After(c, Sends(n)).cwnd == c.cwnd
    ensures CanSend(After(c, Sends(n))) <==> n as real < c.cwnd
  {
    if n > 0 {
      SendsAllowed(c, n - 1);
      LastEvent(c, Sends(n - 1), Timed(Send(n), 0.0));
    }
  }

  class UDPCongestionController {
    var cwnd: real
    const maxWindow: real
    var inFlight: int
    var rtt: real
    var sent: map<int, real>

    function View(): Controller
      reads this
    {
      Controller(cwnd, maxWindow, inFlight, rtt, sent)
    }

    constructor (initialWindow: int, maxWindow: int)
      ensures View() == Controller(initialWindow as real, maxWindow as real, 0, 0.1, map[])
    {
      cwnd, this.maxWindow := initialWindow as real, maxWindow as real;
      inFlight, rtt, sent := 0, 0.1, map[];
    }

    method CanSendNow() returns (allowed: bool)
      ensures allowed == CanSend(View())
    {
      allowed := inFlight as real < cwnd;
    }

    method OnSend(n: int, now: real)
      modifies this
      ensures View() == Handle(old(View()), Send(n), now)
    {
      inFlight := inFlight + 1;
      sent := sent[n := now];
    }

    method OnAck(n: int, now: real)
      modifies this
      ensures View() == Handle(old(View()), Ack(n), now)
    {
      if n in sent {
        var sample := now - sent[n];
        rtt := rtt * 0.875 + sample * 0.125;
      }
      sent := sent - {n};
      inFlight := if inFlight - 1 > 0 then inFlight - 1 else 0;
      cwnd := Min(maxWindow, cwnd + 1.0 / Max(cwnd, 1.0));
    }

    method OnLoss()
      modifies this
      ensures View() == Handle(old(View()), Loss, 0.0)
    {
      cwnd := Max(2.0, cwnd / 2.0);
    }
  }
}
