/**
 * One iteration of the sender's background pinger, as a function of the pending
 * acknowledgements, the time of the last successful publish and what the clock
 * and the transport answer during the iteration; and many iterations in a row.
 */
module Pinger {
  import opened JavaTypes
  import opened Messages

  /** The pinger's state: the acknowledgement queue (head first) and `lastSent`. */
  datatype State = State(acks: seq<Fields>, lastSent: int64)

  /** `lastSent` before the first publish. */
  const INITIAL_LAST_SENT: int64 := 0

  /**
   * What an iteration observes from outside: `now` is the clock read for the
   * heartbeat check, `after` the clock read that is stored once a publish has
   * returned, and `delivered` whether that publish returned normally.
   */
  datatype Tick = Tick(now: int64, after: int64, delivered: bool)

  /** What an iteration tried to publish, and whether the publish went through. */
  datatype Attempt = AckAttempt(fields: Fields, delivered: bool) | PingAttempt(delivered: bool) | NoAttempt

  /**
   * One pass of the loop body: a pending acknowledgement is taken off the queue and
   * published as an ACK; otherwise a PING is published once `now - lastSent` (Java
   * `long` subtraction) reaches the heartbeat. `lastSent` moves only when a publish
   * returns normally; a failed publish is swallowed and the acknowledgement it
   * carried is not put back.
   */
  function Step(s: State, heartbeat: int64, t: Tick): (r: (State, Attempt))
    ensures r.1.AckAttempt? <==> s.acks != []
    ensures r.1.PingAttempt? <==> s.acks == [] && LongSub(t.now, s.lastSent) >= heartbeat
    ensures r.1.AckAttempt? ==> r.1.fields == s.acks[0] && r.0.acks == s.acks[1..]
    ensures !r.1.AckAttempt? ==> r.0.acks == s.acks
    ensures r.1 != NoAttempt ==> r.1.delivered == t.delivered
    ensures r.0.lastSent == if r.1 != NoAttempt && t.delivered then t.after else s.lastSent
  {
    if s.acks != [] then
      (State(s.acks[1..], if t.delivered then t.after else s.lastSent), AckAttempt(s.acks[0], t.delivered))
    else if LongSub(t.now, s.lastSent) >= heartbeat then
      (State([], if t.delivered then t.after else s.lastSent), PingAttempt(t.delivered))
    else
      (s, NoAttempt)
  }

  /** Several passes of the loop in a row, with the attempts they made in order. */
  function Run(s: State, heartbeat: int64, ticks: seq<Tick>): (r: (State, seq<Attempt>))
    ensures |r.1| == |ticks|
    decreases |ticks|
  {
    if ticks == [] then (s, [])
    else
      var first := Step(s, heartbeat, ticks[0]);
      var rest := Run(first.0, heartbeat, ticks[1..]);
      (rest.0, [first.1] + rest.1)
  }

  /**
   * A pass that attempts no publish only happens when the queue is empty and the
   * last successful publish is less than a heartbeat ago; with wall-clock times
   * that is the plain difference.
   */
  lemma QuietPassIsWithinHeartbeat(s: State, heartbeat: int64, t: Tick)
    requires Step(s, heartbeat, t).1 == NoAttempt
    ensures s.acks == [] && LongSub(t.now, s.lastSent) < heartbeat
    ensures 0 <= s.lastSent && 0 <= t.now ==> t.now as int - s.lastSent as int < heartbeat as int
  {
    if 0 <= s.lastSent && 0 <= t.now {
      ClockDifferenceExact(t.now, s.lastSent);
    }
  }

  /**
   * Draining: as long as acknowledgements are pending, the passes publish them one
   * by one, in queue order, each exactly once, and nothing else. Those the
   * transport rejected are gone all the same.
   */
  lemma {:induction false} DrainsInOrder(s: State, heartbeat: int64, ticks: seq<Tick>)
    requires |ticks| <= |s.acks|
    ensures Run(s, heartbeat, ticks).0.acks == s.acks[|ticks|..]
    ensures forall i :: 0 <= i < |ticks| ==>
      Run(s, heartbeat, ticks).1[i] == AckAttempt(s.acks[i], ticks[i].delivered)
    decreases |ticks|
  {
    if ticks != [] {
      var first := Step(s, heartbeat, ticks[0]);
      DrainsInOrder(first.0, heartbeat, ticks[1..]);
      assert first.0.acks == s.acks[1..];
    }
  }

  /**
   * An acknowledgement queued behind `ahead` others is published on pass number
   * |ahead|, after all of those and before any PING.
   */
  lemma QueuedAckPublishedBeforeNextPing(ahead: seq<Fields>, ack: Fields, lastSent: int64, heartbeat: int64, ticks: seq<Tick>)
    requires |ticks| > |ahead|
    ensures Run(State(ahead + [ack], lastSent), heartbeat, ticks).1[|ahead|]
      == AckAttempt(ack, ticks[|ahead|].delivered)
    ensures forall i :: 0 <= i <= |ahead| ==>
      !Run(State(ahead + [ack], lastSent), heartbeat, ticks).1[i].PingAttempt?
  {
    var s := State(ahead + [ack], lastSent);
    var n := |ahead| + 1;
    DrainsInOrder(s, heartbeat, ticks[..n]);
    RunPrefix(s, heartbeat, ticks, n);
  }

  /** The first n attempts of a run depend only on the first n ticks. */
  lemma {:induction false} RunPrefix(s: State, heartbeat: int64, ticks: seq<Tick>, n: nat)
    requires n <= |ticks|
    ensures Run(s, heartbeat, ticks).1[..n] == Run(s, heartbeat, ticks[..n]).1
    decreases n
  {
    if n > 0 {
      var first := Step(s, heartbeat, ticks[0]);
      assert ticks[..n][1..] == ticks[1..][..n - 1];
      RunPrefix(first.0, heartbeat, ticks[1..], n - 1);
    }
  }

  /** Only acknowledgement records sit in the queue, so only they are published as ACKs. */
  lemma {:induction false} RunKeepsAckRecords(s: State, heartbeat: int64, ticks: seq<Tick>)
    requires forall i :: 0 <= i < |s.acks| ==> DecodeAck(s.acks[i]).Some?
    ensures forall i :: 0 <= i < |Run(s, heartbeat, ticks).0.acks| ==>
      DecodeAck(Run(s, heartbeat, ticks).0.acks[i]).Some?
    ensures forall i :: 0 <= i < |ticks| && Run(s, heartbeat, ticks).1[i].AckAttempt? ==>
      DecodeAck(Run(s, heartbeat, ticks).1[i].fields).Some?
    decreases |ticks|
  {
    if ticks != [] {
      var first := Step(s, heartbeat, ticks[0]);
      RunKeepsAckRecords(first.0, heartbeat, ticks[1..]);
      var r := Run(s, heartbeat, ticks);
      forall i | 0 <= i < |ticks| && r.1[i].AckAttempt?
        ensures DecodeAck(r.1[i].fields).Some?
      {
        if i > 0 {
          assert r.1[i] == Run(first.0, heartbeat, ticks[1..]).1[i - 1];
        }
      }
    }
  }
}
