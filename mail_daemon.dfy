/** The mail daemon of mailer.go: one worker that owns the transport session,
    dials it lazily when a message arrives, sends over it, closes it after an
    idle timeout and returns when the queue channel is closed.

    The goroutine and the channel become a sequence of events fed to the
    daemon one at a time.  What gomail's dialer answers is not visible, so the
    success or failure of each dial, send and close is a parameter of the step
    (an `Outcomes` value).  The specification is the function `Next` on a
    `State` value; the class `Daemon` holds the loop's variables and its
    `Step` method is proved against `Next`. */
module MailDaemon {

  /** The SMTP settings the daemon dials with (EmailSMTPConfig). */
  datatype SmtpConfig = SmtpConfig(host: string, port: int, user: string, pass: string)

  /** What the daemon's `select` can observe in one iteration: a message
      received from the channel, the idle timer firing, or the channel
      reporting that it is closed. */
  datatype Event<M> = Msg(m: M) | Timeout | Closed

  /** What gomail answers, this iteration, to a dial, a send and a close. */
  datatype Outcomes = Outcomes(dial: bool, send: bool, close: bool)

  /** One call the daemon makes on the transport, with whether it succeeded. */
  datatype Call<M> = Dial(ok: bool) | Send(m: M, ok: bool) | Close(ok: bool)

  /** The daemon's state: the `open` flag of the loop, whether the loop is
      still running, and the history that an instrumented transport would
      record: every call made, every message received, every message
      actually sent. */
  datatype State<M> = State(open: bool, running: bool, calls: seq<Call<M>>, received: seq<M>, sent: seq<M>)

  /** The state the daemon starts in: no session, nothing received. */
  function Start<M>(): State<M>
  {
    State(false, true, [], [], [])
  }

  /** One iteration of the daemon loop, as the specification of `Step`. */
  function Next<M>(s: State<M>, e: Event<M>, o: Outcomes): (r: State<M>)
    ensures |s.calls| <= |r.calls| && r.calls[..|s.calls|] == s.calls
    ensures |s.received| <= |r.received| && r.received[..|s.received|] == s.received
    ensures |s.sent| <= |r.sent| && r.sent[..|s.sent|] == s.sent
  {
    if !s.running then s
    else match e
      case Closed =>
        s.(running := false)
      case Timeout =>
        if s.open then s.(open := false, calls := s.calls + [Close(o.close)]) else s
      case Msg(m) =>
        var s1 := s.(received := s.received + [m]);
        var s2 := if s1.open then s1
                  else s1.(open := o.dial, calls := s1.calls + [Dial(o.dial)]);
        if s2.open then
          s2.(calls := s2.calls + [Send(m, o.send)],
              sent := if o.send then s2.sent + [m] else s2.sent)
        else s2
  }

  /** The daemon loop fed with a finite stream of events, the i-th answered
      by the i-th outcomes; once the channel is seen closed the loop has
      returned and later events are never read. */
  function Run<M>(s: State<M>, events: seq<Event<M>>, outs: seq<Outcomes>): State<M>
    requires |outs| == |events|
    decreases |events|
  {
    if events == [] || !s.running then s
    else Run(Next(s, events[0], outs[0]), events[1..], outs[1..])
  }

  /** The messages of the events the loop reads: those before the first
      `Closed`. */
  function Arrivals<M>(events: seq<Event<M>>): seq<M>
  {
    if events == [] then []
    else match events[0]
      case Closed => []
      case Timeout => Arrivals(events[1..])
      case Msg(m) => [m] + Arrivals(events[1..])
  }

  // ---------------------------------------------------------------------
  // Reading a trace of transport calls

  /** Whether the daemon treats a session as open after the given calls: a
      successful dial opens one, a close ends it even when Close failed (as
      the daemon clears its flag either way), a failed dial leaves none. */
  function SessionOpen<M>(calls: seq<Call<M>>): bool
  {
    if calls == [] then false
    else match calls[|calls| - 1]
      case Dial(ok) => ok
      case Close(_) => false
      case Send(_, _) => SessionOpen(calls[..|calls| - 1])
  }

  /** The transport is used as the daemon's one-session policy demands: a
      dial is never made while the daemon treats a session as open, and
      sends and closes happen only on a session it treats as open. */
  ghost predicate Protocol<M>(calls: seq<Call<M>>)
  {
    calls != [] ==>
      var before := calls[..|calls| - 1];
      && Protocol(before)
      && match calls[|calls| - 1]
         case Dial(_) => !SessionOpen(before)
         case Send(_, _) => SessionOpen(before)
         case Close(_) => SessionOpen(before)
  }

  /** The number of sessions the daemon has opened and not yet closed, a
      close that failed counting as closed. */
  function OpenSessions<M>(calls: seq<Call<M>>): int
  {
    if calls == [] then 0
    else
      var before := OpenSessions(calls[..|calls| - 1]);
      match calls[|calls| - 1]
      case Dial(ok) => if ok then before + 1 else before
      case Close(_) => before - 1
      case Send(_, _) => before
  }

  /** The messages handed to gomail.Send, in order. */
  function Attempted<M>(calls: seq<Call<M>>): seq<M>
  {
    if calls == [] then []
    else
      var before := Attempted(calls[..|calls| - 1]);
      match calls[|calls| - 1]
      case Send(m, _) => before + [m]
      case _ => before
  }

  /** The messages whose send succeeded, in order. */
  function Delivered<M>(calls: seq<Call<M>>): seq<M>
  {
    if calls == [] then []
    else
      var before := Delivered(calls[..|calls| - 1]);
      match calls[|calls| - 1]
      case Send(m, ok) => if ok then before + [m] else before
      case _ => before
  }

  /** `sub` can be obtained from `s` by deleting elements: it keeps their
      order and uses each position of `s` at most once. */
  ghost predicate IsSubsequence<T>(sub: seq<T>, s: seq<T>)
    decreases |s|
  {
    if sub == [] then true
    else if s == [] then false
    else
      (sub[|sub| - 1] == s[|s| - 1] && IsSubsequence(sub[..|sub| - 1], s[..|s| - 1]))
      || IsSubsequence(sub, s[..|s| - 1])
  }

  /** What every reachable state satisfies. */
  ghost predicate Inv<M>(s: State<M>)
  {
    && s.open == SessionOpen(s.calls)
    && Protocol(s.calls)
    && s.sent == Delivered(s.calls)
    && IsSubsequence(Attempted(s.calls), s.received)
    && IsSubsequence(s.sent, s.received)
  }

  // ---------------------------------------------------------------------
  // Lemmas on subsequences

  /** Receiving one more message keeps a subsequence a subsequence. */
  lemma {:induction false} SubsequenceExtendRight<T>(sub: seq<T>, s: seq<T>, x: T)
    requires IsSubsequence(sub, s)
    ensures IsSubsequence(sub, s + [x])
  {
    if sub != [] {
      assert (s + [x])[..|s|] == s;
    }
  }

  /** Receiving a message and sending it keeps a subsequence a subsequence. */
  lemma {:induction false} SubsequenceExtendBoth<T>(sub: seq<T>, s: seq<T>, x: T)
    requires IsSubsequence(sub, s)
    ensures IsSubsequence(sub + [x], s + [x])
  {
    assert (s + [x])[..|s|] == s;
    assert (sub + [x])[..|sub|] == sub;
  }

  /** A subsequence takes each element at most as often as the sequence has
      it: no received message is sent more often than it was received. */
  lemma {:induction false} SubsequenceMultiset<T>(sub: seq<T>, s: seq<T>)
    requires IsSubsequence(sub, s)
    ensures multiset(sub) <= multiset(s)
    decreases |s|
  {
    if sub == [] {
    } else {
      var s' := s[..|s| - 1];
      assert s == s' + [s[|s| - 1]];
      if sub[|sub| - 1] == s[|s| - 1] && IsSubsequence(sub[..|sub| - 1], s') {
        SubsequenceMultiset(sub[..|sub| - 1], s');
        assert sub == sub[..|sub| - 1] + [sub[|sub| - 1]];
      } else {
        SubsequenceMultiset(sub, s');
      }
    }
  }

  // ---------------------------------------------------------------------
  // The invariant

  /** At most one session is ever treated as open by the daemon: under the
      protocol the number of sessions opened and not closed (a failed close
      counting as closed) is 1 exactly when the daemon's flag says a session
      is open, and 0 otherwise. */
  lemma {:induction false} AtMostOneSession<M>(calls: seq<Call<M>>)
    requires Protocol(calls)
    ensures OpenSessions(calls) == if SessionOpen(calls) then 1 else 0
  {
    if calls != [] {
      AtMostOneSession(calls[..|calls| - 1]);
    }
  }

  lemma StartInv<M>()
    ensures Inv(Start<M>())
  {
  }

  /** The views of a trace after one more call. */
  lemma TraceSnoc<M>(calls: seq<Call<M>>, c: Call<M>)
    ensures (calls + [c])[..|calls|] == calls
    ensures SessionOpen(calls + [c]) == match c
      case Dial(ok) => ok
      case Close(_) => false
      case Send(_, _) => SessionOpen(calls)
    ensures Protocol(calls + [c]) == (Protocol(calls) && match c
      case Dial(_) => !SessionOpen(calls)
      case Send(_, _) => SessionOpen(calls)
      case Close(_) => SessionOpen(calls))
    ensures Attempted(calls + [c]) == if c.Send? then Attempted(calls) + [c.m] else Attempted(calls)
    ensures Delivered(calls + [c]) == if c.Send? && c.ok then Delivered(calls) + [c.m] else Delivered(calls)
  {
    assert (calls + [c])[..|calls|] == calls;
  }

  /** Every iteration of the loop keeps the invariant. */
  lemma {:induction false} NextInv<M>(s: State<M>, e: Event<M>, o: Outcomes)
    requires Inv(s)
    ensures Inv(Next(s, e, o))
  {
    if s.running {
      match e
      case Closed =>
      case Timeout =>
        if s.open { TraceSnoc(s.calls, Close(o.close)); }
      case Msg(m) =>
        var received := s.received + [m];
        if s.open {
          TraceSnoc(s.calls, Send(m, o.send));
          SubsequenceExtendBoth(Attempted(s.calls), s.received, m);
          if o.send {
            SubsequenceExtendBoth(s.sent, s.received, m);
          } else {
            SubsequenceExtendRight(s.sent, s.received, m);
          }
        } else {
          var c1 := s.calls + [Dial(o.dial)];
          TraceSnoc(s.calls, Dial(o.dial));
          if o.dial {
            TraceSnoc(c1, Send(m, o.send));
            SubsequenceExtendBoth(Attempted(c1), s.received, m);
            if o.send {
              SubsequenceExtendBoth(s.sent, s.received, m);
            } else {
              SubsequenceExtendRight(s.sent, s.received, m);
            }
          } else {
            SubsequenceExtendRight(Attempted(c1), s.received, m);
            SubsequenceExtendRight(s.sent, s.received, m);
          }
        }
    }
  }

  /** The invariant holds after any stream of events. */
  lemma {:induction false} RunInv<M>(s: State<M>, events: seq<Event<M>>, outs: seq<Outcomes>)
    requires |outs| == |events|
    requires Inv(s)
    ensures Inv(Run(s, events, outs))
    decreases |events|
  {
    if events != [] && s.running {
      NextInv(s, events[0], outs[0]);
      RunInv(Next(s, events[0], outs[0]), events[1..], outs[1..]);
    }
  }

  /** Messages are sent in the order they were received, none is sent more
      often than it was received, and at most one session is treated as
      open, whatever the transport answers. */
  lemma SentInArrivalOrder<M>(events: seq<Event<M>>, outs: seq<Outcomes>)
    requires |outs| == |events|
    ensures var r := Run(Start(), events, outs);
      && IsSubsequence(r.sent, r.received)
      && multiset(r.sent) <= multiset(r.received)
      && OpenSessions(r.calls) == if r.open then 1 else 0
  {
    var r := Run(Start(), events, outs);
    RunInv(Start(), events, outs);
    SubsequenceMultiset(r.sent, r.received);
    AtMostOneSession(r.calls);
  }

  /** The daemon receives exactly the messages queued before the channel was
      closed, in queue order. */
  lemma {:induction false} RunReceives<M>(s: State<M>, events: seq<Event<M>>, outs: seq<Outcomes>)
    requires |outs| == |events|
    requires s.running
    ensures Run(s, events, outs).received == s.received + Arrivals(events)
    decreases |events|
  {
    if events != [] {
      var s' := Next(s, events[0], outs[0]);
      match events[0]
      case Closed =>
        assert Run(s', events[1..], outs[1..]) == s';
      case Timeout =>
        RunReceives(s', events[1..], outs[1..]);
      case Msg(m) =>
        RunReceives(s', events[1..], outs[1..]);
        assert s'.received == s.received + [m];
    }
  }

  /** When every dial and send succeeds, every message received is sent, in
      arrival order (the FIFO property of a working transport). */
  lemma {:induction false} RunDeliversAll<M>(s: State<M>, events: seq<Event<M>>, outs: seq<Outcomes>)
    requires |outs| == |events|
    requires s.running
    requires forall i :: 0 <= i < |outs| ==> outs[i].dial && outs[i].send
    ensures Run(s, events, outs).sent == s.sent + Arrivals(events)
    decreases |events|
  {
    if events != [] {
      var s' := Next(s, events[0], outs[0]);
      match events[0]
      case Closed =>
        assert Run(s', events[1..], outs[1..]) == s';
      case Timeout =>
        RunDeliversAll(s', events[1..], outs[1..]);
      case Msg(m) =>
        RunDeliversAll(s', events[1..], outs[1..]);
        assert s'.sent == s.sent + [m];
    }
  }

  // ---------------------------------------------------------------------
  // The policy, transition by transition

  /** A message arriving with no session open causes exactly one dial; when
      it succeeds the session is open and the message is handed to Send
      once. */
  lemma MsgWhileClosedDialsOnce<M>(s: State<M>, m: M, o: Outcomes)
    requires s.running && !s.open
    ensures var r := Next(s, Msg(m), o);
      && r.calls[|s.calls|] == Dial(o.dial)
      && r.running && r.received == s.received + [m]
      && (o.dial ==>
            && r.open && r.calls == s.calls + [Dial(true), Send(m, o.send)]
            && r.sent == if o.send then s.sent + [m] else s.sent)
  {
  }

  /** A failed dial drops the triggering message: the session stays closed,
      nothing is sent or queued again, and the next message dials afresh. */
  lemma DialFailureDrops<M>(s: State<M>, m: M, o: Outcomes, m2: M, o2: Outcomes)
    requires s.running && !s.open && !o.dial
    ensures var r := Next(s, Msg(m), o);
      && !r.open && r.running
      && r.calls == s.calls + [Dial(false)]
      && r.sent == s.sent
      && r.received == s.received + [m]
      && Next(r, Msg(m2), o2).calls[|r.calls|] == Dial(o2.dial)
      && Next(r, Msg(m2), o2).sent == s.sent + (if o2.dial && o2.send then [m2] else [])
  {
  }

  /** A message arriving while a session is open is sent without a dial; a
      failed send leaves the session open and changes nothing else. */
  lemma MsgWhileOpenSends<M>(s: State<M>, m: M, o: Outcomes)
    requires s.running && s.open
    ensures var r := Next(s, Msg(m), o);
      && r.open && r.running
      && r.received == s.received + [m]
      && r.calls == s.calls + [Send(m, o.send)]
      && r.sent == if o.send then s.sent + [m] else s.sent
  {
  }

  /** The idle timeout closes an open session exactly once and marks it
      closed whether or not the close failed; with no session it changes
      nothing. */
  lemma TimeoutCloses<M>(s: State<M>, o: Outcomes)
    requires s.running
    ensures var r := Next(s, Timeout, o);
      && !r.open && r.running
      && r.received == s.received && r.sent == s.sent
      && r.calls == if s.open then s.calls + [Close(o.close)] else s.calls
  {
  }

  /** A closed channel ends the loop without closing an open session, and no
      later event is read. */
  lemma ClosedChannelEnds<M>(s: State<M>, o: Outcomes, events: seq<Event<M>>, outs: seq<Outcomes>)
    requires s.running && |outs| == |events|
    ensures var r := Next(s, Closed, o);
      && !r.running && r.open == s.open && r.calls == s.calls
      && Run(r, events, outs) == r
  {
  }

  /** The scenario of an idle gap between two messages on a working
      transport: dial, send, close, then one new dial and one send. */
  lemma IdleGapRedials<M>(m1: M, m2: M)
    ensures var ok := Outcomes(true, true, true);
      Run(Start(), [Msg(m1), Timeout, Msg(m2)], [ok, ok, ok]).calls
        == [Dial(true), Send(m1, true), Close(true), Dial(true), Send(m2, true)]
  {
    var ok := Outcomes(true, true, true);
    var s1 := Next(Start(), Msg(m1), ok);
    assert s1.calls == [Dial(true), Send(m1, true)] && s1.open;
    var s2 := Next(s1, Timeout, ok);
    assert s2.calls == s1.calls + [Close(true)] && !s2.open;
    var s3 := Next(s2, Msg(m2), ok);
    assert s3.calls == s2.calls + [Dial(true), Send(m2, true)];
    assert Run(s3, [], []) == s3;
    assert Run(s2, [Msg(m2)], [ok]) == s3;
    assert Run(s1, [Timeout, Msg(m2)], [ok, ok]) == s3;
  }

  // ---------------------------------------------------------------------
  // The daemon

  /** The daemon goroutine's variables: `open`, whether the loop is still
      running, and (ghost) the history of transport calls and messages. */
  class Daemon<M> {
    const config: SmtpConfig
    var open: bool
    var running: bool
    ghost var calls: seq<Call<M>>
    ghost var received: seq<M>
    ghost var sent: seq<M>

    ghost function Model(): State<M>
      reads this
    {
      State(open, running, calls, received, sent)
    }

    ghost predicate Valid()
      reads this
    {
      Inv(Model())
    }

    /** The daemon as `InitMailer` starts it, with its dialer built from
        `config`. */
    constructor (config: SmtpConfig)
      ensures Valid() && Model() == Start() && this.config == config
    {
      this.config := config;
      open, running := false, true;
      calls, received, sent := [], [], [];
    }

    /** One iteration of the `for { select { ... } }` loop. */
    method Step(e: Event<M>, o: Outcomes)
      requires Valid() && running
      modifies this
      ensures Valid() && Model() == Next(old(Model()), e, o)
    {
      ghost var s := Model();
      NextInv(s, e, o);
      match e
      case Closed =>
        running := false;
      case Timeout =>
        if open {
          calls := calls + [Close(o.close)];
          open := false;
        }
      case Msg(m) =>
        received := received + [m];
        if !open {
          calls := calls + [Dial(o.dial)];
          if o.dial {
            open := true;
          }
        }
        if open {
          calls := calls + [Send(m, o.send)];
          if o.send {
            sent := sent + [m];
          }
        }
        assert Model() == Next(s, e, o);
    }

    /** The daemon loop over a stream of events; it returns when the channel
        is seen closed or the stream is used up. */
    method Loop(events: seq<Event<M>>, outs: seq<Outcomes>)
      requires Valid() && |outs| == |events|
      modifies this
      ensures Valid() && Model() == Run(old(Model()), events, outs)
    {
      var i := 0;
      while i < |events| && running
        invariant 0 <= i <= |events|
        invariant Valid()
        invariant Run(Model(), events[i..], outs[i..]) == Run(old(Model()), events, outs)
      {
        assert events[i..][1..] == events[i + 1..] && outs[i..][1..] == outs[i + 1..];
        Step(events[i], outs[i]);
        i := i + 1;
      }
    }
  }
}
