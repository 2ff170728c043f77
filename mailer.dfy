/** The package-level side of mailer.go: the `emailOnce` guard that lets
    only the first InitMailer start a daemon, the channel that SendEmail
    sends on and `stop` closes, and the daemon reading that channel.

    Sending on the unbuffered channel hands the message to the daemon, so
    SendEmail is one `Msg` step of the daemon, `stop` one `Closed` step, and
    the idle timer firing one `Timeout` step. */
module Mailer {
  import opened MailDaemon
  import opened MailMessage

  /** The once-guard and the daemons it has started (ghost: their configs,
      in the order they were started). */
  datatype Boot = Boot(started: bool, daemons: seq<SmtpConfig>)

  /** InitMailer on the guard: only a call that finds it unused starts a
      daemon. */
  function Init(b: Boot, config: SmtpConfig): (r: Boot)
    ensures r.started
    ensures !b.started ==> r.daemons == b.daemons + [config]
    ensures b.started ==> r == b
  {
    if b.started then b else Boot(true, b.daemons + [config])
  }

  /** A sequence of InitMailer calls. */
  function InitAll(b: Boot, configs: seq<SmtpConfig>): Boot
    decreases |configs|
  {
    if configs == [] then b else InitAll(Init(b, configs[0]), configs[1..])
  }

  /** Calling InitMailer again changes nothing. */
  lemma InitIdempotent(b: Boot, c1: SmtpConfig, c2: SmtpConfig)
    ensures Init(Init(b, c1), c2) == Init(b, c1)
  {
  }

  /** Calls after the first leave the guard as the first left it. */
  lemma {:induction false} InitAllAfterStart(b: Boot, configs: seq<SmtpConfig>)
    requires b.started
    ensures InitAll(b, configs) == b
  {
    if configs != [] {
      InitAllAfterStart(Init(b, configs[0]), configs[1..]);
    }
  }

  /** However many times InitMailer is called, exactly one daemon runs, with
      the configuration of the first call. */
  lemma ExactlyOneDaemon(configs: seq<SmtpConfig>)
    requires configs != []
    ensures InitAll(Boot(false, []), configs) == Boot(true, [configs[0]])
  {
    InitAllAfterStart(Init(Boot(false, []), configs[0]), configs[1..]);
  }

  /** The package's global state: the once-guard, the daemon it started (if
      any), and whether `stop` has closed the channel. */
  class Mailer {
    var started: bool
    var daemon: Daemon?<Message>
    var channelClosed: bool
    ghost var daemons: seq<SmtpConfig>

    ghost function Guard(): Boot
      reads this
    {
      Boot(started, daemons)
    }

    ghost predicate Valid()
      reads this, daemon
    {
      && (started <==> daemon != null)
      && |daemons| == (if started then 1 else 0)
      && (daemon != null ==>
            && daemon.Valid()
            && daemons == [daemon.config]
            && (daemon.running <==> !channelClosed))
    }

    /** Package initialisation: the channel is open, no daemon runs. */
    constructor ()
      ensures Valid() && !started && !channelClosed && daemons == []
    {
      started, daemon, channelClosed := false, null, false;
      daemons := [];
    }

    /** InitMailer: the first call starts a daemon with `config`; every later
        call leaves everything as it was.  A daemon started after `stop`
        finds the channel closed and returns at once. */
    method InitMailer(config: SmtpConfig)
      requires Valid()
      modifies this
      ensures Valid() && Guard() == Init(old(Guard()), config)
      ensures channelClosed == old(channelClosed)
      ensures old(started) ==> daemon == old(daemon)
      ensures !old(started) ==>
        && fresh(daemon) && daemon.config == config
        && daemon.Model() == (if channelClosed then Next(Start(), Closed, Outcomes(false, false, false)) else Start())
    {
      if !started {
        var d := new Daemon(config);
        if channelClosed {
          d.Step(Closed, Outcomes(false, false, false));
        }
        daemon := d;
        started := true;
        daemons := daemons + [config];
      }
    }

    /** SendEmail: build the message and hand it to the daemon, which takes
        one step with the transport's answers `o`.  The source demands that
        InitMailer was called (before it, the send would block forever on
        the unbuffered channel); after `stop` the send is Go's runtime panic
        on a closed channel, so the channel must still be open. */
    method SendEmail(ctx: EmailCtx, format: Formatter, o: Outcomes) returns (m: Message)
      requires Valid() && started && !channelClosed
      modifies daemon
      ensures Valid() && fresh(m)
      ensures m.header == EmailHeader(ctx, format) && m.parts == EmailParts(ctx)
      ensures daemon.Model() == Next(old(daemon.Model()), Msg(m), o)
    {
      m := MakeEmail(ctx, format);
      daemon.Step(Msg(m), o);
    }

    /** The daemon's idle timer firing while it waits on the channel. */
    method IdleTimeout(o: Outcomes)
      requires Valid() && started && !channelClosed
      modifies daemon
      ensures Valid()
      ensures daemon.Model() == Next(old(daemon.Model()), Timeout, o)
    {
      daemon.Step(Timeout, o);
    }

    /** stop: close the channel; a running daemon returns without closing
        its session.  Closing the channel twice panics in Go. */
    method Stop()
      requires Valid() && !channelClosed
      modifies this, daemon
      ensures Valid() && channelClosed
      ensures started == old(started) && daemon == old(daemon) && daemons == old(daemons)
      ensures daemon != null ==> daemon.Model() == Next(old(daemon.Model()), Closed, Outcomes(false, false, false))
    {
      channelClosed := true;
      if daemon != null {
        daemon.Step(Closed, Outcomes(false, false, false));
      }
    }
  }
}
