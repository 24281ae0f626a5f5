/** The browser's connection to a board: ordered buffering and reconnection with backoff
 *  (packages/orpal-core/src/broker/browser-broker.ts).
 */
module BoardConnections {
  import opened Common

  type Message = nat

  /** readyState of the current socket. */
  datatype Socket = Connecting | Open | Closing

  datatype Config = Config(reconnect: bool, initialMs: nat, maxMs: nat, maxAttempts: Option<nat>)

  /** `timer` is the delay of the armed reconnect timer. `sent` are the messages the caller sent, `handed`
   *  those given to sockets, `delays` the reconnect delays since the last open. */
  datatype Connection = Connection(
    ws: Option<Socket>, pending: seq<Message>, closedByCaller: bool, reconnectAttempts: nat, timer: Option<nat>,
    sent: seq<Message>, handed: seq<Message>, delays: seq<nat>)

  /** `ok` says whether the WebSocket constructor returns. */
  datatype Event =
    | Send(msg: Message)
    | Opened
    | BeginsClosing
    | ClosedEvent
    | TimerFired(ok: bool)
    | Close

  function Power2(k: nat): nat { if k == 0 then 1 else 2 * Power2(k - 1) }

  function Min(a: nat, b: nat): nat { if a <= b then a else b }

  function Delay(c: Config, k: nat): nat { Min(c.maxMs, c.initialMs * Power2(k)) }

  predicate MayRetry(c: Config, s: Connection) {
    !s.closedByCaller && c.reconnect && (c.maxAttempts.None? || s.reconnectAttempts < c.maxAttempts.value)
  }

  function Schedule(c: Config, s: Connection): Connection {
    if !MayRetry(c, s) then s
    else
      var delay := Delay(c, s.reconnectAttempts);
      s.(reconnectAttempts := s.reconnectAttempts + 1, timer := Some(delay), delays := s.delays + [delay])
  }

  function OpenSocket(c: Config, s: Connection, ok: bool): Connection {
    if ok then s.(ws := Some(Connecting)) else Schedule(c, s)
  }

  function Begin(c: Config, ok: bool): Connection {
    OpenSocket(c, Connection(None, [], false, 0, None, [], [], []), ok)
  }

  function Step(c: Config, s: Connection, e: Event): Connection {
    match e
    case Send(m) =>
      if s.closedByCaller then s
      else if s.ws == Some(Open) then s.(sent := s.sent + [m], handed := s.handed + [m])
      else s.(sent := s.sent + [m], pending := s.pending + [m])
    case Opened =>
      if s.ws != Some(Connecting) then s
      else s.(ws := Some(Open), reconnectAttempts := 0, delays := [], handed := s.handed + s.pending, pending := [])
    case BeginsClosing => if s.ws.Some? then s.(ws := Some(Closing)) else s
    case ClosedEvent => if s.ws.None? then s else Schedule(c, s.(ws := None))
    case TimerFired(ok) =>
      if s.timer.None? then s
      else
        var s' := s.(timer := None);
        if s.closedByCaller then s' else OpenSocket(c, s', ok)
    case Close => s.(closedByCaller := true, timer := None, pending := [], ws := if s.ws.Some? then Some(Closing) else None)
  }

  function Run(c: Config, s: Connection, es: seq<Event>): Connection
    decreases |es|
  {
    if es == [] then s else Run(c, Step(c, s, es[0]), es[1..])
  }

  /** Nothing waits while a socket is open, and the backoff has started over; the delays since the last open double
   *  up to the maximum. A connection without socket and timer was closed, or must not retry. */
  predicate Inv(c: Config, s: Connection) {
    (s.timer.Some? ==> s.ws.None? && !s.closedByCaller) &&
    (if s.closedByCaller then s.handed <= s.sent && s.pending == [] else s.handed + s.pending == s.sent) &&
    (s.ws == Some(Open) ==> s.pending == [] && s.reconnectAttempts == 0) &&
    (s.closedByCaller ==> s.ws != Some(Open) && s.ws != Some(Connecting)) &&
    (s.ws.None? && s.timer.None? ==> !MayRetry(c, s)) &&
    |s.delays| == s.reconnectAttempts && (forall k :: 0 <= k < |s.delays| ==> s.delays[k] == Delay(c, k)) &&
    (s.timer.Some? ==> s.delays != [] && s.timer.value == s.delays[|s.delays| - 1]) &&
    (c.maxAttempts.Some? ==> s.reconnectAttempts <= c.maxAttempts.value)
  }

  lemma BeginsWell(c: Config, ok: bool)
    ensures Inv(c, Begin(c, ok))
  {
    var none: seq<Message> := [];
    assert none + none == none;
  }

  lemma StepKeeps(c: Config, s: Connection, e: Event)
    requires Inv(c, s)
    ensures Inv(c, Step(c, s, e))
  {
    match e
    case Send(m) => assert s.handed + (s.pending + [m]) == (s.handed + s.pending) + [m];
    case Opened => assert (s.handed + s.pending) + [] == s.handed + s.pending;
    case _ =>
  }

  /** Across any number of disconnects, until the caller closes, the messages handed to sockets followed by
   *  the buffered ones are exactly the messages sent, in order; afterwards what was handed over is a prefix
   *  of them. A socket and a reconnect timer never coexist, and the k-th delay since the last open is
   *  initialMs * 2^k up to maxMs. */
  lemma {:induction false} EveryRunKeepsOrder(c: Config, s: Connection, es: seq<Event>)
    requires Inv(c, s)
    ensures Inv(c, Run(c, s, es))
    decreases |es|
  {
    if es == [] {
    } else {
      StepKeeps(c, s, es[0]);
      EveryRunKeepsOrder(c, Step(c, s, es[0]), es[1..]);
    }
  }

  /** An open connection has delivered everything. */
  lemma OpenMeansFlushed(c: Config, s: Connection, es: seq<Event>)
    requires Inv(c, s)
    requires Run(c, s, es).ws == Some(Open) && !Run(c, s, es).closedByCaller
    ensures Run(c, s, es).handed == Run(c, s, es).sent
  {
    EveryRunKeepsOrder(c, s, es);
    assert Run(c, s, es).handed + [] == Run(c, s, es).handed;
  }

  /** The messages of a run that are sent before it closes the connection. */
  function SentIn(es: seq<Event>): seq<Message>
    decreases |es|
  {
    if es == [] || es[0].Close? then []
    else (if es[0].Send? then [es[0].msg] else []) + SentIn(es[1..])
  }

  /** `sent` is what the caller sent before closing, in order, whatever happens to the sockets. */
  lemma {:induction false} EverySendCounts(c: Config, s: Connection, es: seq<Event>)
    ensures Run(c, s, es).sent == s.sent + if s.closedByCaller then [] else SentIn(es)
    decreases |es|
  {
    if es == [] {
    } else {
      var v := Step(c, s, es[0]);
      SendCounts(c, s, es[0]);
      EverySendCounts(c, v, es[1..]);
      if !v.closedByCaller { Associative(s.sent, v.sent[|s.sent|..], SentIn(es[1..])); }
    }
  }

  /** Only the caller closes it. */
  lemma {:induction false} ClosedIff(c: Config, s: Connection, es: seq<Event>)
    ensures Run(c, s, es).closedByCaller <==> s.closedByCaller || Close in es
    decreases |es|
  {
    if es == [] {
    } else {
      SendCounts(c, s, es[0]);
      ClosedIff(c, Step(c, s, es[0]), es[1..]);
      assert es == [es[0]] + es[1..];
    }
  }

  lemma SendCounts(c: Config, s: Connection, e: Event)
    ensures Step(c, s, e).sent == s.sent + if e.Send? && !s.closedByCaller then [e.msg] else []
    ensures Step(c, s, e).closedByCaller <==> s.closedByCaller || e.Close?
  {
  }

  /** Closed is closed: nothing is handed over or armed any more, and no socket opens. */
  lemma {:induction false} ClosedForGood(c: Config, s: Connection, es: seq<Event>)
    requires Inv(c, s) && s.closedByCaller
    ensures var r := Run(c, s, es);
            r.closedByCaller && r.handed == s.handed && r.timer.None? && r.ws != Some(Open) && r.ws != Some(Connecting)
    decreases |es|
  {
    if es == [] {
    } else {
      StepKeeps(c, s, es[0]);
      ClosedForGood(c, Step(c, s, es[0]), es[1..]);
    }
  }

  /** The first delay is the configured one, and each one after it twice the last, up to the maximum. */
  lemma DelaysDouble(c: Config, s: Connection, es: seq<Event>, k: nat)
    requires Inv(c, s) && k < |Run(c, s, es).delays|
    ensures var ds := Run(c, s, es).delays;
            ds[k] <= c.maxMs && (k == 0 ==> ds[0] == c.initialMs || ds[0] == c.maxMs <= c.initialMs) &&
            (k > 0 ==> ds[k] == 2 * ds[k - 1] || ds[k] == c.maxMs <= 2 * ds[k - 1])
  {
    EveryRunKeepsOrder(c, s, es);
    var ds := Run(c, s, es).delays;
    assert ds[k] == Delay(c, k);
    if k > 0 {
      assert ds[k - 1] == Delay(c, k - 1);
      DelayDoubles(c, k - 1);
    }
  }

  lemma DelayDoubles(c: Config, k: nat)
    ensures Delay(c, k) <= c.maxMs
    ensures Delay(c, k + 1) == 2 * Delay(c, k) || Delay(c, k + 1) == c.maxMs <= 2 * Delay(c, k)
  {
    var d := c.initialMs * Power2(k);
    assert c.initialMs * Power2(k + 1) == 2 * d by { TwiceAsMuch(c.initialMs, Power2(k)); }
  }

  lemma TwiceAsMuch(a: nat, b: nat)
    ensures a * (2 * b) == 2 * (a * b)
  {
  }

  /** Closing starts the socket's close if there is one, and forgets the timer and what was buffered. */
  lemma CloseIff(c: Config, s: Connection)
    ensures var v := Step(c, s, Close);
            v.closedByCaller && v.timer.None? && v.pending == [] && v.handed == s.handed && v.sent == s.sent &&
            (v.ws.Some? <==> s.ws.Some?) && (v.ws.Some? ==> v.ws == Some(Closing))
  {
  }

  /** A disconnect, and a socket that cannot be made, are followed by another reconnect exactly if one is allowed: the
   *  caller did not close, reconnecting is on, and attempts are left. */
  lemma RetriesIff(c: Config, s: Connection, e: Event)
    requires Inv(c, s) && ((e.ClosedEvent? && s.ws.Some?) || (e == TimerFired(false) && s.timer.Some?))
    ensures var v := Step(c, s, e);
            v.ws.None? && v.pending == s.pending && v.handed == s.handed &&
            (v.timer.Some? <==> !s.closedByCaller && c.reconnect && (c.maxAttempts.Some? ==> s.reconnectAttempts < c.maxAttempts.value)) &&
            (v.timer.Some? ==> v.reconnectAttempts == s.reconnectAttempts + 1)
  {
  }

  // ---------------------------------------------------------------------------------------------
  // Exactly when a connection can come back
  // ---------------------------------------------------------------------------------------------

  predicate CanComeBack(c: Config, s: Connection) {
    s.timer.Some? ||
    match s.ws
    case None => false
    case Some(socket) => socket.Open? || socket.Connecting? || MayRetry(c, s)
  }

  lemma GoneStaysGone(c: Config, s: Connection, e: Event)
    requires Inv(c, s) && !CanComeBack(c, s)
    ensures !CanComeBack(c, Step(c, s, e))
  {
  }

  ghost predicate OpensAfter(c: Config, s: Connection, es: seq<Event>) { Run(c, s, es).ws == Some(Open) }

  lemma {:induction false} GoneForGood(c: Config, s: Connection, es: seq<Event>)
    requires Inv(c, s) && !CanComeBack(c, s)
    ensures !OpensAfter(c, s, es)
    decreases |es|
  {
    if es == [] {
    } else {
      StepKeeps(c, s, es[0]);
      GoneStaysGone(c, s, es[0]);
      GoneForGood(c, Step(c, s, es[0]), es[1..]);
    }
  }

  lemma OpensBefore(c: Config, s: Connection, e: Event, es: seq<Event>)
    requires OpensAfter(c, Step(c, s, e), es)
    ensures OpensAfter(c, s, [e] + es)
  {
    assert ([e] + es)[1..] == es;
  }

  /** The events after which an open socket is there. */
  lemma ComesBack(c: Config, s: Connection) returns (es: seq<Event>)
    requires CanComeBack(c, s) && Inv(c, s)
    ensures OpensAfter(c, s, es) && |es| <= 3
  {
    if s.ws == Some(Open) {
      es := [];
    } else if s.ws == Some(Connecting) {
      es := [Opened] + [];
      OpensBefore(c, s, Opened, []);
    } else if s.timer.Some? {
      var t := Step(c, s, TimerFired(true));
      OpensBefore(c, t, Opened, []);
      OpensBefore(c, s, TimerFired(true), [Opened] + []);
      es := [TimerFired(true)] + ([Opened] + []);
    } else {
      var t := Step(c, s, ClosedEvent);
      var u := Step(c, t, TimerFired(true));
      OpensBefore(c, u, Opened, []);
      OpensBefore(c, t, TimerFired(true), [Opened] + []);
      OpensBefore(c, s, ClosedEvent, [TimerFired(true)] + ([Opened] + []));
      es := [ClosedEvent] + ([TimerFired(true)] + ([Opened] + []));
    }
  }

  /** From every reached state, a socket can open in some continuation, three events at most, if and only if one is
   *  open or connecting, a reconnect is scheduled, or one is closing that may be retried; by OpenMeansFlushed it
   *  then has everything. In every other state no continuation opens one. */
  lemma CanOpenIff(c: Config, ok: bool, before: seq<Event>)
    ensures var s := Run(c, Begin(c, ok), before);
            (exists es :: OpensAfter(c, s, es)) <==> CanComeBack(c, s)
    ensures var s := Run(c, Begin(c, ok), before);
            !s.closedByCaller && c.reconnect && c.maxAttempts.None? ==> CanComeBack(c, s)
  {
    BeginsWell(c, ok);
    EveryRunKeepsOrder(c, Begin(c, ok), before);
    var s := Run(c, Begin(c, ok), before);
    if CanComeBack(c, s) {
      var es := ComesBack(c, s);
    } else {
      forall es ensures !OpensAfter(c, s, es) { GoneForGood(c, s, es); }
    }
  }

  class BrowserBoardConnection {
    const config: Config
    var ws: Option<Socket>
    var pending: seq<Message>
    var closedByCaller: bool
    var reconnectAttempts: nat
    var reconnectTimer: Option<nat>
    ghost var sent: seq<Message>
    ghost var handed: seq<Message>
    ghost var delays: seq<nat>

    ghost function View(): Connection
      reads this
    {
      Connection(ws, pending, closedByCaller, reconnectAttempts, reconnectTimer, sent, handed, delays)
    }

    constructor (config: Config, ok: bool)
      ensures this.config == config && View() == Begin(config, ok)
    {
      this.config := config;
      ws, pending, closedByCaller, reconnectAttempts, reconnectTimer := None, [], false, 0, None;
      sent, handed, delays := [], [], [];
      new;
      OpenWith(ok);
    }

    method OpenWith(ok: bool)
      modifies this
      ensures View() == OpenSocket(config, old(View()), ok)
    {
      if !ok {
        ScheduleReconnect();
        return;
      }
      ws := Some(Connecting);
    }

    method ScheduleReconnect()
      modifies this
      ensures View() == Schedule(config, old(View()))
    {
      if closedByCaller || !config.reconnect { return; }
      if config.maxAttempts.Some? && reconnectAttempts >= config.maxAttempts.value { return; }
      var factor := Exponentiate(reconnectAttempts);
      var delay := Min(config.maxMs, config.initialMs * factor);
      reconnectAttempts := reconnectAttempts + 1;
      reconnectTimer := Some(delay);
      delays := delays + [delay];
    }

    /** Gives a message to the socket when `out` is Some. */
    method SendMessage(msg: Message) returns (out: Option<Message>)
      modifies this
      ensures View() == Step(config, old(View()), Send(msg))
      ensures handed == old(handed) + if out.Some? then [out.value] else []
    {
      out := None;
      if closedByCaller { return; }
      sent := sent + [msg];
      if ws == Some(Open) {
        handed := handed + [msg];
        out := Some(msg);
      } else {
        pending := pending + [msg];
      }
    }

    /** The open listener: everything buffered goes out, in order. */
    method OnOpen() returns (out: seq<Message>)
      requires ws == Some(Connecting)
      modifies this
      ensures View() == Step(config, old(View()), Opened)
      ensures handed == old(handed) + out
    {
      ws := Some(Open);
      reconnectAttempts, delays := 0, [];
      var queued := pending;
      pending := [];
      out := [];
      for i := 0 to |queued|
        invariant out == queued[..i] && handed == old(handed) + out
        invariant View() == old(View()).(ws := Some(Open), reconnectAttempts := 0, delays := [], handed := handed, pending := [])
      {
        out := out + [queued[i]];
        handed := handed + [queued[i]];
      }
      assert queued[..|queued|] == queued;
    }

    method OnClose()
      requires ws.Some?
      modifies this
      ensures View() == Step(config, old(View()), ClosedEvent)
    {
      ws := None;
      var willReconnect := !closedByCaller && config.reconnect &&
                           (config.maxAttempts.None? || reconnectAttempts < config.maxAttempts.value);
      if willReconnect { ScheduleReconnect(); }
    }

    method OnReconnectTimer(ok: bool)
      requires reconnectTimer.Some?
      modifies this
      ensures View() == Step(config, old(View()), TimerFired(ok))
    {
      reconnectTimer := None;
      if !closedByCaller { OpenWith(ok); }
    }

    method CloseConnection()
      modifies this
      ensures View() == Step(config, old(View()), Close)
    {
      closedByCaller := true;
      reconnectTimer := None;
      pending := [];
      if ws.Some? { ws := Some(Closing); }
    }
  }

  method Exponentiate(k: nat) returns (p: nat)
    ensures p == Power2(k)
  {
    p := 1;
    for i := 0 to k
      invariant p == Power2(i)
    {
      p := 2 * p;
    }
  }
}
