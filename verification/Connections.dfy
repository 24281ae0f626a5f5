/** Connection bookkeeping: waiters, timeouts, duplicate connections and blocking
 *  (packages/orpal-core/src/messaging/connection-manager.ts, orpal-client.ts handleConnected and setBlockedKeys).
 */
module Connections {
  import opened Common

  type Contact = nat
  type MatchKey = nat
  type Endpoint = nat

  /** A call of ensureConnection that created a promise, with its waiter and its timer. */
  type ConnectId = nat

  datatype Conn = Conn(matchKey: MatchKey, endpoint: Option<Endpoint>, up: bool)

  /** `timers` are the live connect timers, each with its contact; `settled` the connect promises settled so
   *  far, in order; `reached` the endpoints with which handleConnected was entered for a contact. */
  datatype State = State(
    connections: map<Contact, Conn>, endpoints: map<MatchKey, Endpoint>, counterparty: map<MatchKey, Contact>,
    waiters: map<Contact, set<ConnectId>>, pending: map<Contact, ConnectId>, timers: map<ConnectId, Contact>, next: ConnectId,
    blocked: set<Contact>, settled: seq<ConnectId>, closed: set<Endpoint>, reached: map<Contact, set<Endpoint>>)

  datatype Event =
    | Ensure(contact: Contact)
    | TimedOut(id: ConnectId)
    | Matched(matchKey: MatchKey, endpoint: Endpoint, contact: Contact)
    | Connected(contact: Contact, matchKey: MatchKey)
    | EndpointState(matchKey: MatchKey, up: bool)
    | SetBlocked(keys: set<Contact>)

  const INITIAL: State := State(map[], map[], map[], map[], map[], map[], 0, {}, [], {}, map[])

  function WaitersOf(s: State, c: Contact): set<ConnectId> { if c in s.waiters then s.waiters[c] else {} }

  function ReachedBy(s: State, c: Contact): set<Endpoint> { if c in s.reached then s.reached[c] else {} }

  predicate IsUp(s: State, c: Contact) { c in s.connections && s.connections[c].up }

  /** sendIntents answers later, so the promise is registered before anything can resolve it. */
  function OnEnsure(s: State, c: Contact): State {
    if IsUp(s, c) || c in s.pending then s
    else s.(waiters := s.waiters[c := WaitersOf(s, c) + {s.next}], pending := s.pending[c := s.next],
            timers := s.timers[s.next := c], next := s.next + 1)
  }

  function OnTimeout(s: State, id: ConnectId): State {
    if id !in s.timers then s
    else
      var c := s.timers[id];
      s.(timers := s.timers - {id}, waiters := s.waiters[c := WaitersOf(s, c) - {id}], pending := s.pending - {c},
         settled := s.settled + [id])
  }

  function Ids(order: seq<ConnectId>): set<ConnectId> { set id | id in order }

  /** Every waiter of the contact, in some order: its timer is cleared and its promise resolved. */
  function Resolve(s: State, c: Contact, order: seq<ConnectId>): State {
    if c !in s.waiters then s
    else
      s.(waiters := s.waiters - {c}, timers := s.timers - Ids(order),
         pending := if order == [] then s.pending else s.pending - {c}, settled := s.settled + order)
  }

  function EndpointOf(s: State, m: MatchKey): Option<Endpoint> {
    if m in s.endpoints then Some(s.endpoints[m]) else None
  }

  function AsSet(e: Option<Endpoint>): set<Endpoint> { if e.Some? then {e.value} else {} }

  function CloseEndpoint(s: State, e: Option<Endpoint>): State { s.(closed := s.closed + AsSet(e)) }

  /** Each waiter once. */
  predicate Order(s: State, c: Contact, order: seq<ConnectId>) { multiset(order) == multiset(WaitersOf(s, c)) }

  predicate Other(s: State, c: Contact, m: MatchKey) { c in s.connections && s.connections[c].matchKey != m }

  /** A blocked contact is refused, and so is a second connection beside a live one. */
  predicate Admitted(s: State, c: Contact, m: MatchKey) {
    c !in s.blocked && !(Other(s, c, m) && s.connections[c].up)
  }

  /** What handleConnected closes: the endpoint it refuses, or the one it replaces. */
  function Closes(s: State, c: Contact, m: MatchKey): set<Endpoint> {
    if !Admitted(s, c, m) then AsSet(EndpointOf(s, m))
    else if Other(s, c, m) then AsSet(s.connections[c].endpoint)
    else {}
  }

  /** handleConnected up to the resolving of the waiters. */
  function Admit(s: State, c: Contact, m: MatchKey): State {
    s.(reached := s.reached[c := ReachedBy(s, c) + AsSet(EndpointOf(s, m))],
       closed := s.closed + Closes(s, c, m),
       connections := if Admitted(s, c, m) then s.connections[c := Conn(m, EndpointOf(s, m), true)] else s.connections)
  }

  function OnConnected(s: State, c: Contact, m: MatchKey, order: seq<ConnectId>): State {
    if Admitted(s, c, m) then Resolve(Admit(s, c, m), c, order) else Admit(s, c, m)
  }

  function OnEndpointState(s: State, m: MatchKey, up: bool): State {
    if up || m !in s.counterparty then s
    else
      var c := s.counterparty[m];
      if c !in s.connections || s.connections[c].matchKey != m then s
      else s.(connections := s.connections[c := s.connections[c].(up := false)])
  }

  function Drop(s: State, c: Contact): State {
    if c !in s.connections then s
    else CloseEndpoint(s, s.connections[c].endpoint).(connections := s.connections - {c})
  }

  function EndpointsOf(s: State, keys: set<Contact>): set<Endpoint> {
    set c | c in s.connections && c in keys && s.connections[c].endpoint.Some? :: s.connections[c].endpoint.value
  }

  function OnSetBlocked(s: State, keys: set<Contact>): State {
    s.(blocked := keys, closed := s.closed + EndpointsOf(s, keys), connections := s.connections - keys)
  }

  /** `order` is the order in which a set of waiters happens to be visited. */
  function Step(s: State, e: Event, order: seq<ConnectId>): State {
    match e
    case Ensure(c) => OnEnsure(s, c)
    case TimedOut(id) => OnTimeout(s, id)
    case Matched(m, ep, c) => s.(counterparty := s.counterparty[m := c], endpoints := s.endpoints[m := ep])
    case Connected(c, m) => if Order(s, c, order) then OnConnected(s, c, m, order) else s
    case EndpointState(m, up) => OnEndpointState(s, m, up)
    case SetBlocked(keys) => OnSetBlocked(s, keys)
  }

  function Run(s: State, es: seq<(Event, seq<ConnectId>)>): State
    decreases |es|
  {
    if es == [] then s else Run(Step(s, es[0].0, es[0].1), es[1..])
  }

  // ---------------------------------------------------------------------------------------------
  // Waiters and promises
  // ---------------------------------------------------------------------------------------------

  /** A pending connect is one waiter with a live timer, and there are no others. */
  predicate OneWaiter(s: State) {
    (forall c :: c in s.pending ==> WaitersOf(s, c) == {s.pending[c]} && s.pending[c] in s.timers && s.timers[s.pending[c]] == c) &&
    (forall c :: c in s.waiters && c !in s.pending ==> s.waiters[c] == {}) &&
    (forall id :: id in s.timers ==> id < s.next && s.timers[id] in s.pending && s.pending[s.timers[id]] == id)
  }

  predicate SettledOnce(s: State) {
    (forall i :: 0 <= i < |s.settled| ==> s.settled[i] < s.next && s.settled[i] !in s.timers) &&
    (forall i, j :: 0 <= i < j < |s.settled| ==> s.settled[i] != s.settled[j])
  }

  /** No connect promise is lost: each created one is waiting or settled. */
  predicate NoneLost(s: State) {
    forall id :: 0 <= id < s.next ==> id in s.timers || id in s.settled
  }

  predicate Waiting(s: State) { OneWaiter(s) && SettledOnce(s) && NoneLost(s) }

  lemma OrderOfOne(order: seq<ConnectId>, ids: set<ConnectId>)
    requires multiset(order) == multiset(ids)
    ensures |order| == |ids|
    ensures forall id :: ids == {id} ==> order == [id]
  {
    assert |order| == |multiset(order)| == |multiset(ids)| == |ids|;
    forall id | ids == {id} ensures order == [id] {
      assert |order| == 1 && order[0] in multiset(order);
    }
  }

  lemma ResolveKeeps(s: State, c: Contact, order: seq<ConnectId>)
    requires Waiting(s) && Order(s, c, order)
    ensures Waiting(Resolve(s, c, order))
  {
    OrderOfOne(order, WaitersOf(s, c));
    if c in s.waiters {
      if c in s.pending {
        assert order == [s.pending[c]] && Ids(order) == {s.pending[c]};
        SettleKeeps(s, s.pending[c], Resolve(s, c, order));
      } else {
        NoneToResolve(s, c);
      }
    }
  }

  lemma NoneToResolve(s: State, c: Contact)
    requires Waiting(s) && c in s.waiters && c !in s.pending
    ensures Waiting(Resolve(s, c, []))
  {
    assert s.settled + [] == s.settled && s.timers - Ids([]) == s.timers;
    assert forall x :: x != c ==> WaitersOf(Resolve(s, c, []), x) == WaitersOf(s, x);
  }

  /** One waiting connect leaves every list at once. */
  lemma SettleKeeps(s: State, id: ConnectId, v: State)
    requires Waiting(s) && id in s.timers
    requires v.pending == s.pending - {s.timers[id]} && v.timers == s.timers - {id} && v.next == s.next
    requires v.settled == s.settled + [id] && WaitersOf(v, s.timers[id]) == {}
    requires forall c :: c != s.timers[id] ==> (c in v.waiters <==> c in s.waiters) && WaitersOf(v, c) == WaitersOf(s, c)
    ensures Waiting(v)
  {
    assert forall x :: x in s.settled || x == id ==> x in v.settled;
    assert forall c :: c in v.waiters ==> v.waiters[c] == WaitersOf(v, c);
  }

  lemma SameWaiting(s: State, v: State)
    requires Waiting(s)
    requires v.waiters == s.waiters && v.pending == s.pending && v.timers == s.timers && v.next == s.next && v.settled == s.settled
    ensures Waiting(v)
  {
    assert forall c :: WaitersOf(v, c) == WaitersOf(s, c);
  }

  lemma EnsureKeeps(s: State, c: Contact)
    requires Waiting(s)
    ensures Waiting(OnEnsure(s, c))
  {
    var v := OnEnsure(s, c);
    if v != s {
      assert WaitersOf(v, c) == {s.next};
      assert forall x :: x != c ==> WaitersOf(v, x) == WaitersOf(s, x);
    }
  }

  lemma AdmitWaits(s: State, c: Contact, m: MatchKey)
    requires Waiting(s)
    ensures Waiting(Admit(s, c, m))
  {
    SameWaiting(s, Admit(s, c, m));
  }

  lemma WaitingStep(s: State, e: Event, order: seq<ConnectId>)
    requires Waiting(s)
    ensures Waiting(Step(s, e, order))
  {
    match e
    case Ensure(c) => EnsureKeeps(s, c);
    case TimedOut(id) => if id in s.timers { SettleKeeps(s, id, OnTimeout(s, id)); }
    case Connected(c, m) =>
      if Order(s, c, order) {
        AdmitWaits(s, c, m);
        if Admitted(s, c, m) { ResolveKeeps(Admit(s, c, m), c, order); }
      }
    case Matched(m, ep, c) => SameWaiting(s, Step(s, e, order));
    case EndpointState(m, up) => SameWaiting(s, OnEndpointState(s, m, up));
    case SetBlocked(keys) => SameWaiting(s, OnSetBlocked(s, keys));
  }

  /** In every run a contact has a pending connect exactly when it has one waiter with a live timer, and
   *  every connect promise is waiting or settled, never settled twice. */
  lemma {:induction false} ConnectsSettleOnce(s: State, es: seq<(Event, seq<ConnectId>)>, c: Contact)
    requires Waiting(s)
    ensures var r := Run(s, es);
            Waiting(r) && (c in r.pending <==> |WaitersOf(r, c)| == 1) && (c !in r.pending <==> WaitersOf(r, c) == {})
    decreases |es|
  {
    if es != [] {
      WaitingStep(s, es[0].0, es[0].1);
      ConnectsSettleOnce(Step(s, es[0].0, es[0].1), es[1..], c);
    } else if c in s.pending {
      assert s.pending[c] in WaitersOf(s, c);
    }
  }

  // ---------------------------------------------------------------------------------------------
  // Connections
  // ---------------------------------------------------------------------------------------------

  predicate BlockedAreOut(s: State) { forall c :: c in s.blocked ==> c !in s.connections }

  lemma BlockedStep(s: State, e: Event, order: seq<ConnectId>)
    requires BlockedAreOut(s)
    ensures BlockedAreOut(Step(s, e, order))
  {
    match e
    case Connected(c, m) => assert BlockedAreOut(Admit(s, c, m));
    case SetBlocked(keys) =>
    case _ =>
  }

  /** In every run no blocked contact has a connection. */
  lemma {:induction false} BlockedHaveNoConnection(s: State, es: seq<(Event, seq<ConnectId>)>)
    requires BlockedAreOut(s)
    ensures BlockedAreOut(Run(s, es))
    decreases |es|
  {
    if es == [] {
    } else {
      BlockedStep(s, es[0].0, es[0].1);
      BlockedHaveNoConnection(Step(s, es[0].0, es[0].1), es[1..]);
    }
  }

  /** The endpoints handleConnected saw for a contact and we did not close. */
  function LeftOpen(s: State, c: Contact): set<Endpoint> { ReachedBy(s, c) - s.closed }

  function Registered(s: State, c: Contact): set<Endpoint> {
    if c in s.connections then AsSet(s.connections[c].endpoint) else {}
  }

  /** Only the registered connection's endpoint is open, and it is its match's. */
  predicate OpenAt(s: State, c: Contact) {
    LeftOpen(s, c) <= Registered(s, c) &&
    (c in s.connections ==> s.connections[c].endpoint == EndpointOf(s, s.connections[c].matchKey))
  }

  ghost predicate OneOpen(s: State) { forall c :: OpenAt(s, c) }

  /** The board gives a match key once, before the match connects. */
  predicate FreshMatches(s: State, es: seq<(Event, seq<ConnectId>)>)
    decreases |es|
  {
    es != [] ==>
      (es[0].0.Matched? ==> es[0].0.matchKey !in s.endpoints) && (es[0].0.Connected? ==> es[0].0.matchKey in s.endpoints) &&
      FreshMatches(Step(s, es[0].0, es[0].1), es[1..])
  }

  lemma AdmitKeepsOthers(s: State, c: Contact, m: MatchKey, x: Contact)
    requires OpenAt(s, x) && x != c
    ensures OpenAt(Admit(s, c, m), x)
  {
    var v := Admit(s, c, m);
    assert s.closed <= v.closed && ReachedBy(v, x) == ReachedBy(s, x);
  }

  lemma AdmitKeepsOwn(s: State, c: Contact, m: MatchKey)
    requires OpenAt(s, c)
    ensures OpenAt(Admit(s, c, m), c)
  {
    var v := Admit(s, c, m);
    assert ReachedBy(v, c) == ReachedBy(s, c) + AsSet(EndpointOf(s, m));
  }

  lemma BlockingKeeps(s: State, keys: set<Contact>, x: Contact)
    requires OpenAt(s, x)
    ensures OpenAt(OnSetBlocked(s, keys), x)
  {
    if x in s.connections && x in keys { assert Registered(s, x) <= EndpointsOf(s, keys); }
  }

  lemma StateKeeps(s: State, v: State, x: Contact)
    requires OpenAt(s, x) && v.closed == s.closed && v.reached == s.reached
    requires x in v.connections <==> x in s.connections
    requires x in s.connections ==>
               v.connections[x].matchKey == s.connections[x].matchKey && v.connections[x].endpoint == s.connections[x].endpoint &&
               EndpointOf(v, s.connections[x].matchKey) == EndpointOf(s, s.connections[x].matchKey)
    ensures OpenAt(v, x)
  {
    assert ReachedBy(v, x) == ReachedBy(s, x);
  }

  /** Connections are registered only for matches with an endpoint. */
  predicate AllMatched(s: State) { forall c :: c in s.connections ==> s.connections[c].matchKey in s.endpoints }

  lemma ConnectedOpens(s: State, c: Contact, m: MatchKey, order: seq<ConnectId>, x: Contact)
    requires OpenAt(s, c) && OpenAt(s, x)
    ensures OpenAt(OnConnected(s, c, m, order), x)
  {
    if x == c { AdmitKeepsOwn(s, c, m); } else { AdmitKeepsOthers(s, c, m, x); }
    StateKeeps(Admit(s, c, m), OnConnected(s, c, m, order), x);
  }

  lemma OpenStep(s: State, e: Event, order: seq<ConnectId>, x: Contact)
    requires OneOpen(s) && AllMatched(s)
    requires e.Matched? ==> e.matchKey !in s.endpoints
    requires e.Connected? ==> e.matchKey in s.endpoints
    ensures OpenAt(Step(s, e, order), x)
  {
    assert OpenAt(s, x);
    match e
    case Connected(c, m) =>
      if Order(s, c, order) {
        assert OpenAt(s, c);
        ConnectedOpens(s, c, m, order, x);
      }
    case SetBlocked(keys) => BlockingKeeps(s, keys, x);
    case _ => StateKeeps(s, Step(s, e, order), x);
  }

  lemma MatchedStep(s: State, e: Event, order: seq<ConnectId>)
    requires AllMatched(s) && (e.Connected? ==> e.matchKey in s.endpoints)
    ensures AllMatched(Step(s, e, order))
  {
    match e
    case Connected(c, m) => assert AllMatched(Admit(s, c, m));
    case _ =>
  }

  /** With fresh match keys the only endpoint left open for a contact is the registered connection's. */
  lemma {:induction false} FreshMatchesSuffice(s: State, es: seq<(Event, seq<ConnectId>)>, c: Contact)
    requires OneOpen(s) && AllMatched(s) && FreshMatches(s, es)
    ensures var r := Run(s, es); LeftOpen(r, c) <= Registered(r, c) && |LeftOpen(r, c)| <= 1
    decreases |es|
  {
    if es != [] {
      forall x ensures OpenAt(Step(s, es[0].0, es[0].1), x) { OpenStep(s, es[0].0, es[0].1, x); }
      MatchedStep(s, es[0].0, es[0].1);
      FreshMatchesSuffice(Step(s, es[0].0, es[0].1), es[1..], c);
    } else {
      assert OpenAt(s, c);
      AtMostOne(LeftOpen(s, c), if c in s.connections then s.connections[c].endpoint else None);
    }
  }

  lemma AtMostOne(xs: set<Endpoint>, e: Option<Endpoint>)
    requires xs <= AsSet(e)
    ensures |xs| <= 1
  {
    if xs != {} { assert xs == {e.value}; }
  }

  lemma Begins()
    ensures Waiting(INITIAL) && BlockedAreOut(INITIAL) && OneOpen(INITIAL) && AllMatched(INITIAL)
    ensures forall c :: OnlyRegistered(INITIAL, c)
  {
  }

  // ---------------------------------------------------------------------------------------------
  // Exactly when an endpoint is left open that nobody will close
  // ---------------------------------------------------------------------------------------------

  /** Match keys may repeat: only the registered connection's endpoint is open, whatever its match has now. */
  predicate OnlyRegistered(s: State, c: Contact) { LeftOpen(s, c) <= Registered(s, c) }

  /** The failing branch of handleConnected: the contact is not blocked, its registered connection has this very
   *  match key and is open, and the match has a different endpoint by now, or none. */
  predicate Leaks(s: State, c: Contact, m: MatchKey) {
    c !in s.blocked && c in s.connections && s.connections[c].matchKey == m && LeftOpen(s, c) != {} &&
    EndpointOf(s, m) != s.connections[c].endpoint
  }

  predicate EventLeaks(s: State, e: Event, order: seq<ConnectId>, c: Contact) {
    e.Connected? && e.contact == c && Order(s, c, order) && Leaks(s, c, e.matchKey)
  }

  /** What an admission leaves open. */
  lemma LeftAfterAdmit(s: State, c: Contact, m: MatchKey)
    ensures LeftOpen(Admit(s, c, m), c) == (LeftOpen(s, c) + (AsSet(EndpointOf(s, m)) - s.closed)) - Closes(s, c, m)
    ensures forall x :: x != c ==> LeftOpen(Admit(s, c, m), x) <= LeftOpen(s, x)
  {
    var v := Admit(s, c, m);
    assert ReachedBy(v, c) == ReachedBy(s, c) + AsSet(EndpointOf(s, m));
    assert forall x :: x != c ==> ReachedBy(v, x) == ReachedBy(s, x);
  }

  lemma AdmitLeaksIff(s: State, c: Contact, m: MatchKey)
    requires OnlyRegistered(s, c)
    ensures OnlyRegistered(Admit(s, c, m), c) <==> !Leaks(s, c, m)
  {
    LeftAfterAdmit(s, c, m);
    if Leaks(s, c, m) {
      var a :| a in LeftOpen(s, c);
      assert a in LeftOpen(Admit(s, c, m), c) && a !in Registered(Admit(s, c, m), c);
    }
  }

  /** States that differ in waiters, timers and what is up. */
  lemma SameLeft(s: State, v: State, c: Contact)
    requires v.reached == s.reached && v.closed == s.closed && Registered(v, c) == Registered(s, c)
    ensures LeftOpen(v, c) == LeftOpen(s, c) && (OnlyRegistered(v, c) <==> OnlyRegistered(s, c))
  {
    assert ReachedBy(v, c) == ReachedBy(s, c);
  }

  lemma ConnectedLeaksIff(s: State, x: Contact, m: MatchKey, order: seq<ConnectId>, c: Contact)
    requires OnlyRegistered(s, c)
    ensures OnlyRegistered(OnConnected(s, x, m, order), c) <==> !(x == c && Leaks(s, c, m))
  {
    SameLeft(Admit(s, x, m), OnConnected(s, x, m, order), c);
    if x == c { AdmitLeaksIff(s, c, m); } else { LeftAfterAdmit(s, x, m); }
  }

  lemma BlockingLeaksNothing(s: State, keys: set<Contact>, c: Contact)
    requires OnlyRegistered(s, c)
    ensures OnlyRegistered(OnSetBlocked(s, keys), c)
  {
    var v := OnSetBlocked(s, keys);
    assert ReachedBy(v, c) == ReachedBy(s, c);
    if c in s.connections && c in keys { assert Registered(s, c) <= EndpointsOf(s, keys); }
  }

  /** One step leaves an endpoint of the contact open beside the registered one exactly when it enters the
   *  failing branch. */
  lemma StepLeaksIff(s: State, e: Event, order: seq<ConnectId>, c: Contact)
    requires OnlyRegistered(s, c)
    ensures OnlyRegistered(Step(s, e, order), c) <==> !EventLeaks(s, e, order, c)
  {
    match e
    case Connected(x, m) =>
      if Order(s, x, order) { ConnectedLeaksIff(s, x, m, order, c); }
    case SetBlocked(keys) => BlockingLeaksNothing(s, keys, c);
    case _ => SameLeft(s, Step(s, e, order), c);
  }

  ghost predicate AlwaysRegistered(s: State, es: seq<(Event, seq<ConnectId>)>, c: Contact)
    decreases |es|
  {
    OnlyRegistered(s, c) && (es != [] ==> AlwaysRegistered(Step(s, es[0].0, es[0].1), es[1..], c))
  }

  ghost predicate NeverLeaks(s: State, es: seq<(Event, seq<ConnectId>)>, c: Contact)
    decreases |es|
  {
    es != [] ==> !EventLeaks(s, es[0].0, es[0].1, c) && NeverLeaks(Step(s, es[0].0, es[0].1), es[1..], c)
  }

  /** In every run, repeated match keys included: always is the registered endpoint of the contact the only one
   *  left open if and only if the failing branch is never entered. */
  lemma {:induction false} OnlyRegisteredOpenIff(s: State, es: seq<(Event, seq<ConnectId>)>, c: Contact)
    requires OnlyRegistered(s, c)
    ensures AlwaysRegistered(s, es, c) <==> NeverLeaks(s, es, c)
    ensures NeverLeaks(s, es, c) ==> OnlyRegistered(Run(s, es), c)
    decreases |es|
  {
    if es == [] {
    } else {
      var v := Step(s, es[0].0, es[0].1);
      StepLeaksIff(s, es[0].0, es[0].1, c);
      if OnlyRegistered(v, c) { OnlyRegisteredOpenIff(v, es[1..], c); }
    }
  }

  // ---------------------------------------------------------------------------------------------
  // Exactly when two are left open
  // ---------------------------------------------------------------------------------------------

  lemma AtLeastTwo(xs: set<Endpoint>, a: Endpoint, b: Endpoint)
    requires a in xs && b in xs && a != b
    ensures |xs| > 1
  {
    assert {a, b} <= xs;
    SubsetSize({a, b}, xs);
  }

  lemma OneRegistered(s: State, c: Contact)
    requires OnlyRegistered(s, c)
    ensures |LeftOpen(s, c)| <= 1
  {
    AtMostOne(LeftOpen(s, c), if c in s.connections then s.connections[c].endpoint else None);
  }

  /** The failing branch leaves two endpoints open at once exactly if the new one is open. */
  lemma DoublesIff(s: State, c: Contact, m: MatchKey)
    requires OnlyRegistered(s, c)
    ensures |LeftOpen(Admit(s, c, m), c)| > 1 <==> Leaks(s, c, m) && AsSet(EndpointOf(s, m)) - s.closed != {}
  {
    LeftAfterAdmit(s, c, m);
    AdmitLeaksIff(s, c, m);
    var v := Admit(s, c, m);
    if OnlyRegistered(v, c) {
      OneRegistered(v, c);
    } else {
      var a :| a in LeftOpen(s, c);
      if AsSet(EndpointOf(s, m)) - s.closed != {} {
        AtLeastTwo(LeftOpen(v, c), a, EndpointOf(s, m).value);
      } else {
        AtMostOne(LeftOpen(v, c), s.connections[c].endpoint);
      }
    }
  }

  /** handleConnected is entered for matches with an endpoint that we did not close. */
  predicate LiveMatches(s: State, es: seq<(Event, seq<ConnectId>)>, c: Contact)
    decreases |es|
  {
    es != [] ==>
      (es[0].0.Connected? && es[0].0.contact == c ==> AsSet(EndpointOf(s, es[0].0.matchKey)) - s.closed != {}) &&
      LiveMatches(Step(s, es[0].0, es[0].1), es[1..], c)
  }

  ghost predicate NeverTwo(s: State, es: seq<(Event, seq<ConnectId>)>, c: Contact)
    decreases |es|
  {
    |LeftOpen(s, c)| <= 1 && (es != [] ==> NeverTwo(Step(s, es[0].0, es[0].1), es[1..], c))
  }

  /** In every such run: never are two endpoints of the contact left open if and only if the failing branch is
   *  never entered. */
  lemma {:induction false} AtMostOneOpenIff(s: State, es: seq<(Event, seq<ConnectId>)>, c: Contact)
    requires OnlyRegistered(s, c) && LiveMatches(s, es, c)
    ensures NeverTwo(s, es, c) <==> NeverLeaks(s, es, c)
    decreases |es|
  {
    OneRegistered(s, c);
    if es == [] {
    } else {
      var e, order := es[0].0, es[0].1;
      var v := Step(s, e, order);
      StepLeaksIff(s, e, order, c);
      if EventLeaks(s, e, order, c) {
        DoublesIff(s, c, e.matchKey);
        SameLeft(Admit(s, c, e.matchKey), v, c);
        assert !NeverTwo(v, es[1..], c);
      } else {
        AtMostOneOpenIff(v, es[1..], c);
      }
    }
  }

  lemma ListingOf(ids: set<ConnectId>) returns (order: seq<ConnectId>)
    ensures multiset(order) == multiset(ids)
    decreases ids
  {
    order := [];
    if ids != {} {
      var id :| id in ids;
      var rest := ListingOf(ids - {id});
      assert ids == (ids - {id}) + {id};
      order := rest + [id];
    }
  }

  /** There is always another endpoint. */
  lemma Another(xs: set<Endpoint>) returns (b: Endpoint)
    ensures forall x :: x in xs ==> x < b
    decreases xs
  {
    b := 0;
    if xs != {} {
      var x :| x in xs;
      b := Another(xs - {x});
      if b <= x { b := x + 1; }
      assert forall y :: y in xs ==> y == x || y in xs - {x};
    }
  }

  ghost predicate DoublesAfter(s: State, es: seq<(Event, seq<ConnectId>)>, c: Contact) {
    NeverLeaks(s, es, c) && |LeftOpen(Run(s, es), c)| > 1
  }

  ghost predicate CanDouble(s: State, c: Contact) { exists es :: DoublesAfter(s, es, c) }

  lemma DoubleBefore(s: State, e: Event, order: seq<ConnectId>, c: Contact)
    requires !EventLeaks(s, e, order, c) && CanDouble(Step(s, e, order), c)
    ensures CanDouble(s, c)
  {
    var v := Step(s, e, order);
    var es :| DoublesAfter(v, es, c);
    var all := [(e, order)] + es;
    assert all[0] == (e, order) && all[1..] == es;
    assert DoublesAfter(s, all, c);
  }

  lemma DoubleNow(s: State, c: Contact)
    requires |LeftOpen(s, c)| > 1
    ensures CanDouble(s, c)
  {
    assert DoublesAfter(s, [], c);
  }

  /** An endpoint that is not the registered one stays open beside the next connection's. */
  lemma StrayMeets(s: State, c: Contact, n: MatchKey, a: Endpoint, b: Endpoint)
    requires a in LeftOpen(s, c) && a !in Registered(s, c) && b !in s.closed && a != b && b !in Registered(s, c)
    requires EndpointOf(s, n) == Some(b) && c !in s.blocked
    requires c in s.connections ==> s.connections[c].matchKey != n && !s.connections[c].up
    ensures CanDouble(s, c)
  {
    var order := ListingOf(WaitersOf(s, c));
    var v := Step(s, Connected(c, n), order);
    LeftAfterAdmit(s, c, n);
    SameLeft(Admit(s, c, n), v, c);
    AtLeastTwo(LeftOpen(v, c), a, b);
    DoubleNow(v, c);
    DoubleBefore(s, Connected(c, n), order, c);
  }

  lemma StrayMatched(s: State, c: Contact, a: Endpoint)
    requires a in LeftOpen(s, c) && a !in Registered(s, c) && c !in s.blocked
    requires c in s.connections ==> !s.connections[c].up
    ensures CanDouble(s, c)
  {
    var b := Another(s.closed + {a} + Registered(s, c));
    var n := if c in s.connections then s.connections[c].matchKey + 1 else 0;
    var v := Step(s, Matched(n, b, c), []);
    SameLeft(s, v, c);
    StrayMeets(v, c, n, a, b);
    DoubleBefore(s, Matched(n, b, c), [], c);
  }

  lemma StrayDown(s: State, c: Contact, a: Endpoint)
    requires a in LeftOpen(s, c) && a !in Registered(s, c) && c !in s.blocked
    ensures CanDouble(s, c)
  {
    if IsUp(s, c) {
      var m := s.connections[c].matchKey;
      var t := Step(s, Matched(m, a, c), []);
      var v := Step(t, EndpointState(m, false), []);
      SameLeft(s, t, c);
      SameLeft(t, v, c);
      StrayMatched(v, c, a);
      DoubleBefore(t, EndpointState(m, false), [], c);
      DoubleBefore(s, Matched(m, a, c), [], c);
    } else {
      StrayMatched(s, c, a);
    }
  }

  lemma StrayDoubles(s: State, c: Contact, a: Endpoint)
    requires a in LeftOpen(s, c) && a !in Registered(s, c)
    ensures CanDouble(s, c)
  {
    var v := Step(s, SetBlocked({}), []);
    assert s.closed + EndpointsOf(s, {}) == s.closed && s.connections - {} == s.connections;
    SameLeft(s, v, c);
    StrayDown(v, c, a);
    DoubleBefore(s, SetBlocked({}), [], c);
  }

  /** Without entering the failing branch, two endpoints of the contact can be left open some day if and only if
   *  one is open already that is not the registered one. */
  lemma CanDoubleIff(s: State, c: Contact)
    ensures CanDouble(s, c) <==> !OnlyRegistered(s, c)
  {
    if OnlyRegistered(s, c) {
      forall es | NeverLeaks(s, es, c) ensures !DoublesAfter(s, es, c) {
        OnlyRegisteredOpenIff(s, es, c);
        OneRegistered(Run(s, es), c);
      }
    } else {
      var a :| a in LeftOpen(s, c) && a !in Registered(s, c);
      StrayDoubles(s, c, a);
    }
  }

  /** A board that repeats a match key for a second endpoint gets both left open: the first connection is
   *  taken for the same one and not closed. */
  lemma RepeatedMatchLeavesTwo(c: Contact, m: MatchKey, a: Endpoint, b: Endpoint)
    requires a != b
    ensures var s := Step(Step(INITIAL, Matched(m, a, c), []), Connected(c, m), []);
            var r := Step(Step(s, Matched(m, b, c), []), Connected(c, m), []);
            LeftOpen(r, c) == {a, b}
  {
    var s1 := Step(INITIAL, Matched(m, a, c), []);
    assert Order(s1, c, []);
    var s2 := Step(s1, Connected(c, m), []);
    assert ReachedBy(s2, c) == {a} && s2.closed == {};
    var s3 := Step(s2, Matched(m, b, c), []);
    assert Order(s3, c, []);
    var s4 := Step(s3, Connected(c, m), []);
    assert ReachedBy(s4, c) == {a} + {b} && s4.closed == {};
  }

  // ---------------------------------------------------------------------------------------------
  // Exactly when a contact is connected, and a connect promise is pending or settled
  // ---------------------------------------------------------------------------------------------

  /** The event brings the contact up: it is not blocked, and has no live connection of another match. */
  ghost predicate BringsUp(s: State, e: Event, order: seq<ConnectId>, c: Contact) {
    e.Connected? && e.contact == c && Order(s, c, order) && c !in s.blocked && (IsUp(s, c) ==> s.connections[c].matchKey == e.matchKey)
  }

  /** The contact's registered match goes down, or the contact is blocked. */
  predicate TakesDown(s: State, e: Event, c: Contact) {
    (e.EndpointState? && !e.up && c in s.connections && s.connections[c].matchKey == e.matchKey &&
     e.matchKey in s.counterparty && s.counterparty[e.matchKey] == c) ||
    (e.SetBlocked? && c in e.keys)
  }

  /** A contact is connected after an event if and only if the event brings it up, or it was and the event does not
   *  take it down; then its registered connection is the one it came up with. */
  lemma UpIff(s: State, e: Event, order: seq<ConnectId>, c: Contact)
    ensures IsUp(Step(s, e, order), c) <==> BringsUp(s, e, order, c) || (IsUp(s, c) && !TakesDown(s, e, c))
    ensures BringsUp(s, e, order, c) ==> Step(s, e, order).connections[c] == Conn(e.matchKey, EndpointOf(s, e.matchKey), true)
    ensures IsUp(Step(s, e, order), c) && !BringsUp(s, e, order, c) ==> Step(s, e, order).connections[c] == s.connections[c]
  {
    match e
    case Connected(x, m) => if Order(s, x, order) { ConnectedUpIff(s, x, m, order, c); }
    case EndpointState(m, up) => DownIff(s, m, up, order, c);
    case SetBlocked(keys) => BlockedUp(s, keys, order, c);
    case _ =>
  }

  lemma ConnectedUpIff(s: State, x: Contact, m: MatchKey, order: seq<ConnectId>, c: Contact)
    requires Order(s, x, order)
    ensures var e, v := Connected(x, m), OnConnected(s, x, m, order);
            (IsUp(v, c) <==> BringsUp(s, e, order, c) || IsUp(s, c)) &&
            (BringsUp(s, e, order, c) ==> v.connections[c] == Conn(m, EndpointOf(s, m), true)) &&
            (IsUp(v, c) && !BringsUp(s, e, order, c) ==> v.connections[c] == s.connections[c])
  {
    ConnectedUp(s, x, m, order);
    assert Admitted(s, x, m) <==> BringsUp(s, Connected(x, m), order, x);
  }

  lemma DownIff(s: State, m: MatchKey, up: bool, order: seq<ConnectId>, c: Contact)
    ensures var e, v := EndpointState(m, up), OnEndpointState(s, m, up);
            (IsUp(v, c) <==> IsUp(s, c) && !TakesDown(s, e, c)) && (IsUp(v, c) ==> v.connections[c] == s.connections[c])
  {
  }

  lemma BlockedUp(s: State, keys: set<Contact>, order: seq<ConnectId>, c: Contact)
    ensures var v := OnSetBlocked(s, keys);
            (IsUp(v, c) <==> IsUp(s, c) && c !in keys) && (IsUp(v, c) ==> v.connections[c] == s.connections[c])
  {
  }

  lemma ConnectedUp(s: State, x: Contact, m: MatchKey, order: seq<ConnectId>)
    ensures OnConnected(s, x, m, order).connections == Admit(s, x, m).connections
    ensures OnConnected(s, x, m, order).timers == if Admitted(s, x, m) then Resolve(s, x, order).timers else s.timers
    ensures OnConnected(s, x, m, order).pending == if Admitted(s, x, m) then Resolve(s, x, order).pending else s.pending
    ensures OnConnected(s, x, m, order).settled == if Admitted(s, x, m) then Resolve(s, x, order).settled else s.settled
  {
  }

  /** The contact's pending connect is rejected by its timer, or resolved by the contact coming up. */
  ghost predicate Settles(s: State, e: Event, order: seq<ConnectId>, c: Contact) {
    c in s.pending && (e == TimedOut(s.pending[c]) || BringsUp(s, e, order, c))
  }

  /** A connect promise is pending after an event if and only if it was and the event does not settle it, or the
   *  event asks for a connection of a contact that is not connected; only then a new promise is made. */
  lemma PendingIff(s: State, e: Event, order: seq<ConnectId>, c: Contact)
    requires Waiting(s)
    ensures c in Step(s, e, order).pending <==> (c in s.pending && !Settles(s, e, order, c)) || (e == Ensure(c) && !IsUp(s, c))
    ensures c in Step(s, e, order).pending ==> Step(s, e, order).pending[c] == if c in s.pending then s.pending[c] else s.next
    ensures Step(s, e, order).next == s.next + if e.Ensure? && e.contact !in s.pending && !IsUp(s, e.contact) then 1 else 0
  {
    match e
    case Connected(x, m) => if Order(s, x, order) { ConnectedPending(s, x, m, order, c); }
    case TimedOut(id) => TimeoutPending(s, id, order, c);
    case _ =>
  }

  lemma ConnectedPending(s: State, x: Contact, m: MatchKey, order: seq<ConnectId>, c: Contact)
    requires Waiting(s) && Order(s, x, order)
    ensures var e, v := Connected(x, m), OnConnected(s, x, m, order);
            (c in v.pending <==> c in s.pending && !Settles(s, e, order, c)) && (c in v.pending ==> v.pending[c] == s.pending[c]) &&
            v.next == s.next
  {
    ConnectedUp(s, x, m, order);
    ResolvedOrder(s, x, order);
  }

  lemma TimeoutPending(s: State, id: ConnectId, order: seq<ConnectId>, c: Contact)
    requires Waiting(s)
    ensures var e, v := TimedOut(id), OnTimeout(s, id);
            (c in v.pending <==> c in s.pending && !Settles(s, e, order, c)) && (c in v.pending ==> v.pending[c] == s.pending[c])
  {
    if id in s.timers { assert s.pending[s.timers[id]] == id; }
  }

  lemma ResolvedOrder(s: State, c: Contact, order: seq<ConnectId>)
    requires Waiting(s) && Order(s, c, order)
    ensures order == if c in s.pending then [s.pending[c]] else []
    ensures c in s.pending ==> c in s.waiters
  {
    OrderOfOne(order, WaitersOf(s, c));
  }

  lemma ConnectedSettles(s: State, x: Contact, m: MatchKey, order: seq<ConnectId>)
    requires Waiting(s) && Order(s, x, order)
    ensures OnConnected(s, x, m, order).settled ==
            s.settled + if x in s.pending && BringsUp(s, Connected(x, m), order, x) then [s.pending[x]] else []
  {
    ConnectedUp(s, x, m, order);
    ResolvedOrder(s, x, order);
    assert Admitted(s, x, m) <==> BringsUp(s, Connected(x, m), order, x);
    assert s.settled + [] == s.settled;
  }

  /** What an event settles: exactly the pending promise of the contact that it concerns. */
  lemma SettledExactly(s: State, e: Event, order: seq<ConnectId>, c: Contact)
    requires Waiting(s)
    ensures Settles(s, e, order, c) ==> Step(s, e, order).settled == s.settled + [s.pending[c]]
    ensures (forall x :: !Settles(s, e, order, x)) ==> Step(s, e, order).settled == s.settled
  {
    match e
    case Connected(x, m) =>
      if Order(s, x, order) {
        ConnectedSettles(s, x, m, order);
        assert s.settled + [] == s.settled;
        if x in s.pending && BringsUp(s, e, order, x) { assert Settles(s, e, order, x); }
      }
    case TimedOut(id) => TimeoutSettles(s, id, order, c);
    case _ =>
  }

  lemma TimeoutSettles(s: State, id: ConnectId, order: seq<ConnectId>, c: Contact)
    requires Waiting(s)
    ensures Settles(s, TimedOut(id), order, c) ==> OnTimeout(s, id).settled == s.settled + [s.pending[c]]
    ensures (forall x :: !Settles(s, TimedOut(id), order, x)) ==> OnTimeout(s, id).settled == s.settled
  {
    if id in s.timers {
      assert s.pending[s.timers[id]] == id;
      assert Settles(s, TimedOut(id), order, s.timers[id]);
    }
  }

  /** Part of the way through blocking: the keys dropped so far. */
  function Dropped(s: State, keys: set<Contact>, done: set<Contact>): State {
    OnSetBlocked(s, done).(blocked := keys)
  }

  lemma ResolveMore(s: State, c: Contact, order: seq<ConnectId>, id: ConnectId)
    requires c in s.waiters
    ensures var r := Resolve(s, c, order);
            Resolve(s, c, order + [id]) ==
            r.(timers := r.timers - {id}, pending := r.pending - {c}, settled := r.settled + [id])
  {
    assert Ids(order + [id]) == Ids(order) + {id};
    assert s.timers - Ids(order + [id]) == s.timers - Ids(order) - {id};
    assert s.settled + (order + [id]) == s.settled + order + [id];
  }

  lemma DropMore(s: State, keys: set<Contact>, done: set<Contact>, c: Contact)
    ensures Drop(Dropped(s, keys, done), c) == Dropped(s, keys, done + {c})
  {
    if c in s.connections && c !in done {
      assert EndpointsOf(s, done + {c}) == EndpointsOf(s, done) + AsSet(s.connections[c].endpoint);
    } else {
      assert EndpointsOf(s, done + {c}) == EndpointsOf(s, done);
    }
    assert s.connections - (done + {c}) == s.connections - done - {c};
  }

  // ---------------------------------------------------------------------------------------------
  // The object
  // ---------------------------------------------------------------------------------------------

  class ConnectionManager {
    var connections: map<Contact, Conn>
    var endpointsByMatch: map<MatchKey, Endpoint>
    var matchToCounterparty: map<MatchKey, Contact>
    var connectWaiters: map<Contact, set<ConnectId>>
    var pendingConnects: map<Contact, ConnectId>
    var timers: map<ConnectId, Contact>
    var next: ConnectId
    var blockedKeys: set<Contact>
    ghost var settled: seq<ConnectId>
    ghost var closed: set<Endpoint>
    ghost var reached: map<Contact, set<Endpoint>>

    ghost function View(): State
      reads this
    {
      State(connections, endpointsByMatch, matchToCounterparty, connectWaiters, pendingConnects, timers, next,
            blockedKeys, settled, closed, reached)
    }

    constructor ()
      ensures View() == INITIAL
    {
      connections, endpointsByMatch, matchToCounterparty, connectWaiters, pendingConnects := map[], map[], map[], map[], map[];
      timers, next, blockedKeys, settled, closed, reached := map[], 0, {}, [], {}, map[];
    }

    method EnsureConnection(contact: Contact) returns (connected: bool, promise: ConnectId)
      modifies this
      ensures View() == Step(old(View()), Ensure(contact), [])
      ensures connected == IsUp(old(View()), contact)
      ensures !connected ==> contact in pendingConnects && promise == pendingConnects[contact]
    {
      connected, promise := false, 0;
      if contact in connections && connections[contact].up {
        connected := true;
        return;
      }
      if contact in pendingConnects {
        promise := pendingConnects[contact];
        return;
      }
      promise := next;
      next := next + 1;
      timers := timers[promise := contact];
      var set' := if contact in connectWaiters then connectWaiters[contact] else {};
      connectWaiters := connectWaiters[contact := set' + {promise}];
      pendingConnects := pendingConnects[contact := promise];
    }

    /** The connect timer's callback. */
    method ConnectTimeout(id: ConnectId)
      requires id in timers
      modifies this
      ensures View() == Step(old(View()), TimedOut(id), [])
    {
      var contact := timers[id];
      timers := timers - {id};
      var set' := if contact in connectWaiters then connectWaiters[contact] else {};
      connectWaiters := connectWaiters[contact := set' - {id}];
      pendingConnects := pendingConnects - {contact};
      settled := settled + [id];
    }

    /** A waiter: its timer is cleared, the pending connect forgotten, the promise resolved. */
    method CallWaiter(contact: Contact, id: ConnectId)
      modifies this`timers, this`pendingConnects, this`settled
      ensures timers == old(timers) - {id} && pendingConnects == old(pendingConnects) - {contact} && settled == old(settled) + [id]
    {
      timers := timers - {id};
      pendingConnects := pendingConnects - {contact};
      settled := settled + [id];
    }

    /** Calls every waiter of the contact. */
    method ResolveConnectWaiters(contact: Contact) returns (order: seq<ConnectId>)
      modifies this
      ensures Order(old(View()), contact, order)
      ensures View() == Resolve(old(View()), contact, order)
    {
      order := [];
      if contact !in connectWaiters { return; }
      var todo := connectWaiters[contact];
      ghost var all := todo;
      connectWaiters := connectWaiters - {contact};
      assert old(settled) + [] == old(settled) && old(timers) - {} == old(timers);
      while todo != {}
        invariant todo <= all && multiset(order) + multiset(todo) == multiset(all)
        invariant View() == Resolve(old(View()), contact, order)
        decreases todo
      {
        var id :| id in todo;
        todo := todo - {id};
        CallWaiter(contact, id);
        ResolveMore(old(View()), contact, order, id);
        order := order + [id];
      }
    }

    method HandleConnected(contact: Contact, matchKey: MatchKey) returns (order: seq<ConnectId>)
      modifies this
      ensures Admitted(old(View()), contact, matchKey) ==> Order(old(View()), contact, order)
      ensures View() == OnConnected(old(View()), contact, matchKey, order)
    {
      order := [];
      var endpoint := if matchKey in endpointsByMatch then Some(endpointsByMatch[matchKey]) else None;
      reached := reached[contact := ReachedBy(View(), contact) + AsSet(endpoint)];
      if contact in blockedKeys {
        closed := closed + AsSet(endpoint);
        return;
      }
      if contact in connections && connections[contact].matchKey != matchKey {
        if connections[contact].up {
          closed := closed + AsSet(endpoint);
          return;
        }
        closed := closed + AsSet(connections[contact].endpoint);
      }
      connections := connections[contact := Conn(matchKey, endpoint, true)];
      order := ResolveConnectWaiters(contact);
    }

    method HandleEndpointState(matchKey: MatchKey, up: bool)
      modifies this
      ensures View() == Step(old(View()), EndpointState(matchKey, up), [])
    {
      if matchKey !in matchToCounterparty { return; }
      var contact := matchToCounterparty[matchKey];
      if contact !in connections || connections[contact].matchKey != matchKey { return; }
      if !up { connections := connections[contact := connections[contact].(up := false)]; }
    }

    method DropConnection(contact: Contact)
      modifies this`connections, this`closed
      ensures View() == Drop(old(View()), contact)
    {
      if contact !in connections { return; }
      closed := closed + AsSet(connections[contact].endpoint);
      connections := connections - {contact};
    }

    method SetBlockedKeys(keys: set<Contact>)
      modifies this
      ensures View() == Step(old(View()), SetBlocked(keys), [])
    {
      blockedKeys := keys;
      var todo := keys;
      ghost var done := {};
      while todo != {}
        invariant done + todo == keys && View() == Dropped(old(View()), keys, done)
        decreases todo
      {
        var key :| key in todo;
        DropMore(old(View()), keys, done, key);
        DropConnection(key);
        todo, done := todo - {key}, done + {key};
      }
      assert done == keys;
    }
  }
}
