/** The deterministic clock of orp-ref/core/clock.ts.
 *
 *  A callback is the list of timers it arms and clears. Which callback belongs to which timer is a function
 *  of the timer's id, so it covers callbacks that behave differently from run to run.
 */
module FakeClocks {
  import opened Common

  type TimerId = nat

  datatype Action = Arm(delay: nat) | Clear(id: TimerId)

  /** Arms only timers that are not due at once; otherwise advancing need not end. */
  predicate Patient(actions: seq<Action>) {
    forall i :: 0 <= i < |actions| && actions[i].Arm? ==> actions[i].delay >= 1
  }

  datatype Firing = Firing(at: nat, id: TimerId)

  predicate Before(a: Firing, b: Firing) { a.at < b.at || (a.at == b.at && a.id < b.id) }

  predicate InOrder(fired: seq<Firing>) {
    forall i, j :: 0 <= i < j < |fired| ==> Before(fired[i], fired[j])
  }

  predicate Fired(fired: seq<Firing>, id: TimerId) { exists i :: 0 <= i < |fired| && fired[i].id == id }

  /** The timers due now. */
  function DueNow(timers: map<TimerId, nat>, clock: nat): set<TimerId> {
    set id | id in timers && timers[id] == clock
  }

  // ---------------------------------------------------------------------------------------------
  // What callbacks do
  // ---------------------------------------------------------------------------------------------

  /** The deadlines that a callback run at `at` sets, in order. */
  function Arms(at: nat, actions: seq<Action>): seq<nat> {
    if actions == [] then []
    else
      var last := actions[|actions| - 1];
      Arms(at, actions[..|actions| - 1]) + if last.Arm? then [at + last.delay] else []
  }

  /** The callback clears timer `x`, which exists by then; the callback's own timers are numbered from `first`. */
  predicate Strikes(actions: seq<Action>, first: TimerId, x: TimerId) {
    exists k :: 0 <= k < |actions| && actions[k] == Clear(x) && x < first + |Arms(0, actions[..k])|
  }

  /** The deadlines set by the callbacks of these firings, in order. */
  function Deadlines(fired: seq<Firing>, script: TimerId -> seq<Action>): seq<nat> {
    if fired == [] then []
    else
      var last := fired[|fired| - 1];
      Deadlines(fired[..|fired| - 1], script) + Arms(last.at, script(last.id))
  }

  lemma {:induction false} ArmsCount(a: nat, b: nat, actions: seq<Action>)
    ensures |Arms(a, actions)| == |Arms(b, actions)|
  {
    if actions == [] {
    } else {
      ArmsCount(a, b, actions[..|actions| - 1]);
    }
  }

  lemma {:induction false} ArmsPrefix(at: nat, actions: seq<Action>, k: nat)
    requires k <= |actions|
    ensures |Arms(at, actions[..k])| <= |Arms(at, actions)|
  {
    if k == |actions| {
      assert actions[..k] == actions;
    } else {
      ArmsPrefix(at, actions[..|actions| - 1], k);
      assert actions[..|actions| - 1][..k] == actions[..k];
    }
  }

  lemma ArmsMore(at: nat, actions: seq<Action>, k: nat)
    requires k < |actions|
    ensures Arms(at, actions[..k + 1]) == Arms(at, actions[..k]) + if actions[k].Arm? then [at + actions[k].delay] else []
  {
    assert actions[..k + 1][..k] == actions[..k];
  }

  lemma DeadlinesMore(fired: seq<Firing>, f: Firing, script: TimerId -> seq<Action>)
    ensures Deadlines(fired + [f], script) == Deadlines(fired, script) + Arms(f.at, script(f.id))
  {
    assert (fired + [f])[..|fired|] == fired;
  }

  /** A timer struck by the first `k` actions. */
  lemma StrikesMore(actions: seq<Action>, k: nat, first: TimerId, x: TimerId)
    requires k < |actions| && Strikes(actions[..k + 1], first, x)
    ensures Strikes(actions[..k], first, x) || (actions[k] == Clear(x) && x < first + |Arms(0, actions[..k])|)
  {
    var more := actions[..k + 1];
    var j :| 0 <= j < |more| && more[j] == Clear(x) && x < first + |Arms(0, more[..j])|;
    assert more[..j] == actions[..j];
    if j < k { assert actions[..k][j] == Clear(x) && actions[..k][..j] == actions[..j]; }
  }

  /** A clock's timers: the next id, what is armed now, and the history of what was armed and cleared. */
  datatype Table = Table(next: TimerId, timers: map<TimerId, nat>, armed: map<TimerId, nat>, cleared: set<TimerId>)

  predicate ActDone(t: Table, t': Table, clock: nat, action: Action) {
    match action
    case Arm(delay) =>
      t'.next == t.next + 1 && t'.timers == t.timers[t.next := clock + delay] && t'.armed == t.armed[t.next := clock + delay] &&
      t'.cleared == t.cleared
    case Clear(id) =>
      t'.next == t.next && t'.armed == t.armed && t'.timers == t.timers - {id} &&
      t'.cleared == t.cleared + if id in t.timers then {id} else {}
  }

  /** The timers numbered from `first` have these deadlines. */
  predicate SetFrom(armed: map<TimerId, nat>, first: TimerId, deadlines: seq<nat>) {
    forall id: TimerId :: first <= id < first + |deadlines| ==> id in armed && armed[id] == deadlines[id - first]
  }

  /** The actions have been done: their timers are set, in order, those they clear are gone, and nothing else is
   *  cleared or set. */
  ghost predicate Did(t: Table, t': Table, clock: nat, actions: seq<Action>) {
    var ds := Arms(clock, actions);
    t'.next == t.next + |ds| && SetFrom(t'.armed, t.next, ds) &&
    (forall x: TimerId :: Strikes(actions, t.next, x) ==> x < t'.next && x !in t'.timers) &&
    (forall x :: x in t'.cleared ==> x in t.cleared || Clear(x) in actions) &&
    (forall x :: x in t'.timers && x < t.next ==> x in t.timers)
  }

  lemma DidMore(t: Table, m: Table, t': Table, clock: nat, actions: seq<Action>, k: nat)
    requires k < |actions| && Did(t, m, clock, actions[..k]) && ActDone(m, t', clock, actions[k])
    requires forall x :: x in m.armed ==> x < m.next
    ensures Did(t, t', clock, actions[..k + 1])
  {
    var more := actions[..k + 1];
    assert more == actions[..k] + [actions[k]];
    ArmsMore(clock, actions, k);
    assert t'.next == t.next + |Arms(clock, more)|;
    assert SetFrom(t'.armed, t.next, Arms(clock, more));
    forall x: TimerId | Strikes(more, t.next, x) ensures x < t'.next && x !in t'.timers {
      StrikesMore(actions, k, t.next, x);
      ArmsCount(0, clock, actions[..k]);
    }
    forall x | x in t'.cleared ensures x in t.cleared || Clear(x) in more {
      if x !in m.cleared { assert more[k] == Clear(x); }
    }
  }

  /** Callback `i` of the firings clears timer `x`. */
  predicate Struck(t0: Table, fired: seq<Firing>, script: TimerId -> seq<Action>, i: nat, x: TimerId)
    requires i < |fired|
  {
    Strikes(script(fired[i].id), t0.next + |Deadlines(fired[..i], script)|, x)
  }

  predicate Clearing(fired: seq<Firing>, script: TimerId -> seq<Action>, x: TimerId) {
    exists i :: 0 <= i < |fired| && Clear(x) in script(fired[i].id)
  }

  /** Since `t0` each timer fired has had its callback run: the timers set are exactly theirs, in order, each at its
   *  firing plus its delay; a timer that one of them clears does not fire after it; and no other is cleared. */
  ghost predicate Followed(t0: Table, t: Table, fired: seq<Firing>, script: TimerId -> seq<Action>) {
    var ds := Deadlines(fired, script);
    t.next == t0.next + |ds| && SetFrom(t.armed, t0.next, ds) &&
    (forall i: nat, x: TimerId :: i < |fired| && Struck(t0, fired, script, i, x) ==>
       x < t.next && x !in t.timers && forall j :: i < j < |fired| ==> fired[j].id != x) &&
    (forall x :: x in t.cleared ==> x in t0.cleared || Clearing(fired, script, x))
  }

  lemma SetFromMore(armed: map<TimerId, nat>, first: TimerId, a: seq<nat>, b: seq<nat>)
    requires SetFrom(armed, first, a) && SetFrom(armed, first + |a|, b)
    ensures SetFrom(armed, first, a + b)
  {
  }

  lemma FollowedMore(t0: Table, t: Table, m: Table, t': Table, fired: seq<Firing>, f: Firing, script: TimerId -> seq<Action>)
    requires Followed(t0, t, fired, script) && f.id in t.timers && m == t.(timers := t.timers - {f.id})
    requires Did(m, t', f.at, script(f.id)) && forall x :: x in t.armed ==> x in t'.armed && t'.armed[x] == t.armed[x]
    ensures Followed(t0, t', fired + [f], script)
  {
    var more := fired + [f];
    DeadlinesMore(fired, f, script);
    SetFromMore(t'.armed, t0.next, Deadlines(fired, script), Arms(f.at, script(f.id)));
    assert more[..|fired|] == fired;
    forall i: nat, x: TimerId | i < |more| && Struck(t0, more, script, i, x)
      ensures x < t'.next && x !in t'.timers && forall j :: i < j < |more| ==> more[j].id != x
    {
      if i < |fired| {
        assert more[..i] == fired[..i];
        assert Struck(t0, fired, script, i, x);
      }
    }
    ClearingMore(t0, t, t', fired, f, script);
  }

  lemma ClearingMore(t0: Table, t: Table, t': Table, fired: seq<Firing>, f: Firing, script: TimerId -> seq<Action>)
    requires forall x :: x in t.cleared ==> x in t0.cleared || Clearing(fired, script, x)
    requires forall x :: x in t'.cleared ==> x in t.cleared || Clear(x) in script(f.id)
    ensures forall x :: x in t'.cleared ==> x in t0.cleared || Clearing(fired + [f], script, x)
  {
    var more := fired + [f];
    forall x | x in t'.cleared && x !in t0.cleared ensures Clearing(more, script, x) {
      if Clear(x) in script(f.id) {
        assert more[|fired|] == f;
      } else {
        var i :| 0 <= i < |fired| && Clear(x) in script(fired[i].id);
        assert more[i] == fired[i];
      }
    }
  }

  predicate Since(start: nat, before: seq<Firing>, fired: seq<Firing>, clock: nat) {
    before <= fired && forall i :: |before| <= i < |fired| ==> start <= fired[i].at <= clock
  }

  predicate Keeps(was: map<TimerId, nat>, now: map<TimerId, nat>) { forall id :: id in was ==> id in now && now[id] == was[id] }

  lemma SinceMore(start: nat, before: seq<Firing>, fired: seq<Firing>, clock: nat, f: Firing)
    requires Since(start, before, fired, clock) && start <= clock <= f.at
    ensures Since(start, before, fired + [f], f.at) && (fired + [f])[|before|..] == fired[|before|..] + [f]
  {
  }

  class FakeClock {
    var clock: nat
    var seqNo: TimerId
    var timers: map<TimerId, nat>
    /** Every deadline ever set, the timers cleared while armed, and those that fired, in order. */
    ghost var armed: map<TimerId, nat>
    ghost var cleared: set<TimerId>
    ghost var fired: seq<Firing>

    ghost predicate Valid()
      reads this
    {
      (forall id :: id in timers ==> timers[id] >= clock && id in armed && armed[id] == timers[id]) &&
      (forall id: TimerId :: id in armed <==> id < seqNo) && Past() && EachOnce()
    }

    /** Timers fired at their deadlines, in order, and before all that are still armed. */
    ghost predicate Past()
      reads this
    {
      InOrder(fired) &&
      (forall i :: 0 <= i < |fired| ==> fired[i].at <= clock && fired[i].id in armed && armed[fired[i].id] == fired[i].at) &&
      (forall i, id :: 0 <= i < |fired| && id in timers ==> Before(fired[i], Firing(timers[id], id)))
    }

    /** Every timer ever set is armed, was cleared, or fired. */
    ghost predicate EachOnce()
      reads this
    {
      (forall id :: id in armed ==> id in timers || id in cleared || Fired(fired, id)) &&
      (forall id :: id in cleared ==> id in armed && id !in timers && !Fired(fired, id)) &&
      (forall id :: id in timers ==> !Fired(fired, id))
    }

    constructor ()
      ensures Valid() && clock == 0 && timers == map[] && fired == []
    {
      clock, seqNo, timers, armed, cleared, fired := 0, 0, map[], map[], {}, [];
    }

    method SetTimer(delay: nat) returns (id: TimerId)
      requires Valid()
      modifies this`seqNo, this`timers, this`armed
      ensures Valid()
      ensures id == old(seqNo) && seqNo == id + 1
      ensures timers == old(timers)[id := clock + delay] && armed == old(armed)[id := clock + delay]
    {
      id := seqNo;
      seqNo := seqNo + 1;
      timers := timers[id := clock + delay];
      armed := armed[id := clock + delay];
    }

    method ClearTimer(id: TimerId)
      requires Valid()
      modifies this`timers, this`cleared
      ensures Valid() && timers == old(timers) - {id}
      ensures cleared == if id in old(timers) then old(cleared) + {id} else old(cleared)
    {
      if id in timers { cleared := cleared + {id}; }
      timers := timers - {id};
    }

    /** What a callback leaves of the timers: old ones unchanged or cleared, new ones not due yet. */
    twostate predicate Later()
      reads this
    {
      (forall id :: id in timers ==> (id in old(timers) && timers[id] == old(timers)[id]) || timers[id] > clock) &&
      (forall id :: id in old(armed) ==> id in armed && armed[id] == old(armed)[id]) &&
      (forall id :: id in old(cleared) ==> id in cleared)
    }

    ghost function View(): Table
      reads this
    {
      Table(seqNo, timers, armed, cleared)
    }

    method Callback(actions: seq<Action>)
      requires Valid() && Patient(actions)
      modifies this`seqNo, this`timers, this`armed, this`cleared
      ensures Valid() && Later()
      ensures Did(old(View()), View(), clock, actions)
    {
      for k := 0 to |actions|
        invariant Valid() && Later() && Did(old(View()), View(), clock, actions[..k])
      {
        ghost var t := View();
        Act(actions, k);
        DidMore(old(View()), t, View(), clock, actions, k);
      }
      assert actions[..|actions|] == actions;
    }

    /** One action of a callback. */
    method Act(actions: seq<Action>, k: nat)
      requires Valid() && Patient(actions) && k < |actions|
      modifies this`seqNo, this`timers, this`armed, this`cleared
      ensures Valid() && Later() && ActDone(old(View()), View(), clock, actions[k])
    {
      match actions[k] {
        case Arm(delay) => var id := SetTimer(delay);
        case Clear(id) => ClearTimer(id);
      }
    }

    /** The earliest timer due by `target`, the one set first among equals. */
    method Next(target: nat) returns (found: bool, id: TimerId)
      requires Valid()
      ensures found <==> exists t :: t in timers && timers[t] <= target
      ensures found ==> id in timers && timers[id] <= target
      ensures found ==> forall t :: t in timers && t != id ==> Before(Firing(timers[id], id), Firing(timers[t], t))
    {
      found, id := false, 0;
      for t := 0 to seqNo
        invariant found ==> id in timers && timers[id] <= target && id < t
        invariant !found ==> forall u :: u in timers && u < t ==> timers[u] > target
        invariant found ==> forall u :: u in timers && u < t && u != id ==> Before(Firing(timers[id], id), Firing(timers[u], u))
      {
        if t in timers && timers[t] <= target && (!found || timers[t] < timers[id]) {
          found, id := true, t;
        }
      }
    }

    /** Takes the next timer off and moves the clock to its deadline. */
    method Take(id: TimerId)
      requires Valid() && id in timers
      requires forall t :: t in timers && t != id ==> Before(Firing(timers[id], id), Firing(timers[t], t))
      modifies this`clock, this`timers, this`fired
      ensures Valid() && clock == old(timers)[id] && timers == old(timers) - {id}
      ensures fired == old(fired) + [Firing(clock, id)]
    {
      clock := timers[id];
      timers := timers - {id};
      FiredMore(fired, Firing(clock, id));
      fired := fired + [Firing(clock, id)];
    }

    /** On the way from `start` to `target`: what fired since, and what came of it. */
    ghost predicate Underway(start: nat, target: nat, before: seq<Firing>, t0: Table, script: TimerId -> seq<Action>)
      reads this
    {
      Valid() && start <= clock <= target && Since(start, before, fired, clock) && Keeps(t0.armed, armed) &&
      Followed(t0, View(), fired[|before|..], script)
    }

    /** Fires a timer. Fewer timers are due at the new time than were. */
    method Fire(id: TimerId, actions: seq<Action>)
      requires Valid() && id in timers && Patient(actions)
      requires forall t :: t in timers && t != id ==> Before(Firing(timers[id], id), Firing(timers[t], t))
      modifies this
      ensures Valid() && clock == old(timers)[id] && fired == old(fired) + [Firing(clock, id)]
      ensures Did(old(View()).(timers := old(timers) - {id}), View(), clock, actions)
      ensures Keeps(old(armed), armed)
      ensures |DueNow(timers, clock)| < |DueNow(old(timers), clock)|
    {
      ghost var was := timers;
      Take(id);
      Callback(actions);
      DueShrinks(was, timers, clock, id);
    }

    /** One round of advancing. */
    method FireNext(id: TimerId, script: TimerId -> seq<Action>, ghost start: nat, ghost target: nat, ghost before: seq<Firing>,
                    ghost t0: Table)
      requires Underway(start, target, before, t0, script) && id in timers && timers[id] <= target && Patient(script(id))
      requires forall t :: t in timers && t != id ==> Before(Firing(timers[id], id), Firing(timers[t], t))
      modifies this
      ensures Underway(start, target, before, t0, script)
      ensures clock == old(timers)[id] && fired == old(fired) + [Firing(clock, id)]
      ensures old(clock) <= clock && |DueNow(timers, clock)| < |DueNow(old(timers), clock)|
    {
      ghost var t, new' := View(), fired[|before|..];
      SinceMore(start, before, fired, clock, Firing(timers[id], id));
      Fire(id, script(id));
      FollowedMore(t0, t, t.(timers := t.timers - {id}), View(), new', Firing(clock, id), script);
    }

    /** Fires the next timer due by `target`, if there is one. */
    method Round(script: TimerId -> seq<Action>, ghost start: nat, target: nat, ghost before: seq<Firing>,
                 ghost t0: Table) returns (found: bool)
      requires Underway(start, target, before, t0, script) && forall id :: Patient(script(id))
      modifies this
      ensures Underway(start, target, before, t0, script)
      ensures found ==> clock > old(clock) || (clock == old(clock) && |DueNow(timers, clock)| < |DueNow(old(timers), old(clock))|)
      ensures !found ==> forall id :: id in timers ==> timers[id] > target
    {
      var id;
      found, id := Next(target);
      if found { FireNext(id, script, start, target, before, t0); }
    }

    method MoveTo(target: nat)
      requires Valid() && clock <= target && forall id :: id in timers ==> timers[id] > target
      modifies this`clock
      ensures Valid() && clock == target
    {
      clock := target;
    }

    /** Fires exactly the timers that come due by old(clock) + ms and are not cleared first, those armed on
     *  the way included, and runs the callback of each: by Valid, each fires once, in order of deadline and then
     *  id. */
    method Advance(ms: nat, script: TimerId -> seq<Action>)
      requires Valid() && forall id :: Patient(script(id))
      modifies this
      ensures Valid() && clock == old(clock) + ms
      ensures forall id :: id in timers ==> timers[id] > clock
      ensures old(fired) <= fired && forall i :: |old(fired)| <= i < |fired| ==> old(clock) <= fired[i].at <= clock
      ensures forall id :: id in old(armed) ==> id in armed && armed[id] == old(armed)[id]
      ensures Followed(old(View()), View(), fired[|old(fired)|..], script)
    {
      ghost var start, before, t0 := clock, fired, View();
      var target := clock + ms;
      FireAll(target, script, start, before, t0);
      MoveTo(target);
    }

    /** Round after round until nothing is due by `target`. */
    method FireAll(target: nat, script: TimerId -> seq<Action>, ghost start: nat, ghost before: seq<Firing>, ghost t0: Table)
      requires Underway(start, target, before, t0, script) && forall id :: Patient(script(id))
      modifies this
      ensures Underway(start, target, before, t0, script)
      ensures forall id :: id in timers ==> timers[id] > target
    {
      var more := true;
      while more
        invariant Underway(start, target, before, t0, script)
        invariant !more ==> forall id :: id in timers ==> timers[id] > target
        decreases more, target - clock, |DueNow(timers, clock)|
      {
        more := Round(script, start, target, before, t0);
      }
    }
  }

  lemma FiredMore(fired: seq<Firing>, f: Firing)
    ensures forall id :: Fired(fired, id) || id == f.id <==> Fired(fired + [f], id)
  {
    var more := fired + [f];
    assert more[|fired|] == f;
    forall id | Fired(fired, id) ensures Fired(more, id) {
      var i :| 0 <= i < |fired| && fired[i].id == id;
      assert more[i].id == id;
    }
  }

  /** Firing a timer due now leaves fewer due now, if nothing new is due at once. */
  lemma DueShrinks(was: map<TimerId, nat>, now: map<TimerId, nat>, clock: nat, id: TimerId)
    requires id in was && was[id] == clock && id !in now
    requires forall t :: t in now && now[t] == clock ==> t in was && was[t] == clock
    ensures |DueNow(now, clock)| < |DueNow(was, clock)|
  {
    var a, b := DueNow(now, clock), DueNow(was, clock);
    assert a <= b - {id} && id in b;
    SubsetSize(a, b - {id});
  }
}
