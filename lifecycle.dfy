/** Runs of commands: each command of a run goes to the handler of the
    state the record is in at that moment, as the forwarders of the order
    state module do, and what the whole lifecycle guarantees about them. */
module Lifecycle {
  import opened OrderState

  /** One command of a run, with what its handler reads and the caller's arguments. */
  datatype Invocation<V> = Invocation(action: Action, env: Env, call: Call<V>)

  /** The effect of one command sent to the handler of the record's current state. */
  function Step<V>(p: Snapshot, i: Invocation<V>): Effect<V> {
    Perform(p.state, i.action, p, i.env, i.call)
  }

  /** The record after a sequence of commands; a command that raises
      leaves the record as it was and the next one is still sent. */
  function Run<V>(p: Snapshot, steps: seq<Invocation<V>>): Snapshot
    decreases |steps|
  {
    if steps == [] then p else Run(Step(p, steps[0]).post, steps[1..])
  }

  /** How far along the lifecycle a state is: in_progress and
      ready_to_ship share a rank, since ship! may move an order back from
      the second to the first. */
  function Rank(s: State): nat {
    match s
    case Received => 0
    case Confirmed => 1
    case Released => 2
    case InProgress => 3
    case ReadyToShip => 3
    case Shipped => 4
    case Closed => 5
    case Cancelled => 5
  }

  /** The highest rank of a state some command of which writes the timestamp. */
  function LastWriter(f: Stamp): nat {
    match f
    case ConfirmedAt => 0
    case ReleasedAt => 1
    case StartedAt => 2
    case CompletedAt => 3
    case ClosedAt => 4
    case CancelledAt => 3
  }

  /** q is no earlier in the lifecycle than p, and every timestamp whose
      writers p has moved past is the same in q. */
  ghost predicate Settled(p: Snapshot, q: Snapshot) {
    && Rank(p.state) <= Rank(q.state)
    && forall f :: LastWriter(f) < Rank(p.state) ==> Get(q, f) == Get(p, f)
  }

  /** No command moves the record back in the lifecycle or rewrites a
      timestamp whose writers it has moved past. */
  lemma StepSettles<V>(p: Snapshot, i: Invocation<V>)
    ensures Settled(p, Step(p, i).post)
  {
  }

  /** Over any run, the record never moves back in the lifecycle, and a
      timestamp is never rewritten once the record has moved past every
      state that writes it: confirmed_at is fixed after received,
      released_at after confirmed, started_at after released, completed_at
      and cancelled_at from shipped on, closed_at once closed or cancelled. */
  lemma {:induction false} RunSettles<V>(p: Snapshot, steps: seq<Invocation<V>>)
    ensures Settled(p, Run(p, steps))
    decreases |steps|
  {
    if steps != [] {
      var q := Step(p, steps[0]).post;
      StepSettles(p, steps[0]);
      RunSettles(q, steps[1..]);
    }
  }

  /** Once an order has left received it never returns there, and its
      confirmed_at never changes again. */
  lemma NeverReceivedAgain<V>(p: Snapshot, steps: seq<Invocation<V>>)
    requires p.state != Received
    ensures Run(p, steps).state != Received
    ensures Run(p, steps).confirmedAt == p.confirmedAt
  {
    RunSettles(p, steps);
    assert Get(Run(p, steps), ConfirmedAt) == Get(p, ConfirmedAt);
  }

  /** closed and cancelled are final: every command raises there, so no run
      changes anything. */
  lemma {:induction false} TerminalAbsorbs<V>(p: Snapshot, steps: seq<Invocation<V>>)
    requires p.state == Closed || p.state == Cancelled
    ensures Run(p, steps) == p
    decreases |steps|
  {
    if steps != [] {
      assert Step(p, steps[0]).post == p;
      TerminalAbsorbs(p, steps[1..]);
    }
  }

  /** can_ship? and can_complete? read false at every command of the run. */
  ghost predicate GuardsOff<V>(steps: seq<Invocation<V>>) {
    forall k :: 0 <= k < |steps| ==> !steps[k].env.canShip && !steps[k].env.canComplete
  }

  /** While can_ship? and can_complete? stay false, a record that is not
      in ready_to_ship, shipped or closed never gets there: release!,
      start! and make_shippable! fall through to released, in_progress or
      no update, and only ready_to_ship's ship! could ship. So without the
      guards no order is ever shipped. */
  lemma {:induction false} GuardsOffNeverShips<V>(p: Snapshot, steps: seq<Invocation<V>>)
    requires GuardsOff(steps)
    requires p.state !in {ReadyToShip, Shipped, Closed}
    ensures Run(p, steps).state !in {ReadyToShip, Shipped, Closed}
    decreases |steps|
  {
    if steps != [] {
      var i := steps[0];
      assert !i.env.canShip && !i.env.canComplete;
      var q := Step(p, i).post;
      assert q.state !in {ReadyToShip, Shipped, Closed};
      assert GuardsOff(steps[1..]) by {
        forall k | 0 <= k < |steps[1..]|
          ensures !steps[1..][k].env.canShip && !steps[1..][k].env.canComplete
        {
          assert steps[1..][k] == steps[k + 1];
        }
      }
      GuardsOffNeverShips(q, steps[1..]);
    }
  }

  /** With can_ship? and can_complete? false throughout, confirm!,
      release!, start! and make_shippable! leave the order in in_progress
      (make_shippable! updates nothing), and ship! there raises. */
  lemma GuardsOffStallsInProgress(t1: int, t2: int, t3: int, t4: int, now: int)
    ensures var env := Env(true, false, false, false, now);
      var steps: seq<Invocation<()>> := [
        Invocation(Confirm, env, Call(Some(t1), None)),
        Invocation(Release, env, Call(Some(t2), None)),
        Invocation(Start, env, Call(Some(t3), None)),
        Invocation(MakeShippable, env, Call(Some(t4), None))];
      var q := Run(Initial(Received), steps);
      && q == Snapshot(InProgress, Some(t1), Some(t2), Some(t3), None, None, None)
      && Step<()>(q, Invocation(Ship, env, Call(None, None))) == Effect(Failed(StateError(Ship, InProgress)), q)
  {
    var env := Env(true, false, false, false, now);
    var steps: seq<Invocation<()>> := [
      Invocation(Confirm, env, Call(Some(t1), None)),
      Invocation(Release, env, Call(Some(t2), None)),
      Invocation(Start, env, Call(Some(t3), None)),
      Invocation(MakeShippable, env, Call(Some(t4), None))];
    var p0 := Initial(Received);
    var p1 := Step(p0, steps[0]).post;
    var p2 := Step(p1, steps[1]).post;
    var p3 := Step(p2, steps[2]).post;
    var p4 := Step(p3, steps[3]).post;
    assert Run(p4, steps[4..]) == p4;
    assert Run(p3, steps[3..]) == p4;
    assert Run(p2, steps[2..]) == p4;
    assert Run(p1, steps[1..]) == p4;
  }
}
