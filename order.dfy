/** The Order aggregate: a record that starts in received, whose three
    guard predicates are constantly true, whose delegating predicates ask
    the handler of its current state, and whose cancel! and close! pass
    the handler a block that cancels or consumes its production entries
    (an opaque side effect here, recorded only as the block having run,
    or as the exception it raised). */
module Orders {
  import S = OrderState
  import L = Lifecycle

  /** initialize: a new order is in received, with no timestamp set. */
  method NewOrder() returns (o: S.Stateful)
    ensures fresh(o)
    ensures o.View() == S.Initial(S.Received)
  {
    o := new S.Stateful(S.Received);
  }

  /** The guards an order's handlers consult: constantly true. */
  function CanConfirm(): bool { true }

  function CanComplete(): bool { true }

  function CanShip(): bool { true }

  /** What an order's handler reads: the three guards, which a reload
      cannot change since they are constants, and the clock. */
  function OrderEnv(now: int): (env: S.Env)
    ensures env.canConfirm && env.canComplete && env.canShip && env.reloadedCanComplete
    ensures env.now == now
  {
    S.Env(CanConfirm(), CanComplete(), CanShip(), CanComplete(), now)
  }

  /** active?: false exactly for closed and cancelled orders. */
  function IsActive(o: S.Stateful): (b: bool)
    reads o
    ensures b <==> o.state != S.Closed && o.state != S.Cancelled
  {
    S.Ask(o, S.IsActive)
  }

  /** can_add_item?: the handler's received?, so exactly in received. */
  function CanAddItem(o: S.Stateful): (b: bool)
    reads o
    ensures b <==> o.state == S.Received
  {
    S.Ask(o, S.IsReceived)
  }

  /** can_edit?: false exactly for shipped, closed and cancelled orders. */
  function CanEdit(o: S.Stateful): (b: bool)
    reads o
    ensures b <==> !(o.state in {S.Shipped, S.Closed, S.Cancelled})
  {
    S.Ask(o, S.CanEdit)
  }

  /** can_cancel?: true exactly before the order has shipped. */
  function CanCancel(o: S.Stateful): (b: bool)
    reads o
    ensures b <==> o.state in {S.Received, S.Confirmed, S.Released, S.InProgress, S.ReadyToShip}
  {
    S.Ask(o, S.CanCancel)
  }

  /** cancel!: the handler's cancel!, without a time, with the cancellation
      of the production entries (`entries`, which completes or raises) as
      its block. Where can_cancel? holds the entries are cancelled and the
      order becomes cancelled at the clock's time, unless cancelling them
      raises, which propagates and leaves the order as it was; elsewhere
      it raises StateError, the entries are untouched and nothing changes. */
  method Cancel(o: S.Stateful, now: int, entries: S.Block<()>) returns (out: S.Outcome<()>)
    modifies o
    ensures old(CanCancel(o)) && entries.Returns? ==> out == S.Done(true, S.None)
    ensures old(CanCancel(o)) && entries.Returns? ==>
              o.View() == old(o.View()).(state := S.Cancelled, cancelledAt := S.Some(now))
    ensures old(CanCancel(o)) && entries.Raises? ==> out == S.Failed(S.BlockRaised) && o.View() == old(o.View())
    ensures !old(CanCancel(o)) ==> out == S.Failed(S.StateError(S.Cancel, old(o.state))) && o.View() == old(o.View())
  {
    out := S.Dispatch(o.state, S.Cancel, o, OrderEnv(now), S.Call(S.None, S.Some(entries)));
  }

  /** close!: the handler's close!, without a time, with the consumption
      of the production entries (`entries`, which completes or raises) as
      its block. Only a shipped order closes, consuming its entries and
      stamping closed_at with the clock's time, unless consuming them
      raises, which propagates and leaves the order as it was; any other
      state raises StateError, the entries are untouched and nothing
      changes. */
  method Close(o: S.Stateful, now: int, entries: S.Block<()>) returns (out: S.Outcome<()>)
    modifies o
    ensures old(o.state) == S.Shipped && entries.Returns? ==> out == S.Done(true, S.None)
    ensures old(o.state) == S.Shipped && entries.Returns? ==>
              o.View() == old(o.View()).(state := S.Closed, closedAt := S.Some(now))
    ensures old(o.state) == S.Shipped && entries.Raises? ==> out == S.Failed(S.BlockRaised) && o.View() == old(o.View())
    ensures old(o.state) != S.Shipped ==> out == S.Failed(S.StateError(S.Close, old(o.state))) && o.View() == old(o.View())
  {
    out := S.Dispatch(o.state, S.Close, o, OrderEnv(now), S.Call(S.None, S.Some(entries)));
  }

  /** With the order's constant guards, releasing a confirmed order always
      lands in ready_to_ship with only started_at stamped, and starting a
      released order always lands in ready_to_ship with no timestamp,
      unless the block raises, which leaves the record as it was. */
  lemma GuardsFastForward<V>(p: S.Snapshot, now: int, call: S.Call<V>)
    ensures S.Perform(S.Confirmed, S.Release, p, OrderEnv(now), call).post ==
            if S.BlockRaises(call) then p
            else p.(state := S.ReadyToShip, startedAt := S.Some(S.TimeOf(call, OrderEnv(now))))
    ensures S.Perform(S.Released, S.Start, p, OrderEnv(now), call).post ==
            if S.BlockRaises(call) then p else p.(state := S.ReadyToShip)
  {
  }

  /** A command sent through an order: the order's guards, its clock, no
      time argument and, as for cancel! and close!, at most a block. */
  ghost predicate ThroughOrder<V>(steps: seq<L.Invocation<V>>) {
    forall k :: 0 <= k < |steps| ==> steps[k].env == OrderEnv(steps[k].env.now) && steps[k].call.time.None?
  }

  /** Through an order, no command raises ArgumentError or reaches the
      misspelt `retrun`, since no time is passed and can_complete? holds:
      a command raises only StateError, or what its block raises. */
  lemma OrderCommandsNeverMisfire<V>(p: S.Snapshot, action: S.Action, now: int, block: S.Option<S.Block<V>>)
    ensures var out := S.Perform(p.state, action, p, OrderEnv(now), S.Call(S.None, block)).outcome;
      out.Failed? ==>
        out.failure == S.StateError(action, p.state) ||
        (out.failure == S.BlockRaised && block == S.Some(S.Raises))
  {
  }

  /** Through an order, released and in_progress are never entered: the
      constant guards make confirmed go straight to ready_to_ship, and
      ready_to_ship only moves on to shipped. */
  lemma {:induction false} SkipsReleasedAndInProgress<V>(p: S.Snapshot, steps: seq<L.Invocation<V>>)
    requires ThroughOrder(steps)
    requires p.state != S.Released && p.state != S.InProgress
    ensures L.Run(p, steps).state != S.Released && L.Run(p, steps).state != S.InProgress
    decreases |steps|
  {
    if steps != [] {
      var i := steps[0];
      assert i.env == OrderEnv(i.env.now) && i.call.time.None?;
      var q := L.Step(p, i).post;
      assert q.state != S.Released && q.state != S.InProgress;
      assert ThroughOrder(steps[1..]) by {
        forall k | 0 <= k < |steps[1..]|
          ensures steps[1..][k].env == OrderEnv(steps[1..][k].env.now) && steps[1..][k].call.time.None?
        {
          assert steps[1..][k] == steps[k + 1];
        }
      }
      SkipsReleasedAndInProgress(q, steps[1..]);
    }
  }

  /** The whole life of an order: confirm!, release!, ship! and close! at
      clock times t1 to t4 take a new order to closed with confirmed_at,
      started_at, completed_at and closed_at stamped in turn. */
  lemma FullLifecycle(t1: int, t2: int, t3: int, t4: int)
    ensures var steps: seq<L.Invocation<()>> := [
        L.Invocation(S.Confirm, OrderEnv(t1), S.Call(S.None, S.None)),
        L.Invocation(S.Release, OrderEnv(t2), S.Call(S.None, S.None)),
        L.Invocation(S.Ship, OrderEnv(t3), S.Call(S.None, S.None)),
        L.Invocation(S.Close, OrderEnv(t4), S.Call(S.None, S.Some(S.Returns(()))))];
      L.Run(S.Initial(S.Received), steps) ==
        S.Snapshot(S.Closed, S.Some(t1), S.None, S.Some(t2), S.Some(t3), S.Some(t4), S.None)
  {
    var steps: seq<L.Invocation<()>> := [
      L.Invocation(S.Confirm, OrderEnv(t1), S.Call(S.None, S.None)),
      L.Invocation(S.Release, OrderEnv(t2), S.Call(S.None, S.None)),
      L.Invocation(S.Ship, OrderEnv(t3), S.Call(S.None, S.None)),
      L.Invocation(S.Close, OrderEnv(t4), S.Call(S.None, S.Some(S.Returns(()))))];
    var p0 := S.Initial(S.Received);
    var p1 := L.Step(p0, steps[0]).post;
    var p2 := L.Step(p1, steps[1]).post;
    var p3 := L.Step(p2, steps[2]).post;
    var p4 := L.Step(p3, steps[3]).post;
    assert L.Run(p4, steps[4..]) == p4;
    assert L.Run(p3, steps[3..]) == p4;
    assert L.Run(p2, steps[2..]) == p4;
    assert L.Run(p1, steps[1..]) == p4;
  }
}
