/** The order lifecycle state machine: the eight state names and their
    resolver, the queries and commands every state handler answers, the
    handlers' guarded transitions, and the record they update in place.

    A handler is identified by the state it handles (`kind`); it is bound
    to a `Stateful` record, reads the record's guard predicates and the
    clock from an `Env`, and receives the caller's arguments as a `Call`:
    an optional explicit time and an optional block (the block is opaque:
    the model records whether it ran and what it returned, or that it
    raised). */
module OrderState {

  datatype Option<+T> = None | Some(value: T)

  /** The eight lifecycle states, in the order the source lists them. */
  datatype State =
    | Received
    | Confirmed
    | Released
    | InProgress
    | ReadyToShip
    | Shipped
    | Closed
    | Cancelled

  /** The name under which a state is stored on the record. */
  function Name(s: State): string {
    match s
    case Received => "received"
    case Confirmed => "confirmed"
    case Released => "released"
    case InProgress => "in_progress"
    case ReadyToShip => "ready_to_ship"
    case Shipped => "shipped"
    case Closed => "closed"
    case Cancelled => "cancelled"
  }

  const STATE_NAMES: seq<string> :=
    ["received", "confirmed", "released", "in_progress", "ready_to_ship", "shipped", "closed", "cancelled"]

  /** What resolving a stored state name gives: the handler of that state,
      or the StateError "Invalid State '<name>'". */
  datatype Resolution = Handler(kind: State) | InvalidState(name: string)

  /** Resolves a stored state name to its handler. */
  function GetState(name: string): (r: Resolution)
    ensures r.Handler? <==> name in STATE_NAMES
    ensures r.Handler? ==> Name(r.kind) == name
    ensures r.InvalidState? ==> r.name == name
  {
    if name == "received" then Handler(Received)
    else if name == "confirmed" then Handler(Confirmed)
    else if name == "released" then Handler(Released)
    else if name == "in_progress" then Handler(InProgress)
    else if name == "ready_to_ship" then Handler(ReadyToShip)
    else if name == "shipped" then Handler(Shipped)
    else if name == "closed" then Handler(Closed)
    else if name == "cancelled" then Handler(Cancelled)
    else InvalidState(name)
  }

  /** Every state's own name resolves to that state's handler, so names
      are distinct and the resolver is the inverse of `Name`. */
  lemma ResolveName(s: State)
    ensures Name(s) in STATE_NAMES
    ensures GetState(Name(s)) == Handler(s)
  {
  }

  /** The commands of the action surface. */
  datatype Action = AddPart | Confirm | Release | Start | MakeShippable | Complete | Ship | Close | Cancel

  /** The queries of the action surface, with the three every handler
      answers besides them. */
  datatype Query =
    | IsReceived
    | IsConfirmed
    | IsReleased
    | IsShipped
    | IsClosed
    | IsCancelled
    | CanEdit
    | CanCancel
    | IsActive

  /** The handlers that inherit from Cancellable rather than directly from Base. */
  predicate IsCancellable(kind: State) {
    kind in {Received, Confirmed, Released, InProgress, ReadyToShip}
  }

  /** Base's answers: every query false except can_edit? and active?. */
  function BaseAnswer(q: Query): bool {
    q == CanEdit || q == IsActive
  }

  /** Cancellable additionally answers can_cancel? with true. */
  function CancellableAnswer(q: Query): bool {
    q == CanCancel || BaseAnswer(q)
  }

  /** A handler's answer to a query: its own overrides, else what it
      inherits from Cancellable or Base. */
  function Answer(kind: State, q: Query): (b: bool)
    ensures q == IsReceived ==> (b <==> kind == Received)
    ensures q == IsConfirmed ==> (b <==> kind == Confirmed)
    ensures q == IsReleased ==> (b <==> kind == Released)
    ensures q == IsShipped ==> (b <==> kind == Shipped)
    ensures q == IsClosed ==> (b <==> kind == Closed)
    ensures q == IsCancelled ==> (b <==> kind == Cancelled)
    ensures q == CanEdit ==> (b <==> kind != Shipped && kind != Closed && kind != Cancelled)
    ensures q == CanCancel ==> (b <==> kind != Shipped && kind != Closed && kind != Cancelled)
    ensures q == IsActive ==> (b <==> kind != Closed && kind != Cancelled)
  {
    var inherited := if IsCancellable(kind) then CancellableAnswer(q) else BaseAnswer(q);
    match kind
    case Received => q == IsReceived || inherited
    case Confirmed => q == IsConfirmed || inherited
    case Released => q == IsReleased || inherited
    case InProgress => inherited
    case ReadyToShip => inherited
    case Shipped => q == IsShipped || (q != CanEdit && inherited)
    case Closed => q == IsClosed || (q != CanEdit && q != IsActive && inherited)
    case Cancelled => q == IsCancelled || (q != CanEdit && q != IsActive && inherited)
  }

  /** What a handler reads besides its arguments: the record's three guard
      predicates, can_complete? as it reads after the record is reloaded,
      and the clock that supplies the default time. */
  datatype Env = Env(canConfirm: bool, canComplete: bool, canShip: bool, reloadedCanComplete: bool, now: int)

  /** What a block does when a handler yields to it: returns a value, or
      raises, in which case the exception propagates out of the command. */
  datatype Block<V> = Returns(value: V) | Raises

  /** The arguments of a command call: an explicit time, if one is passed,
      and the block, if one is given. */
  datatype Call<V> = Call(time: Option<int>, block: Option<Block<V>>)

  /** The call's block is given and raises when yielded to. */
  predicate BlockRaises<V>(call: Call<V>) {
    call.block.Some? && call.block.value.Raises?
  }

  /** What `yield if block_given?` evaluates to when it does not raise: the
      block's value, or nil (None) without a block. */
  function Yielded<V>(call: Call<V>): Option<V> {
    if call.block.Some? && call.block.value.Returns? then Some(call.block.value.value) else None
  }

  /** The time a command stamps: the explicit argument, else the clock. */
  function TimeOf<V>(call: Call<V>, env: Env): int {
    if call.time.Some? then call.time.value else env.now
  }

  /** The exceptions a command raises. */
  datatype Failure =
    | StateError(action: Action, state: State)   // "Can't <action> from '<state>' state"
    | ArgumentError(action: Action)              // a time passed to a command that takes none
    | UndefinedName(name: string)                // a name that is neither a variable nor a method
    | BlockRaised                                // the exception the block raised, propagated

  /** How a command ends: normally, saying whether the block ran and what
      the command returns of it, or by raising. */
  datatype Outcome<V> = Done(ranBlock: bool, value: Option<V>) | Failed(failure: Failure)

  /** The persisted fields of the record a handler updates. */
  datatype Snapshot = Snapshot(
    state: State,
    confirmedAt: Option<int>,
    releasedAt: Option<int>,
    startedAt: Option<int>,
    completedAt: Option<int>,
    closedAt: Option<int>,
    cancelledAt: Option<int>)

  /** A fresh record in the given state, with no timestamp set. */
  function Initial(state: State): Snapshot {
    Snapshot(state, None, None, None, None, None, None)
  }

  /** The six timestamp fields. */
  datatype Stamp = ConfirmedAt | ReleasedAt | StartedAt | CompletedAt | ClosedAt | CancelledAt

  function Get(p: Snapshot, f: Stamp): Option<int> {
    match f
    case ConfirmedAt => p.confirmedAt
    case ReleasedAt => p.releasedAt
    case StartedAt => p.startedAt
    case CompletedAt => p.completedAt
    case ClosedAt => p.closedAt
    case CancelledAt => p.cancelledAt
  }

  /** One update! of the record: a new state and the timestamps set to the
      command's time. */
  datatype Update = Update(state: State, stamps: set<Stamp>)

  /** The record after an update! at time t. */
  function Apply(p: Snapshot, u: Update, t: int): (q: Snapshot)
    ensures q.state == u.state
    ensures forall f :: Get(q, f) == if f in u.stamps then Some(t) else Get(p, f)
  {
    Snapshot(
      u.state,
      if ConfirmedAt in u.stamps then Some(t) else p.confirmedAt,
      if ReleasedAt in u.stamps then Some(t) else p.releasedAt,
      if StartedAt in u.stamps then Some(t) else p.startedAt,
      if CompletedAt in u.stamps then Some(t) else p.completedAt,
      if ClosedAt in u.stamps then Some(t) else p.closedAt,
      if CancelledAt in u.stamps then Some(t) else p.cancelledAt)
  }

  /** The commands a handler's class defines itself or inherits from
      Cancellable (cancel!); every other command is Base's confirm! or
      Base's default, both of which raise. */
  predicate Overrides(kind: State, action: Action) {
    match kind
    case Received => action in {AddPart, Confirm, Cancel}
    case Confirmed => action in {Release, Cancel}
    case Released => action in {Start, Cancel}
    case InProgress => action in {Start, MakeShippable, Complete, Cancel}
    case ReadyToShip => action in {Start, MakeShippable, Ship, Complete, Cancel}
    case Shipped => action in {Close}
    case Closed => false
    case Cancelled => false
  }

  /** How a handler reacts to a command: it raises before doing anything,
      or it proceeds, yielding to the block or not, performing at most one
      update!, and returning the block's value or not. */
  datatype Reaction =
    | Reject(failure: Failure)
    | Proceed(runsBlock: bool, update: Option<Update>, returnsBlock: bool)

  /** Shipped with completed_at set: the update shared by every completion. */
  const SHIP_COMPLETED: Update := Update(Shipped, {CompletedAt})

  /** What a handler inherits for a command its own class does not define:
      Cancellable's cancel! for the five cancellable states, Base's
      confirm! (which accepts an optional time), and otherwise Base's
      argument-less default. */
  function Inherited(kind: State, action: Action, current: State, timeGiven: bool): (r: Reaction)
    ensures r.Proceed? <==> action == Cancel && IsCancellable(kind)
  {
    if action == Cancel && IsCancellable(kind) then Proceed(true, Some(Update(Cancelled, {CancelledAt})), false)
    else if action == Confirm then Reject(StateError(Confirm, current))
    else if timeGiven then Reject(ArgumentError(action))
    else Reject(StateError(action, current))
  }

  /** The transition table: handler `kind`, asked to perform `action` on a
      record currently in state `current`, with or without an explicit time. */
  function Rule(kind: State, action: Action, current: State, env: Env, timeGiven: bool): (r: Reaction)
    ensures r.Proceed? ==> Overrides(kind, action)
    ensures r.Proceed? && r.update.Some? ==> |r.update.value.stamps| <= 2
    ensures r.Reject? && r.failure.StateError? ==> r.failure == StateError(action, current)
    ensures r.Reject? && r.failure.ArgumentError? ==> timeGiven && r.failure.action == action
    ensures r.Proceed? && r.returnsBlock ==> r.runsBlock
    ensures r.Reject? ==> !r.failure.BlockRaised?
  {
    match kind
    case Received =>
      (match action
       case AddPart => if timeGiven then Reject(ArgumentError(AddPart)) else Proceed(true, None, true)
       case Confirm =>
         if env.canConfirm then Proceed(true, Some(Update(Confirmed, {ConfirmedAt})), false)
         else Inherited(kind, action, current, timeGiven)
       case _ => Inherited(kind, action, current, timeGiven))
    case Confirmed =>
      (match action
       case Release =>
         Proceed(true, Some(
                   if env.canShip then Update(ReadyToShip, {StartedAt})
                   else if env.canComplete then Update(Shipped, {StartedAt, CompletedAt})
                   else Update(Released, {ReleasedAt})), false)
       case _ => Inherited(kind, action, current, timeGiven))
    case Released =>
      (match action
       case Start =>
         Proceed(true, Some(
                   if env.canShip then Update(ReadyToShip, {})
                   else if env.canComplete then SHIP_COMPLETED
                   else Update(InProgress, {StartedAt})), false)
       case _ => Inherited(kind, action, current, timeGiven))
    case InProgress =>
      (match action
       case Start => if timeGiven then Reject(ArgumentError(Start)) else Proceed(false, None, false)
       case MakeShippable =>
         Proceed(true,
                 if env.canComplete then Some(SHIP_COMPLETED)
                 else if env.canShip then Some(Update(ReadyToShip, {}))
                 else None, false)
       case Complete =>
         if env.canComplete then Proceed(true, Some(SHIP_COMPLETED), false)
         else Reject(UndefinedName("retrun"))
       case _ => Inherited(kind, action, current, timeGiven))
    case ReadyToShip =>
      (match action
       case Start => if timeGiven then Reject(ArgumentError(Start)) else Proceed(false, None, false)
       case MakeShippable => Proceed(true, if env.canComplete then Some(SHIP_COMPLETED) else None, false)
       case Ship =>
         Proceed(true, Some(if env.reloadedCanComplete then SHIP_COMPLETED else Update(InProgress, {})), true)
       case Complete =>
         if env.canComplete then Proceed(true, Some(SHIP_COMPLETED), false)
         else Proceed(false, None, false)
       case _ => Inherited(kind, action, current, timeGiven))
    case Shipped =>
      (match action
       case Close => Proceed(true, Some(Update(Closed, {ClosedAt})), false)
       case _ => Inherited(kind, action, current, timeGiven))
    case Closed => Inherited(kind, action, current, timeGiven)
    case Cancelled => Inherited(kind, action, current, timeGiven)
  }

  /** A command's outcome together with the record after it. */
  datatype Effect<V> = Effect(outcome: Outcome<V>, post: Snapshot)

  /** Carries out a reaction on the record `p`: the block runs only if the
      handler yields and a block was given; a block that raises ends the
      command before its update!; the update is stamped with the command's
      time. */
  function Carry<V>(r: Reaction, p: Snapshot, env: Env, call: Call<V>): (e: Effect<V>)
    ensures r.Reject? ==> e == Effect(Failed(r.failure), p)
    ensures e.outcome.Failed? <==> r.Reject? || (r.Proceed? && r.runsBlock && BlockRaises(call))
    ensures e.outcome.Failed? ==> e.post == p
    ensures e.outcome.Done? ==> (e.outcome.ranBlock <==> r.runsBlock && call.block.Some?)
    ensures e.outcome.Done? && e.outcome.value.Some? ==> r.returnsBlock && e.outcome.value == Yielded(call)
    ensures e.post != p ==> r.Proceed? && r.update.Some?
  {
    match r
    case Reject(f) => Effect(Failed(f), p)
    case Proceed(runsBlock, update, returnsBlock) =>
      if runsBlock && BlockRaises(call) then Effect(Failed(BlockRaised), p)
      else
        var ran := runsBlock && call.block.Some?;
        Effect(Done(ran, if returnsBlock && ran then Yielded(call) else None),
               if update.Some? then Apply(p, update.value, TimeOf(call, env)) else p)
  }

  /** The reference semantics of a command: the reaction `Rule` gives,
      carried out on the record `p`. */
  function Perform<V>(kind: State, action: Action, p: Snapshot, env: Env, call: Call<V>): (e: Effect<V>)
    ensures e.outcome.Failed? ==> e.post == p
    ensures e.outcome.Failed? && e.outcome.failure.StateError? ==> e.outcome.failure == StateError(action, p.state)
    ensures e.outcome.Done? && e.outcome.ranBlock ==> call.block.Some?
    ensures e.outcome.Done? && e.outcome.value.Some? ==> e.outcome.value == Yielded(call) && action in {AddPart, Ship}
    ensures e.outcome.Failed? && e.outcome.failure.BlockRaised? ==> BlockRaises(call)
    ensures e.post != p ==> e.outcome.Done? && Overrides(kind, action)
  {
    Carry(Rule(kind, action, p.state, env, call.time.Some?), p, env, call)
  }

  /** The record a handler is bound to; in the application, an Order. */
  class Stateful {
    var state: State
    var confirmedAt: Option<int>
    var releasedAt: Option<int>
    var startedAt: Option<int>
    var completedAt: Option<int>
    var closedAt: Option<int>
    var cancelledAt: Option<int>

    /** The persisted fields as a value. */
    function View(): Snapshot
      reads this
    {
      Snapshot(state, confirmedAt, releasedAt, startedAt, completedAt, closedAt, cancelledAt)
    }

    constructor (state: State)
      ensures View() == Initial(state)
    {
      this.state := state;
      confirmedAt, releasedAt, startedAt := None, None, None;
      completedAt, closedAt, cancelledAt := None, None, None;
    }
  }

  /** Base's default for every command it does not define otherwise: the
      method takes no argument, so a passed time raises ArgumentError;
      otherwise it raises StateError naming the command and the record's
      state. Nothing is updated and the block is not run. */
  method BaseCommand<V>(action: Action, s: Stateful, call: Call<V>) returns (out: Outcome<V>)
    ensures call.time.Some? ==> out == Failed(ArgumentError(action))
    ensures call.time.None? ==> out == Failed(StateError(action, s.state))
  {
    if call.time.Some? {
      out := Failed(ArgumentError(action));
    } else {
      out := Failed(StateError(action, s.state));
    }
  }

  /** Base#confirm!: accepts an optional time and always raises StateError. */
  method BaseConfirm<V>(s: Stateful, call: Call<V>) returns (out: Outcome<V>)
    ensures out == Failed(StateError(Confirm, s.state))
  {
    out := Failed(StateError(Confirm, s.state));
  }

  /** Cancellable#cancel!: runs the block, then sets cancelled and
      cancelled_at; a raising block leaves the record as it was. */
  method CancellableCancel<V>(s: Stateful, env: Env, call: Call<V>) returns (out: Outcome<V>)
    modifies s
    ensures BlockRaises(call) ==> out == Failed(BlockRaised) && s.View() == old(s.View())
    ensures !BlockRaises(call) ==> out == Done(call.block.Some?, None)
    ensures !BlockRaises(call) ==> s.View() == old(s.View()).(state := Cancelled, cancelledAt := Some(TimeOf(call, env)))
  {
    if BlockRaises(call) {
      out := Failed(BlockRaised);
      return;
    }
    s.state, s.cancelledAt := Cancelled, Some(TimeOf(call, env));
    out := Done(call.block.Some?, None);
  }

  /** Received#add_part!: takes no argument; yields to the block and
      returns its value, or lets its exception through; updates nothing. */
  method ReceivedAddPart<V>(s: Stateful, call: Call<V>) returns (out: Outcome<V>)
    ensures call.time.Some? ==> out == Failed(ArgumentError(AddPart))
    ensures call.time.None? && BlockRaises(call) ==> out == Failed(BlockRaised)
    ensures call.time.None? && !BlockRaises(call) ==> out == Done(call.block.Some?, Yielded(call))
  {
    if call.time.Some? {
      out := Failed(ArgumentError(AddPart));
      return;
    }
    if BlockRaises(call) {
      out := Failed(BlockRaised);
      return;
    }
    out := Done(call.block.Some?, Yielded(call));
  }

  /** Received#confirm!: without can_confirm? it raises Base's StateError
      before running the block; otherwise it runs the block and sets
      confirmed and confirmed_at. */
  method ReceivedConfirm<V>(s: Stateful, env: Env, call: Call<V>) returns (out: Outcome<V>)
    modifies s
    ensures !env.canConfirm ==> out == Failed(StateError(Confirm, old(s.state))) && s.View() == old(s.View())
    ensures env.canConfirm && BlockRaises(call) ==> out == Failed(BlockRaised) && s.View() == old(s.View())
    ensures env.canConfirm && !BlockRaises(call) ==> out == Done(call.block.Some?, None)
    ensures env.canConfirm && !BlockRaises(call) ==>
              s.View() == old(s.View()).(state := Confirmed, confirmedAt := Some(TimeOf(call, env)))
  {
    if !env.canConfirm {
      out := BaseConfirm(s, call);
      return;
    }
    if BlockRaises(call) {
      out := Failed(BlockRaised);
      return;
    }
    s.state, s.confirmedAt := Confirmed, Some(TimeOf(call, env));
    out := Done(call.block.Some?, None);
  }

  /** Confirmed#release!: runs the block; then can_ship? goes to
      ready_to_ship stamping started_at, else can_complete? goes to shipped
      stamping started_at and completed_at, else released with released_at. */
  method ConfirmedRelease<V>(s: Stateful, env: Env, call: Call<V>) returns (out: Outcome<V>)
    modifies s
    ensures BlockRaises(call) ==> out == Failed(BlockRaised) && s.View() == old(s.View())
    ensures !BlockRaises(call) ==> out == Done(call.block.Some?, None)
    ensures var t := Some(TimeOf(call, env));
      !BlockRaises(call) ==>
        s.View() == if env.canShip then old(s.View()).(state := ReadyToShip, startedAt := t)
                    else if env.canComplete then old(s.View()).(state := Shipped, startedAt := t, completedAt := t)
                    else old(s.View()).(state := Released, releasedAt := t)
  {
    if BlockRaises(call) {
      out := Failed(BlockRaised);
      return;
    }
    var time := TimeOf(call, env);
    if env.canShip {
      s.state, s.startedAt := ReadyToShip, Some(time);
    } else if env.canComplete {
      s.state, s.startedAt, s.completedAt := Shipped, Some(time), Some(time);
    } else {
      s.state, s.releasedAt := Released, Some(time);
    }
    out := Done(call.block.Some?, None);
  }

  /** Released#start!: runs the block; then can_ship? goes to ready_to_ship
      with no timestamp, else can_complete? goes to shipped with
      completed_at, else in_progress with started_at. */
  method ReleasedStart<V>(s: Stateful, env: Env, call: Call<V>) returns (out: Outcome<V>)
    modifies s
    ensures BlockRaises(call) ==> out == Failed(BlockRaised) && s.View() == old(s.View())
    ensures !BlockRaises(call) ==> out == Done(call.block.Some?, None)
    ensures var t := Some(TimeOf(call, env));
      !BlockRaises(call) ==>
        s.View() == if env.canShip then old(s.View()).(state := ReadyToShip)
                    else if env.canComplete then old(s.View()).(state := Shipped, completedAt := t)
                    else old(s.View()).(state := InProgress, startedAt := t)
  {
    if BlockRaises(call) {
      out := Failed(BlockRaised);
      return;
    }
    var time := TimeOf(call, env);
    if env.canShip {
      s.state := ReadyToShip;
    } else if env.canComplete {
      s.state, s.completedAt := Shipped, Some(time);
    } else {
      s.state, s.startedAt := InProgress, Some(time);
    }
    out := Done(call.block.Some?, None);
  }

  /** InProgress#start! and ReadyToShip#start!: take no argument, ignore
      the block and update nothing. */
  method AlreadyStarted<V>(s: Stateful, call: Call<V>) returns (out: Outcome<V>)
    ensures call.time.Some? ==> out == Failed(ArgumentError(Start))
    ensures call.time.None? ==> out == Done(false, None)
  {
    if call.time.Some? {
      out := Failed(ArgumentError(Start));
    } else {
      out := Done(false, None);
    }
  }

  /** InProgress#make_shippable!: runs the block; then can_complete? goes
      to shipped with completed_at, else can_ship? goes to ready_to_ship,
      else nothing is updated. */
  method InProgressMakeShippable<V>(s: Stateful, env: Env, call: Call<V>) returns (out: Outcome<V>)
    modifies s
    ensures BlockRaises(call) ==> out == Failed(BlockRaised) && s.View() == old(s.View())
    ensures !BlockRaises(call) ==> out == Done(call.block.Some?, None)
    ensures !BlockRaises(call) ==>
              s.View() == if env.canComplete then old(s.View()).(state := Shipped, completedAt := Some(TimeOf(call, env)))
                          else if env.canShip then old(s.View()).(state := ReadyToShip)
                          else old(s.View())
  {
    if BlockRaises(call) {
      out := Failed(BlockRaised);
      return;
    }
    if env.canComplete {
      s.state, s.completedAt := Shipped, Some(TimeOf(call, env));
    } else if env.canShip {
      s.state := ReadyToShip;
    }
    out := Done(call.block.Some?, None);
  }

  /** InProgress#complete!: with can_complete? false its guard line
      evaluates the undefined name `retrun` and raises before the block;
      otherwise it runs the block and goes to shipped with completed_at. */
  method InProgressComplete<V>(s: Stateful, env: Env, call: Call<V>) returns (out: Outcome<V>)
    modifies s
    ensures !env.canComplete ==> out == Failed(UndefinedName("retrun")) && s.View() == old(s.View())
    ensures env.canComplete && BlockRaises(call) ==> out == Failed(BlockRaised) && s.View() == old(s.View())
    ensures env.canComplete && !BlockRaises(call) ==> out == Done(call.block.Some?, None)
    ensures env.canComplete && !BlockRaises(call) ==>
              s.View() == old(s.View()).(state := Shipped, completedAt := Some(TimeOf(call, env)))
  {
    if !env.canComplete {
      out := Failed(UndefinedName("retrun"));
      return;
    }
    if BlockRaises(call) {
      out := Failed(BlockRaised);
      return;
    }
    s.state, s.completedAt := Shipped, Some(TimeOf(call, env));
    out := Done(call.block.Some?, None);
  }

  /** ReadyToShip#make_shippable!: runs the block first, then goes to
      shipped with completed_at only if can_complete?. */
  method ReadyToShipMakeShippable<V>(s: Stateful, env: Env, call: Call<V>) returns (out: Outcome<V>)
    modifies s
    ensures BlockRaises(call) ==> out == Failed(BlockRaised) && s.View() == old(s.View())
    ensures !BlockRaises(call) ==> out == Done(call.block.Some?, None)
    ensures !BlockRaises(call) ==>
              s.View() == if env.canComplete then old(s.View()).(state := Shipped, completedAt := Some(TimeOf(call, env)))
                          else old(s.View())
  {
    if BlockRaises(call) {
      out := Failed(BlockRaised);
      return;
    }
    if env.canComplete {
      s.state, s.completedAt := Shipped, Some(TimeOf(call, env));
    }
    out := Done(call.block.Some?, None);
  }

  /** ReadyToShip#ship!: runs the block and keeps its value, reloads the
      record, then with can_complete? goes to shipped with completed_at and
      otherwise back to in_progress; returns the block's value. A raising
      block ends it before the reload and the update. */
  method ReadyToShipShip<V>(s: Stateful, env: Env, call: Call<V>) returns (out: Outcome<V>)
    modifies s
    ensures BlockRaises(call) ==> out == Failed(BlockRaised) && s.View() == old(s.View())
    ensures !BlockRaises(call) ==> out == Done(call.block.Some?, Yielded(call))
    ensures !BlockRaises(call) ==>
              s.View() == if env.reloadedCanComplete then old(s.View()).(state := Shipped, completedAt := Some(TimeOf(call, env)))
                          else old(s.View()).(state := InProgress)
  {
    if BlockRaises(call) {
      out := Failed(BlockRaised);
      return;
    }
    var result := Yielded(call);
    if env.reloadedCanComplete {
      s.state, s.completedAt := Shipped, Some(TimeOf(call, env));
    } else {
      s.state := InProgress;
    }
    out := Done(call.block.Some?, result);
  }

  /** ReadyToShip#complete!: returns without running the block unless
      can_complete?; otherwise runs it and goes to shipped with completed_at. */
  method ReadyToShipComplete<V>(s: Stateful, env: Env, call: Call<V>) returns (out: Outcome<V>)
    modifies s
    ensures !env.canComplete ==> out == Done(false, None) && s.View() == old(s.View())
    ensures env.canComplete && BlockRaises(call) ==> out == Failed(BlockRaised) && s.View() == old(s.View())
    ensures env.canComplete && !BlockRaises(call) ==> out == Done(call.block.Some?, None)
    ensures env.canComplete && !BlockRaises(call) ==>
              s.View() == old(s.View()).(state := Shipped, completedAt := Some(TimeOf(call, env)))
  {
    if !env.canComplete {
      out := Done(false, None);
      return;
    }
    if BlockRaises(call) {
      out := Failed(BlockRaised);
      return;
    }
    s.state, s.completedAt := Shipped, Some(TimeOf(call, env));
    out := Done(call.block.Some?, None);
  }

  /** Shipped#close!: runs the block, then sets closed and closed_at; a
      raising block leaves the record as it was. */
  method ShippedClose<V>(s: Stateful, env: Env, call: Call<V>) returns (out: Outcome<V>)
    modifies s
    ensures BlockRaises(call) ==> out == Failed(BlockRaised) && s.View() == old(s.View())
    ensures !BlockRaises(call) ==> out == Done(call.block.Some?, None)
    ensures !BlockRaises(call) ==> s.View() == old(s.View()).(state := Closed, closedAt := Some(TimeOf(call, env)))
  {
    if BlockRaises(call) {
      out := Failed(BlockRaised);
      return;
    }
    s.state, s.closedAt := Closed, Some(TimeOf(call, env));
    out := Done(call.block.Some?, None);
  }

  /** The method a handler inherits for a command its class does not
      define: Cancellable#cancel!, Base#confirm! or Base's default. */
  method Inherit<V>(kind: State, action: Action, s: Stateful, env: Env, call: Call<V>) returns (out: Outcome<V>)
    modifies s
    ensures Effect(out, s.View()) == Carry(Inherited(kind, action, old(s.state), call.time.Some?), old(s.View()), env, call)
  {
    if action == Cancel && IsCancellable(kind) {
      out := CancellableCancel(s, env, call);
    } else if action == Confirm {
      out := BaseConfirm(s, call);
    } else {
      out := BaseCommand(action, s, call);
    }
  }

  /** Sends a command to the handler of `kind`: its own method if its class
      (or Cancellable) defines one, else Base's default. The handler
      methods together agree with the transition table. */
  method Dispatch<V>(kind: State, action: Action, s: Stateful, env: Env, call: Call<V>) returns (out: Outcome<V>)
    modifies s
    ensures Effect(out, s.View()) == Perform(kind, action, old(s.View()), env, call)
  {
    match kind
    case Received =>
      match action {
        case AddPart => out := ReceivedAddPart(s, call);
        case Confirm => out := ReceivedConfirm(s, env, call);
        case _ => out := Inherit(kind, action, s, env, call);
      }
    case Confirmed =>
      match action {
        case Release => out := ConfirmedRelease(s, env, call);
        case _ => out := Inherit(kind, action, s, env, call);
      }
    case Released =>
      match action {
        case Start => out := ReleasedStart(s, env, call);
        case _ => out := Inherit(kind, action, s, env, call);
      }
    case InProgress =>
      match action {
        case Start => out := AlreadyStarted(s, call);
        case MakeShippable => out := InProgressMakeShippable(s, env, call);
        case Complete => out := InProgressComplete(s, env, call);
        case _ => out := Inherit(kind, action, s, env, call);
      }
    case ReadyToShip =>
      match action {
        case Start => out := AlreadyStarted(s, call);
        case MakeShippable => out := ReadyToShipMakeShippable(s, env, call);
        case Ship => out := ReadyToShipShip(s, env, call);
        case Complete => out := ReadyToShipComplete(s, env, call);
        case _ => out := Inherit(kind, action, s, env, call);
      }
    case Shipped =>
      match action {
        case Close => out := ShippedClose(s, env, call);
        case _ => out := Inherit(kind, action, s, env, call);
      }
    case Closed => out := Inherit(kind, action, s, env, call);
    case Cancelled => out := Inherit(kind, action, s, env, call);
  }

  /** The forwarders every including record gets: a command goes to the
      handler of the record's current state, with no time and no block. */
  method Forward<V>(s: Stateful, action: Action, env: Env) returns (out: Outcome<V>)
    modifies s
    ensures Effect(out, s.View()) == Perform(old(s.state), action, old(s.View()), env, Call(None, None))
    ensures out.Done? ==> !out.ranBlock && out.value.None?
    ensures out.Failed? ==> !out.failure.ArgumentError? && !out.failure.BlockRaised?
  {
    out := Dispatch(s.state, action, s, env, Call(None, None));
  }

  /** The query forwarders: the handler of the record's current state
      answers, so can_cancel? holds exactly for the states whose handler is
      a Cancellable, and each state query holds in its own state alone. */
  function Ask(s: Stateful, q: Query): (b: bool)
    reads s
    ensures b == Answer(s.state, q)
    ensures q == CanCancel ==> (b <==> IsCancellable(s.state))
    ensures q in {IsReceived, IsConfirmed, IsReleased, IsShipped, IsClosed, IsCancelled} && b ==>
              Answer(s.state, q) && forall k: State :: k != s.state ==> !Answer(k, q)
  {
    Answer(s.state, q)
  }

  /** A command no handler class defines raises before running the block
      and updates nothing: StateError naming the command and the record's
      state when called without a time (always, for confirm!),
      ArgumentError when called with one. */
  lemma DefaultCommandRaises<V>(kind: State, action: Action, p: Snapshot, env: Env, call: Call<V>)
    requires !Overrides(kind, action)
    ensures Perform(kind, action, p, env, call).post == p
    ensures Perform(kind, action, p, env, call).outcome ==
            if call.time.None? || action == Confirm then Failed(StateError(action, p.state))
            else Failed(ArgumentError(action))
  {
  }

  /** can_cancel? is false exactly where cancel! is Base's default, which
      raises StateError (ArgumentError if given a time); where
      it holds, cancel! runs the block and sets cancelled and cancelled_at
      and nothing else, unless the block raises, which leaves the record
      as it was. */
  lemma CancelIffCanCancel<V>(kind: State, p: Snapshot, env: Env, call: Call<V>)
    ensures var e := Perform(kind, Cancel, p, env, call);
      !Answer(kind, CanCancel) <==>
        e.outcome == Failed(if call.time.Some? then ArgumentError(Cancel) else StateError(Cancel, p.state))
    ensures var e := Perform(kind, Cancel, p, env, call);
      Answer(kind, CanCancel) && !BlockRaises(call) ==>
        e.outcome == Done(call.block.Some?, None) &&
        e.post == p.(state := Cancelled, cancelledAt := Some(TimeOf(call, env)))
    ensures var e := Perform(kind, Cancel, p, env, call);
      Answer(kind, CanCancel) && BlockRaises(call) ==> e == Effect(Failed(BlockRaised), p)
  {
  }
}
