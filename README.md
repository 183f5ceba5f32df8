# Order lifecycle state machine

A Dafny model of the purchase-order state machine of `order_state.rb` and
of the `Order` aggregate of `order.rb`.

An order is in one of eight states (received, confirmed, released,
in_progress, ready_to_ship, shipped, closed, cancelled). The resolver maps a
stored state name to the handler of that state. Each handler answers the
queries (`received?`, …, `can_edit?`, `can_cancel?`, `active?`) and the
commands (`add_part!`, `confirm!`, `release!`, `start!`, `make_shippable!`,
`complete!`, `ship!`, `close!`, `cancel!`) of one action surface. What a
handler class does not define it inherits from `Cancellable` (the five
states before shipping, which can be cancelled) or from `Base`. Base's
commands raise `StateError`, or `ArgumentError` when given a time (all but
`confirm!`, which accepts one). Base's queries answer false, except
`can_edit?` and `active?`, which answer true.

- `order_state.dfy`, module `OrderState`:
  - the `State` enum, `Name` and the resolver `GetState`, which has an
    `InvalidState` outcome for any other name;
  - the query table `Answer`, built along the inheritance chain;
  - the transition table `Rule`, which `Perform` carries out on a record
    `Snapshot`;
  - the record class `Stateful`, which holds `state` and six `Option<int>`
    timestamps;
  - one imperative method per handler command, each stating the record's
    whole new state. `Dispatch` sends a command to the handler of a state
    and is proved to agree with `Perform`.
- `lifecycle.dfy`, module `Lifecycle`: `Run` sends a sequence of commands,
  each to the handler of the record's state at that moment. The inductive
  lemmas say what every run keeps.
- `order.dfy`, module `Orders`: a new order, the constant guards, the
  delegating predicates, and `cancel!`/`close!` with their production-entry
  block. It also has lemmas about what the constant guards imply.

What a handler reads from outside is an `Env`:
- the record's guards `can_confirm?`, `can_complete?` and `can_ship?`;
- `can_complete?` as read after `ship!` reloads the record;
- the clock, which supplies a command's default time.

A caller's arguments are a `Call`: an optional explicit time, and an
optional block. The block is opaque: it either returns a value or raises.
The model records whether it ran and what value it returned. A block that
raises ends the command before its `update!`, so the record is unchanged.

Raising is an `Outcome` of `Failed(...)`, with four kinds of failure:
- `StateError(action, state)`;
- `ArgumentError(action)`: a time was passed to a command whose method
  takes no parameters;
- `UndefinedName(name)`;
- `BlockRaised`: the block's own exception, propagated.

The model follows the code where one might expect otherwise:
- `Confirmed#release!` with `can_ship?` goes to ready_to_ship and stamps
  only `started_at`.
- `Released#start!` with `can_ship?` goes to ready_to_ship and stamps
  nothing.
- With `can_complete?` false, `InProgress#complete!` evaluates the
  misspelt `retrun`. It raises a `NameError` before the block runs; it is
  not a silent no-op (`UndefinedName("retrun")`).
- `ReadyToShip#make_shippable!` runs the block before testing its guard.
  `confirm!` and both `complete!`s test the guard first.
- Base's default commands, `Received#add_part!` and the two already-started
  `start!`s are methods without parameters. Passing them a time raises
  `ArgumentError`, not `StateError`. `Base#confirm!` accepts a time.
- With `can_ship?` and `can_complete?` both false, an order driven through
  `confirm!`, `release!`, `start!` and `make_shippable!` stays in
  in_progress, and a following `ship!` raises
  (`Lifecycle.GuardsOffStallsInProgress`). Over every run in which both
  guards stay false, a record that is not yet in ready_to_ship, shipped or
  closed never gets there (`Lifecycle.GuardsOffNeverShips`).
- Through an `Order`, whose guards are constant true, released and
  in_progress are never entered (`Orders.SkipsReleasedAndInProgress`).

## Model

| member | source | states |
|---|---|---|
| `OrderState.GetState` | order_state.rb:25-29 | a name resolves to a handler exactly when it is one of the eight state names, and then to the state of that name; any other name gives InvalidState carrying the name |
| `OrderState.ResolveName` | order_state.rb:6 | each state's stored name is among the eight names and resolves to that state's own handler |
| `OrderState.Answer` | order_state.rb:59-227 | received?, confirmed?, released?, shipped?, closed?, cancelled? hold only in their own state (none in in_progress or ready_to_ship); can_edit? and can_cancel? are false exactly for shipped, closed, cancelled; active? is false exactly for closed and cancelled |
| `OrderState.Inherited` | order_state.rb:45-81 | an inherited command proceeds only for cancel! on one of the five cancellable states; otherwise it raises |
| `OrderState.Rule` | order_state.rb:88-191 | a handler proceeds only with a command its class defines or inherits from Cancellable; an update stamps at most two timestamps; a StateError names the command and the record's state; ArgumentError only when a time was passed; only a command that yields can return the block's value; the table itself never rejects with the block's exception |
| `OrderState.Carry` | order_state.rb:73-191 | a rejection raises its own failure and changes nothing; a command raises exactly when rejected or when it yields to a block that raises, and then changes nothing; the block runs exactly when the handler yields and a block is given; a returned value is the block's; any change comes from the handler's update |
| `OrderState.Perform` | order_state.rb:31-191 | a command that raises changes nothing and a StateError names the command and current state; BlockRaised only when the block raises; the block runs only if given; only add_part! and ship! return its value; every change comes from a command the handler's class defines or inherits from Cancellable |
| `OrderState.BaseCommand` | order_state.rb:45-53 | a command no handler defines raises StateError naming the command and the record's state, or ArgumentError when a time is passed; nothing is updated |
| `OrderState.BaseConfirm` | order_state.rb:55-57 | confirm! on a handler that does not define it raises StateError naming confirm! and the record's state |
| `OrderState.CancellableCancel` | order_state.rb:73-76 | runs the block, then sets cancelled and cancelled_at to the time, nothing else; a raising block propagates and nothing changes |
| `OrderState.ReceivedAddPart` | order_state.rb:88-90 | takes no time (ArgumentError if passed); runs the block and returns its value, or propagates its exception; updates nothing |
| `OrderState.ReceivedConfirm` | order_state.rb:92-96 | with can_confirm? runs the block and sets confirmed and confirmed_at only (nothing if the block raises); without it raises StateError for confirm! from the current state, no block, no update |
| `OrderState.ConfirmedRelease` | order_state.rb:100-110 | runs the block; can_ship? gives ready_to_ship with started_at, else can_complete? gives shipped with started_at and completed_at, else released with released_at; nothing else changes; a raising block leaves the record unchanged |
| `OrderState.ReleasedStart` | order_state.rb:118-128 | runs the block; can_ship? gives ready_to_ship with no stamp, else can_complete? gives shipped with completed_at, else in_progress with started_at; a raising block leaves the record unchanged |
| `OrderState.AlreadyStarted` | order_state.rb:136 | start! on in_progress (and identically on ready_to_ship, line 157) changes nothing and ignores the block; a passed time raises ArgumentError |
| `OrderState.InProgressMakeShippable` | order_state.rb:138-146 | runs the block; can_complete? gives shipped with completed_at, else can_ship? gives ready_to_ship, else no update; a raising block leaves the record unchanged |
| `OrderState.InProgressComplete` | order_state.rb:148-153 | with can_complete? runs the block and gives shipped with completed_at (nothing if the block raises); without it raises UndefinedName "retrun" before the block, with no update |
| `OrderState.ReadyToShipMakeShippable` | order_state.rb:159-163 | runs the block first, then only with can_complete? gives shipped with completed_at; a raising block leaves the record unchanged |
| `OrderState.ReadyToShipShip` | order_state.rb:165-177 | runs the block and returns its value; the reloaded can_complete? chooses shipped with completed_at or in_progress with no stamp; a raising block propagates before the reload and nothing changes |
| `OrderState.ReadyToShipComplete` | order_state.rb:179-184 | without can_complete? returns without running the block or updating; with it runs the block and gives shipped with completed_at, unless the block raises |
| `OrderState.ShippedClose` | order_state.rb:188-191 | runs the block, then sets closed and closed_at only; a raising block propagates and nothing changes |
| `OrderState.Inherit` | order_state.rb:72-81 | the inherited method (Cancellable#cancel!, Base#confirm! or Base's default) behaves as `Inherited` says |
| `OrderState.Dispatch` | order_state.rb:83-228 | the handler classes' methods, reached by state and command, have exactly the outcome and new record that the transition table gives |
| `OrderState.Forward` | order_state.rb:34-38 | a forwarded command reaches the handler of the current state with no time and no block, so it never runs a block and never raises ArgumentError or a block's exception |
| `OrderState.Ask` | order_state.rb:21-38 | a forwarded query gets the answer of the current state's handler; so can_cancel? holds exactly for the Cancellable states, and a state query that holds holds in no other state |
| `OrderState.DefaultCommandRaises` | order_state.rb:45-57 | a command no handler class defines raises StateError naming it and the current state (ArgumentError if a time is passed, except confirm!) and updates nothing |
| `OrderState.CancelIffCanCancel` | order_state.rb:45-81 | can_cancel? is false exactly where cancel! raises Base's StateError (ArgumentError with a time); where it holds, cancel! runs the block and changes only state to cancelled and cancelled_at to the time, or, if the block raises, propagates and changes nothing |
| `Lifecycle.StepSettles` | order_state.rb:92-191 | no command lowers a record's rank in the lifecycle or rewrites a timestamp whose writing states it has passed; in_progress and ready_to_ship share one rank, because ship! moves ready_to_ship back to in_progress (line 174) |
| `Lifecycle.RunSettles` | order_state.rb:34-38 | over any sequence of forwarded commands the record's rank never drops (ready_to_ship may fall back to in_progress, which shares its rank) and each timestamp is fixed once the record has moved past every state that writes it |
| `Lifecycle.NeverReceivedAgain` | order_state.rb:92-96 | once an order leaves received it never returns and confirmed_at never changes |
| `Lifecycle.TerminalAbsorbs` | order_state.rb:202-228 | no sequence of commands changes a closed or cancelled record |
| `Lifecycle.GuardsOffNeverShips` | order_state.rb:100-184 | over any run in which can_ship? and can_complete? stay false, a record outside ready_to_ship, shipped and closed never enters any of them, so it never ships |
| `Lifecycle.GuardsOffStallsInProgress` | order_state.rb:138-146 | with can_ship? and can_complete? false, confirm!, release!, start!, make_shippable! end in in_progress with confirmed_at, released_at, started_at set, and ship! then raises StateError |
| `Orders.NewOrder` | order.rb:9-11 | a new order is in received with no timestamp |
| `Orders.OrderEnv` | order.rb:19-29 | can_confirm?, can_complete? and can_ship? are true, also after a reload |
| `Orders.IsActive` | order.rb:14-16 | active? is false exactly for closed and cancelled orders |
| `Orders.CanAddItem` | order.rb:32-34 | can_add_item? holds exactly in received |
| `Orders.CanEdit` | order.rb:36-38 | can_edit? is false exactly for shipped, closed and cancelled |
| `Orders.CanCancel` | order.rb:40-42 | can_cancel? holds exactly for received, confirmed, released, in_progress, ready_to_ship |
| `Orders.Cancel` | order.rb:45-51 | where can_cancel? holds, the entries' block runs and the order becomes cancelled with cancelled_at at the clock's time, or, if the block raises, the exception propagates and nothing changes; elsewhere StateError for cancel!, block not run, nothing changes |
| `Orders.Close` | order.rb:53-59 | only a shipped order closes, running the entries' block and stamping closed_at, or, if the block raises, propagating with nothing changed; any other state raises StateError for close! with nothing changed |
| `Orders.GuardsFastForward` | order.rb:27-29 | with the order's guards, release! on confirmed always lands in ready_to_ship stamping only started_at, and start! on released in ready_to_ship stamping nothing, unless the block raises |
| `Orders.OrderCommandsNeverMisfire` | order.rb:23-25 | through an order, a command raises only StateError naming it and the current state, or the exception of a block that raises |
| `Orders.SkipsReleasedAndInProgress` | order.rb:19-29 | a sequence of commands through an order never enters released or in_progress from any other state |
| `Orders.FullLifecycle` | order.rb:9-11 | confirm!, release!, ship!, close! take a new order to closed with confirmed_at, started_at, completed_at, closed_at at the four clock times and released_at, cancelled_at unset |

## Left out

- The class-level scopes defined when the module is included (order_state.rb:8-19). They are database queries by state.
- `Order.transaction`, `cancel_production_entries` and `production_entries.each(&:consume!)`. They are persistence. The block that carries them is opaque: it returns or raises, and the model records only whether it ran or raised. The order's own fields are unchanged when it raises, because every handler yields before its `update!`. What the entries' work did before raising, and the transaction's rollback of it, are not modelled.
- `update!`, `reload`, `transaction` and the production entries are not defined in order.rb, whose persistence superclass is commented out. The model assumes the persistence layer provides them and that `update!` always succeeds.
- `reload` is modelled only as the re-read value of `can_complete?`. A block cannot change the record's other fields.
- `Time.zone.now` and `Time.now`: the clock is the `now` of an `Env`.
- The reflective lookup of `get_state` (camelize, constantize). Through it the names of the non-state classes (`base`, `cancellable`) would also resolve. So would other spellings that camelize to a state's class, such as `Received`, `IN_PROGRESS` or `in_Progress`. The resolver is modelled over the eight stored state names only.
- Exact error-message strings, including the class-name prefix of the default commands. Failures carry the command and the state as data.
- The return value of commands other than `add_part!` and `ship!`. That value is `update!`'s result or nil; `Outcome.value` is `None` there.
- The test expectation that `'closed'` resolves to the released handler (order_state_spec.rb:16-22). It contradicts the code.
- Concurrency between two transitions on the same order.
