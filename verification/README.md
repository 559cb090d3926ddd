# A verified model of the hannibal actor runtime

hannibal runs actors: each one owns a mailbox that many clients push into and one event loop that
pops, and it lives as long as somebody holds a counted handle to it. This project models that runtime
in Dafny and proves what it guarantees over every interleaving, together with the broker, the service
registry, the join handle and the parent/child contexts built on top of it.

## How the model is organised

* `Messages`, `Sequential` and `SequentialLaws` say what an actor *means*: a fold over its mailbox in
  acceptance order. A handler is a list of segments that end at await points, so a timeout, a panic or
  a runtime shutdown can cut it at any of them and leave a half-updated actor. Hooks, handlers,
  restart strategy and timeout configuration are parameters (`Program`), so every result holds for
  every actor whose hooks, segments and answers are functions of its locals and the message. Whatever
  else a handler observes (a clock, a file, another actor's answer) counts as part of the message.
* `Meaning` says the same a second time and independently, as a relation: a path of locals, one link for
  each handled payload, each link spelled out in the actor's own hooks and segments. The fold is proved to
  be that path, `Effects` carries it to every reachable state of the machine, and the loops' contracts
  state it of what they return.
* `Handles` models the mailbox's two sending paths and the two reference counts behind them. The refs
  that exist are kept as data, the counts as separate integers; that they agree is a theorem.
* `Actors` is the concurrent machine: one indivisible event per step of a client, of user code, of the
  loop or of the runtime, any enabled event may come next. `ActorInvariant` and `CallSettlement` prove
  its invariant inductive, `ActorTheorems` states what follows for every reachable state and every run.
* `EventLoop` and `StreamLoop` are the two loops as the source writes them, as methods with loops over a
  class that owns context, mailbox and notifier. `LoopRefinement` closes the triangle: whatever the clients
  do meanwhile, an actor that is not aborted from outside ends exactly as the first loop does on the
  mailbox it turned out to accept, and whatever that loop can do some interleaving does.
* `Addresses` is what clients call on handles, as methods that update counts, queue and reply slots in
  place. Each is proved to be the machine step it stands for, and to hand its caller the right result.
* `Network`, `Broker` and `BrokerRuns`: many actors, one of which is the broker, with its own mailbox,
  loop and handles in the same machine. The broker's handlers are methods that let an arbitrary schedule
  of other actors and clients act at every await point and between any two upgrades; a `started` that
  subscribes is a sequence of steps in the broker's channel. `Serve` is the broker's loop, and everything
  it can go through is a run of the kind the theorems are about; every moment of it, also those inside a
  handler, is kept as a snapshot.
* `Registry` is the shared service map, `Services` ties its entries to refs of real actors and its flags
  to what peeking at them shows. `Joining` is the take-once join handle, `Contexts` the context's own
  lists, tied to the children's channels and to the actor's background tasks.
* `Children` is a liveness theory over infinite fair runs of a growing forest of actors, `Liveness` says
  that in such runs no accepted message starves, and `Outliving` has two such runs that contradict the
  documentation.

Library contracts are explicit rules of the machine rather than theorems: the channel is first in
first out; `next()` yields `None` only when the queue is empty and every mpsc sender is gone; dropping
the receiver drops the queued payloads and with them their reply senders, and a push after that fails;
a `send` future owns an mpsc sender from its creation and enqueues when polled; peeking at the shared
running future sees a result only after some clone was polled to it. The loop notifies before its
receiver is dropped (`src/environment.rs:131-134`), and the machine keeps that window open: a message
can be accepted in it, and is then discarded.

## Where the documentation and the code differ

The model follows the code. Three places where the repository's own words promise something else:

* `src/context.rs:89` says a child is stopped when its parent is. The code only drops the parent's
  strong sender. `Outliving.ChildOutlivesParent` is a fair run in which the parent is gone and the child
  lives on for ever, because a client holds an `Addr` of it. `Children.ChildEndsIff` is the exact
  condition: after the parent's end, a child that nobody stops and that meets no error ends if and only
  if everybody besides the parent lets go of it too. `Children.ChildCascade` is the family-wide result.
* `src/addr.rs:65` says the actor stops when the last `Addr`s are dropped. In the fair run of
  `Outliving.CallerOutlivesAddrs` they are, and the actor lives on for ever because there is a `Caller`.
  `Children.EndsIffDeserted` is the exact condition: it ends if and only if one day no `Addr`, `Sender`,
  `Caller`, call or pending send is left. Once only Callers are left nobody can stop or restart it any
  more (`ActorTheorems.NoStopWithoutForce`).
* `src/actor/service.rs:30` says registering fails if a service is running. It fails also when the
  service has ended unobserved (`Registry.EndedButListed`), or its entry is a clone that was itself
  awaited to the end (`Registry.AwaitedButListed`). `Registry.RegisterRefusal` is the exact condition.

`src/actor/build.rs:34` says that nothing needs to be reset by hand if the actor is recreated from its
default. That holds of the actor itself: `SequentialLaws.RecreateForgets` says that only the later
messages decide what it becomes. It does not extend to what the actor has set going through its context.
Background tasks and children are kept over every restart: `Outliving.TimerOutlivesRecreation` has an
interval spawned before a recreation that is still there after it, `ActorTheorems.RestartKeepsTimers`
says that the slate is clean after a restart if and only if none was ever spawned, and
`Children.HandleHeld` that added children stay added.

## Model

| member | source | states |
|---|---|---|
| `Sequential.FoldAppend` | src/environment.rs:104-129 | handling a mailbox in two goes is handling it in one |
| `Sequential.FoldFrozen` | src/environment.rs:104-129 | once the loop has left its `while`, whatever stands later in the mailbox makes no difference |
| `SequentialLaws.HookGrammar` | src/environment.rs:100-135 | for every mailbox, every pattern of cuts and every strategy the hook trace is in the language `start (task \| stop start)*`, with the restart pairs only under the strategies that run hooks, and with the one shape each failure allows |
| `SequentialLaws.HooksBalance` | src/environment.rs:100-135 | at a clean end starts and stops are equal in number; at a failed start, failed restart, fatal timeout or abort exactly one start is left over |
| `SequentialLaws.StopIsLast` | src/environment.rs:127-129 | the loop leaves through `break` exactly when the last thing it took was a Stop, and took no Stop before |
| `SequentialLaws.LiveMeansNoStop` | src/environment.rs:104-129 | a loop still running has met no Stop, and was running at every earlier position |
| `SequentialLaws.GrammarRefresh` | src/actor/restart_strategy.rs:17-37 | a restart under a hook-running strategy keeps the trace in the language, whether it succeeds or fails |
| `SequentialLaws.NonRestartableIgnoresRestarts` | src/actor/restart_strategy.rs:9-15 | under `NonRestartable` a mailbox gives the same actor, context, trace and status as the mailbox with all Restarts erased |
| `SequentialLaws.RestartOnlyIgnoresDefault` | src/actor/restart_strategy.rs:17-25 | under `RestartOnly` the default actor plays no part: with another one every mailbox gives the same actor, context, trace and status |
| `SequentialLaws.RestartOnlyKeepsActor` | src/actor/restart_strategy.rs:17-25 | and with hooks that leave the actor alone, a mailbox whose restarts succeed gives the same actor and status as the mailbox with its Restarts erased |
| `SequentialLaws.RecreateForgets` | src/actor/restart_strategy.rs:27-37 | after a successful restart from default, the actor and the status depend only on the later messages: they are those of a fresh default actor in any context |
| `SequentialLaws.FoldSameActor` | src/environment.rs:104-129 | two runs that agree on the actor go on agreeing on it and on the status, whatever their contexts, if hooks and handlers ignore the context |
| `SequentialLaws.CutsAreIsolated` | src/environment.rs:110-125 | without `fail_on_timeout` no pattern of cut tasks keeps a later task from being dispatched, and no run fails on a timeout |
| `SequentialLaws.FirstCutEnds` | src/environment.rs:112-116 | with `fail_on_timeout` the first cut task is the end: nothing later is handled, `stopped` is not run |
| `Meaning.FoldIsPath` | src/environment.rs:104-129 | what a loop handled took the locals along a path whose every link is the payload's own effect: a completed message ran its segments from first to last and then `finish`, one cut at an await point ran the segments before it and nothing else, a restart ran `stopped` and `started` (on the default actor only under `RecreateFromDefault`), a Stop and a ping did nothing |
| `Meaning.OnePath` | src/environment.rs:104-129 | the payloads and their fates allow no other path |
| `Meaning.FoldTells` | src/environment.rs:100-129 | the loop is still running exactly if the first start and every payload on the path let it go on, and its trace is what the payloads on the path ask for |
| `Meaning.TaskReturns` | src/environment.rs:110-125 | a message that runs to its end goes through all its await points, and its answer is that of the locals at the end |
| `Meaning.PathIterates` | src/environment.rs:110-125 | messages whose handlers do not suspend act one after the other: the locals are `finish` of each in turn, from what `started` left |
| `Handles.NewChanCounted` | src/environment.rs:37-62 | the channel as the environment sets it up satisfies the counting invariant with its one Addr |
| `Handles.AcquireCounted` | src/addr.rs:75-84 | cloning a path that somebody holds keeps counts and refs in agreement |
| `Handles.ReleaseCounted` | src/channel.rs:73-133 | dropping any ref keeps them in agreement, including the mpsc sender inside a closure whose last Arc goes |
| `Handles.BecomeCounted` | src/channel.rs:77-86 | enqueueing a send's payload, or polling an Addr, changes no count |
| `Handles.CountsByKind` | src/addr/caller.rs:32-71 | first count = Addrs + Senders + Callers + Caller calls in flight; second count = Addrs + Senders |
| `Handles.ForceBelowTx` | src/addr/sender.rs:43-80 | the second count never exceeds the first, so zipping two upgrades is decided by the second; without mpsc senders there is no strong handle |
| `Handles.Held` | src/addr/sender.rs:43-80 | whoever holds a ref keeps alive each path it holds, and the mailbox |
| `ActorInvariant.CountedStep` | src/addr.rs:75-190 | every step of every client, the loop and the runtime keeps both Arc counts and the mpsc count exact |
| `ActorInvariant.FlowStep` | src/environment.rs:104-129 | every step keeps: accepted = handled ++ in flight ++ queued while the receiver lives |
| `ActorInvariant.TracksStep` | src/environment.rs:100-135 | every step keeps the actor, its context and its hook trace equal to the fold over what was handled |
| `ActorInvariant.FatesStep` | src/environment.rs:81-125 | only a running actor is ever handed a message, and tasks are cut only by a configured timeout, at one of their await points |
| `ActorInvariant.GrowthNeedsSenders` | src/channel.rs:96-133 | once every mpsc sender is gone nothing can be accepted any more and no sender can come back |
| `CallSettlement.SettledStep` | src/addr.rs:105-132 | every step keeps: a reply channel is in at most one place, and the status of its call is what that place implies |
| `ActorTheorems.InvStep` | src/environment.rs:96-138 | the whole invariant is kept by every event of the machine |
| `ActorTheorems.ReachedInv` | src/environment.rs:96-138 | it holds in every state that any interleaving reaches from a new actor |
| `ActorTheorems.SequentialRefinement` | src/environment.rs:100-135 | in every reachable state accepted = handled ++ executing ++ queued until the exit, and actor, context and hooks are those of the sequential fold over the handled prefix in acceptance order, plus the finished segments of the task in flight; an abort leaves them where the fold puts them, or untouched before the first start |
| `ActorTheorems.NothingAfterStop` | src/environment.rs:127-129 | in no reachable state has anything behind the earliest Stop been dispatched |
| `ActorTheorems.CleanEnd` | src/environment.rs:104-134 | leaving through the end means: if a Stop was accepted, exactly the messages up to the earliest one were dispatched; otherwise every accepted message was, and nobody can send any more |
| `ActorTheorems.HooksWhileRunning` | src/environment.rs:100-129 | while the loop runs its hooks are in the language and one start ahead of the stops |
| `ActorTheorems.HooksAtCleanEnd` | src/environment.rs:131-134 | after a clean end starts equal stops and the last hook was the one final `stopped` |
| `ActorTheorems.HooksAtFailure` | src/environment.rs:101-116 | after a failed start, failed restart or fatal timeout one start lacks its stop and the trace has that failure's shape |
| `ActorTheorems.TimeoutsTolerated` | src/environment.rs:116-123 | without `fail_on_timeout` no reachable actor ever ends on a timeout |
| `ActorTheorems.TimeoutsFatal` | src/environment.rs:112-116 | with it a cut task is the last one handled, the loop ends with the timeout, `stopped` does not run and nobody is told the actor stopped |
| `ActorTheorems.CallOutcome` | src/addr.rs:105-132 | a call or ping has reply r if and only if its task ran to completion and r is what the sequential machine answers at that place in the acceptance order, for Addr and Caller calls alike |
| `ActorTheorems.NoCallLeftBehind` | src/environment.rs:81-135 | once the loop is gone, on any path, no accepted call is left waiting: it has its reply or was canceled; a call told of a send error was never accepted |
| `ActorTheorems.WaitsExactly` | src/addr.rs:105-132 | a call has no outcome yet exactly while its payload waits in a send that was not polled, or was accepted by a loop that is not gone and has not got through it |
| `ActorTheorems.RefusedExactly` | src/channel.rs:77-94 | a call is told of a send error exactly if, at some step of the run, its task was to be enqueued and the receiver was gone |
| `ActorTheorems.SettlesOnce` | src/addr.rs:105-132 | a call that has settled in any reachable state stays as it settled over any run from there |
| `ActorTheorems.AbortsAnywhere` | src/environment.rs:96-138 | a panic or the end of the runtime can strike at any moment before the last `stopped` has returned; then nobody is told the actor stopped, none is returned, every background task is aborted, and every accepted call not answered before is canceled |
| `ActorTheorems.ReplyMeansStarted` | src/addr.rs:121-132 | whoever got an answer, if only to a ping, knows that the first `started` returned Ok |
| `ActorTheorems.HandleCounts` | src/addr/weak_caller.rs:44-53 | in every reachable state the counts are the numbers of living handles by kind; weak addresses and senders upgrade if and only if an Addr or Sender lives, weak callers if and only if any handle or Caller call does |
| `ActorTheorems.NoStopWithoutForce` | src/context.rs:76-82 | once the second count is zero it stays zero over any run and no Stop or Restart is ever accepted again, though Callers may keep the actor alive |
| `ActorTheorems.StopNotification` | src/addr.rs:97-103 | awaiting an address gives Ok exactly when the loop passed its final `stopped` and notified, Canceled exactly when it ended otherwise; `stopped()` is true only then |
| `ActorTheorems.OutcomeIsFinal` | src/context.rs:13-19 | every clone sees the same outcome, at every later moment |
| `ActorTheorems.StoppedStays` | src/addr.rs:101-103 | a handle for which `stopped()` is true goes on saying so over any run until it is itself awaited or dropped |
| `ActorTheorems.NoOrphanedTimers` | src/context.rs:65-71 | in every reachable state all background tasks ever spawned are tracked and none is aborted, over all restarts; after the loop is gone on any path all of them have been aborted |
| `ActorTheorems.RestartKeepsTimers` | src/environment.rs:106-109 | a restart under any strategy keeps and aborts no background task and drops nothing of the channel; none is left after it if and only if none was ever spawned |
| `ActorTheorems.TimersOnlyJoin` | src/context.rs:190-195 | over any run of a loop that is not gone, whatever restarts it meets, background tasks only join and none is aborted |
| `Outliving.TimerOutlivesRecreation` | src/actor/restart_strategy.rs:27-37 | a run in which an interval spawned by `started` is still there, not aborted, after the actor was recreated from its default |
| `ActorTheorems.ReturnedActor` | src/environment.rs:131-134 | the loop's task returns an actor exactly after a clean end, and it is the one the sequential run leaves after its final `stopped` |
| `Effects.HandledPath` | src/environment.rs:96-138 | at every moment of every interleaving the locals are at the end of the path of what was handled, or inside the handler in flight after its finished segments, or behind the final `stopped`; the actor returned at a clean end is the latter |
| `Effects.HandledHooks` | src/environment.rs:100-135 | along that path the loop went on after every message but the last, runs now exactly if it went on after all, and has run just the hooks the messages ask for, with one final `stopped` at a clean end |
| `Effects.HandledAnswers` | src/addr.rs:105-132 | a call has the reply r exactly if its task ran to its end, and r is what the handler's own answer says of the locals there; a ping answers itself |
| `EventLoop.Environment.Refresh` | src/actor/restart_strategy.rs:9-37 | the three strategies, run statement by statement, do what the sequential restart does, and that is: nothing; `started` on what `stopped` left; or `started` on the default actor in the context that `stopped` left |
| `EventLoop.Environment.TimeoutFut` | src/environment.rs:81-93 | racing a task against the delay leaves exactly the segments run before the delay fired, or, if it did not, all of them and then `finish` |
| `EventLoop.Environment.LoopBody` | src/environment.rs:100-135 | the loop consumes the shortest prefix of the mailbox after which the sequential machine is no longer live, or all of it; it leaves that machine's context and hooks, returns its actor or failure, and notifies exactly on Ok |
| `EventLoop.Environment.CreateLoop` | src/environment.rs:96-138 | said without the sequential machine: the consumed payloads took the locals along the path of their own effects; each but the last let the loop go on; it returns Ok exactly if it took a Stop or the mailbox ended, with what one more `stopped` makes of the end of the path, else the error of its last payload; the hooks are those of the path |
| `EventLoop.PlainLoop` | src/environment.rs:104-134 | a mailbox of messages whose handlers do not suspend and are not cut, up to its end or first Stop, returns the actor that `finish` iterated over them and one `stopped` give |
| `EventLoop.DispatchedNext` | src/environment.rs:104-129 | one turn of the loop is one application of the sequential machine |
| `StreamLoop.PartsMakeTheWhole` | src/environment.rs:152-176 | the handled trace of the stream loop consists of its mailbox part and its stream part and nothing else |
| `StreamLoop.TakePayload` | src/environment.rs:154-165 | taking from the mailbox keeps the trace an interleaving of a prefix of everything accepted and a prefix of the stream |
| `StreamLoop.TakeItem` | src/environment.rs:166-172 | so does taking from the stream |
| `StreamLoop.StreamEnvironment.Race` | src/environment.rs:152-176 | for any number of races, whoever is ready and wins, whatever clients get accepted meanwhile and however long the stream goes on: what was handled interleaves a prefix of everything accepted and a prefix of the stream, each in its order with nothing lost or repeated; only its last input can be a Stop or a Restart; each way to end the loop has its reason; each task taken has answered, all other calls wait. And nobody who is ready is passed over: each race that was held and found the stream ready took its item, each that found the mailbox ready took a payload unless all that had arrived was taken and more could come; every input was taken at its own race, and the races stop only where the end was decided |
| `StreamLoop.SettledEvent` | src/environment.rs:154-165 | taking a payload settles its call, with the answer of its task at that place, and no other |
| `StreamLoop.StreamEnvironment.CreateLoopOnStream` | src/environment.rs:140-186 | a clean exit happens if and only if a Stop was reached, the mailbox was closed and drained or the stream was used up, and then `finished` and `stopped` ran once each in this order; a Restart is an error exit; cut off at any race it has run neither. At the end, also after the panic or a failed start, every call whose task was taken has the answer its task gave at that place among payloads and items, and every other accepted call is canceled. The races it held are played as `Race` says |
| `StreamLoop.TakenInTurn` | src/environment.rs:152-176 | a payload that has arrived when a race begins, behind n tasks, is taken if the mailbox is found ready at more than n races from then on, unless the stream ends first; if it is a Stop the loop ends there, so the actor is returned, and if it is a Restart it panics there |
| `StreamLoop.KeepsTaking` | src/environment.rs:154-165 | whatever had arrived when race a began is taken at the mailbox's turns, one at each |
| `StreamLoop.AbsorbIsPath` | src/environment.rs:152-172 | the locals of the stream loop go along the path of its inputs' own effects: `handle` for an item, all segments and `finish` for a task |
| `StreamLoop.RepliesAlong` | src/environment.rs:154-156 | each reply is what the handler's own answer says of the locals at its end on that path |
| `LoopRefinement.MachineRunsLoop` | src/environment.rs:96-138 | every interleaving that was not aborted from outside ends exactly as the loop does on the mailbox it accepted: same consumed prefix, hooks, context and result |
| `LoopRefinement.LoopRunsOnMachine` | src/environment.rs:96-138 | and conversely: for every mailbox and every time at which its delays fire, some interleaving of clients and loop accepts just that mailbox and ends as the loop does on it |
| `LoopRefinement.SameDispatch` | src/environment.rs:104-129 | the delays read off an interleaved run make the loop handle the same entries with the same fates |
| `Addresses.Shared.ForceSend` | src/channel.rs:88-94 | a force send is accepted at once or fails because the receiver is gone; it never waits |
| `Addresses.Shared.Stop` | src/addr.rs:87-90 | puts exactly one Stop into the mailbox, or fails and changes nothing there |
| `Addresses.Shared.Restart` | src/addr.rs:196-199 | likewise for Restart |
| `Addresses.Shared.CtxStop` | src/context.rs:76-82 | stopping from inside is refused exactly when no Addr or Sender is left, and otherwise is a force send of Stop |
| `Addresses.Shared.CtxRestart` | src/context.rs:265-271 | likewise for Restart |
| `Addresses.Shared.Call` | src/addr.rs:105-132 | the task with its reply channel is accepted and the call waits, or the call fails at once |
| `Addresses.Shared.PollReply` | src/addr.rs:105-132 | in every reachable state awaiting a call gives: nothing yet exactly while its task waits to be enqueued or to be got through by a loop that is not gone; r exactly if the task ran to completion with the sequential answer r; a send error exactly if it was refused at some step because the receiver was gone; and else Canceled, and then no future of the run brings an answer |
| `Addresses.Shared.Send` | src/addr/sender.rs:31-54 | creating a `Sender`'s send future clones the mpsc sender and accepts nothing yet |
| `Addresses.Shared.AddrSend` | src/addr.rs:147-157 | an `Addr`'s async send does nothing before its first poll, which clones and then enqueues or fails |
| `Addresses.Shared.PollSendFuture` | src/channel.rs:77-86 | polling it enqueues its payload, or fails because the receiver is gone and settles its call |
| `Addresses.Shared.CallerCall` | src/addr/caller.rs:38-57 | a Caller call holds a clone of the awaiting path beside its pending send |
| `Addresses.Shared.Clone` | src/addr.rs:75-84 | a clone counts on the same paths as its original |
| `Addresses.Shared.Derive` | src/addr.rs:163-182 | a Sender made from an Addr counts on both paths, a Caller on one |
| `Addresses.Shared.IntoSender` | src/addr/sender.rs:112-123 | turning an Addr into a Sender exchanges one ref for the other; the counts never drop in between |
| `Addresses.Shared.UpgradeStrong` | src/addr/weak_sender.rs:52-69 | upgrading a weak address or sender succeeds if and only if an Addr or Sender lives |
| `Addresses.Shared.UpgradeToCaller` | src/addr/weak_caller.rs:44-53 | upgrading a weak caller succeeds if and only if any handle or Caller call lives |
| `Addresses.Shared.TryForceSend` | src/addr/weak_sender.rs:28-34 | an interval's tick is accepted, refused as already stopped exactly when no Addr or Sender lives, or fails on a dropped receiver, and leaves no handle behind |
| `Addresses.Shared.DropStrong` | src/addr/sender.rs:23-28 | dropping an Addr or Sender releases both paths, and the senders inside the closures with the last of each |
| `Addresses.Shared.DropCaller` | src/addr/caller.rs:17-21 | dropping a Caller or one of its calls releases the awaiting path alone |
| `Addresses.Shared.DropFuture` | src/channel.rs:77-86 | dropping a send future that was never polled drops its payload and cancels its call |
| `Addresses.Shared.PollAddr` | src/addr.rs:202-210 | polling an address is pending until there is an outcome, then Ok exactly for a notified stop |
| `Network.RelyStep` | src/addr/weak_sender.rs:52-69 | no step of another thread revives an actor that cannot be upgraded, reopens a mailbox, makes a broker copy or drops what the broker holds |
| `Network.RelyTrans` | src/broker.rs:97-101 | nor does any number of such steps |
| `Network.AliveStep` | src/addr/weak_sender.rs:61-66 | a failed upgrade can never later succeed |
| `Network.SoundStep` | src/context.rs:173-178 | every lawful step of any actor keeps the whole machine sound: each actor's invariant, the broker up with only named requests accepted, each awaited Subscribe pending or accepted, and every actor that subscribes in `started` and is past it known to the broker's mailbox |
| `Network.PollAskSound` | src/broker.rs:146-150 | polling the awaited Subscribe puts it into the broker's mailbox, whose receiver is there |
| `Network.Net.Interfere` | src/broker.rs:97-101 | an arbitrary schedule of other actors, clients, newcomers and subscribing `started` hooks, run between two steps of the broker, is such interference and leaves the broker's loop where it stands; each move that is possible and lawful when its turn comes is made |
| `Network.RequestArrives` | src/broker.rs:140-156 | a publish, subscribe or unsubscribe that a client sends and awaits stands in the broker's mailbox behind all others |
| `Broker.Collect` | src/broker.rs:92-96 | each subscriber is collected if and only if it could be upgraded at the moment it was tried, and those not collected can never be upgraded again, however others interfere between the upgrades |
| `Broker.Send` | src/broker.rs:98-98 | one subscriber is offered exactly one copy: it has it unless its mailbox closed; nobody else gets one |
| `Broker.SendAll` | src/broker.rs:97-101 | the loop offers each collected subscriber exactly one copy, with interference around every await |
| `Broker.Retain` | src/broker.rs:108-109 | pruning keeps exactly the collected subscribers, because the collected strong senders outlive it |
| `Broker.StillUpgradeable` | src/broker.rs:108-109 | while the collected senders are held, a subscriber can be upgraded if and only if it was collected |
| `Broker.LoanKeepsAlive` | src/addr/sender.rs:43-80 | a strong sender on the broker's stack keeps its actor upgradeable |
| `Broker.OneOffer` | src/channel.rs:77-86 | polling the future of one copy adds that copy to the subscriber's accepted messages, or its mailbox was closed |
| `Broker.PublishDone` | src/broker.rs:91-110 | collecting, sending, pruning and releasing together amount to one publish, and the remaining keys are the collected ones |
| `Broker.Broker.HandlePublish` | src/broker.rs:91-110 | however others interfere at each await: the remaining keys are exactly the subscribers that could be upgraded when they were tried, every other one can never be again, each remaining one has exactly one copy more unless its mailbox closed, nobody else got any, and the logged number is theirs |
| `BrokerRuns.Serve` | src/environment.rs:100-135 | the broker's loop, spawned through the registry and served for any number of turns under any schedule of everybody else, goes through a run: it takes its accepted messages in order, and each handler does to the map and to all actors what the run relation says. In each turn everybody else makes the moves of the schedule, and then, if anything is accepted that was not handled, the next of it is taken and worked off |
| `BrokerRuns.KeepsUp` | src/environment.rs:104-125 | so the broker keeps up: of what was accepted when turn i began it has handled, any number of turns later, one request for each turn since, or all of it |
| `BrokerRuns.LoggedWasHandled` | src/environment.rs:104-125 | whatever it has handled was worked off at a turn of its own, so that what `TurnDelivers` says of turns holds of each publish handled |
| `BrokerRuns.Handle` | src/broker.rs:90-137 | the three handlers, under interference, do to map and actors what a run asks of their request |
| `BrokerRuns.LogOfInbox` | src/environment.rs:104-125 | what the broker handled is a prefix of what it accepted, and names only actors that exist |
| `BrokerRuns.RunKeeps` | src/broker.rs:90-137 | between any two turns of every run each actor's copies are a beginning of what it is owed, complete while it can be upgraded and its mailbox is open, and who is subscribed and can be upgraded is in the map |
| `BrokerRuns.EffectServes` | src/broker.rs:90-137 | each of the three handlers keeps that, for every actor |
| `BrokerRuns.BrokerOrder` | src/broker.rs:90-137 | the order theorem in terms of the handled log: owed is one copy of every publish handled while subscribed |
| `BrokerRuns.OwedExactly` | src/broker.rs:125-137 | a publish is owed if and only if its place in the handling order lies within a subscription |
| `BrokerRuns.OwedIncreases` | src/broker.rs:90-111 | what is owed is strictly increasing in the handling order |
| `BrokerRuns.NoDuplicatesOneOrder` | src/broker.rs:90-137 | at every moment, also inside the handlers, no actor has got a publish twice, and all get theirs in the broker's handling order, however often they subscribe or restart |
| `BrokerRuns.CommonOrder` | src/broker.rs:90-111 | any two actors, at any two moments, have the publishes they share in the same order |
| `BrokerRuns.Contiguous` | src/broker.rs:90-137 | at every moment, between two copies an actor received, it received every publish handled in between unless it unsubscribed: the copies are a contiguous segment |
| `BrokerRuns.KeysAreTheUpgradeable` | src/broker.rs:92-109 | in every run a publish keeps a subscriber if and only if it could be upgraded at the moment of the turn at which it was tried; what it drops can never be upgraded again |
| `BrokerRuns.LaterMoments` | src/broker.rs:90-137 | copies once received and messages once accepted by the broker stay, in order |
| `BrokerRuns.AnswerMeansAsked` | src/addr.rs:121-132 | an answer from an actor that subscribes in `started`, if only to a ping, means its Subscribe stands in the broker's mailbox |
| `BrokerRuns.TurnDelivers` | src/broker.rs:91-110 | a turn of the loop on a publish enqueues the copy at every actor it keeps, and at every subscribed one that can still be upgraded at its end, if the mailbox is open |
| `BrokerRuns.CausalDelivery` | src/context.rs:173-178 | an actor subscribes in `started`, and at any moment t a client has an answer from it. Then its Subscribe was accepted before t, and every publish accepted after t reaches it for good if the broker can upgrade it when the publish's turn comes and its mailbox stays open for the turn, unless it was unsubscribed in between; over all interleavings of subscriber, broker, clients and everybody else |
| `Registry.Registry.Register` | src/actor/service.rs:32-56 | succeeds exactly when the key is free or its entry is seen stopped, and then lists the new handle and returns it with the one displaced; on refusal nothing changes |
| `Registry.Registry.Replace` | src/actor/service.rs:61-68 | always lists the new handle and returns the old one |
| `Registry.Registry.Unregister` | src/actor/service.rs:71-78 | removes the entry and returns it |
| `Registry.Registry.FromRegistryAndSpawn` | src/actor/service.rs:158-180 | returns the handle listed before if it is not seen stopped, and changes nothing; otherwise, and only then, it spawns an instance, lists it and returns its handle; other keys are untouched |
| `Registry.Registry.TryFromRegistry` | src/actor/service.rs:112-120 | returns the listed handle unless the lock is taken, there is none or it is seen stopped |
| `Registry.DowncastSucceeds` | src/actor/service.rs:36-53 | over every history, with replace and unregister, each entry holds an address of its key's type, so no downcast fails |
| `Services.AtMostOneLoop` | src/actor/service.rs:32-180 | at every moment of every run of actors, clients and registry operations without replace and unregister, of all instances ever stored under a key at most one has a loop that has neither notified nor left, and it is the one listed |
| `Services.DisplacedLoopEnded` | src/actor/service.rs:36-47 | an entry gives way only to a move made after the loop it names has notified or left |
| `Services.StoppedIsSeen` | src/addr.rs:97-103 | what the registry takes for stopped is what peeking through the listed clone shows |
| `Services.LinkedLock` | src/actor/service.rs:32-180 | every registry operation keeps each entry an undropped, unawaited clone of an Addr in its actor's channel |
| `Services.LinkedDo` | src/actor/service.rs:20-21 | so does every step of every actor and its clients |
| `Registry.RegisterRefusal` | src/actor/service.rs:28-47 | the code refuses exactly the running services if and only if the listed one, if it has ended, was observed to and its own handle was not awaited to the end |
| `Registry.EndedButListed` | src/actor/service.rs:166-173 | a history after which an ended service nobody awaited is still handed out and cannot be registered over |
| `Registry.AwaitedButListed` | src/actor/service.rs:36-46 | a history after which a service whose end everybody observed cannot be registered over, because the listed clone was itself awaited |
| `Joining.OwningAddr.Poll` | src/actor/spawner/tokio_spawner.rs:16-29 | polling a join future takes the task's handle if it is still there and gives the task's output when it is over, else gives None at once |
| `Joining.TakenOnceStep` | src/actor/spawner/tokio_spawner.rs:18-27 | every creation, poll and drop of a join keeps: at most one has or had the handle |
| `Joining.JoinRun` | src/addr.rs:229-247 | that, that the handle is not lost, and the actor's own invariant hold over every interleaving of the actor's steps and its owner's joins |
| `Joining.ActorReturnedOnce` | src/addr.rs:228-247 | over any sequence of joins, overlapping or abandoned, at most one yields the actor; it is the state after the final `stopped` of a loop that ended cleanly; every other completed join yields None |
| `Joining.ActorNotLost` | src/actor/spawner/tokio_spawner.rs:16-29 | and the actor is not lost: after a clean end, once the handle was taken, some join has yielded the actor, unless the one that took it still waits to be polled or was dropped |
| `Contexts.Context.Drop` | src/context.rs:65-71 | dropping the context does to its background tasks what the end of the loop does in the machine, and every child loses exactly the refs this context held |
| `Contexts.Context.DropChildren` | src/context.rs:61-61 | dropping the children's senders discards each one's ref in its own channel and nothing else, however often a child was added |
| `Contexts.Context.SpawnTask` | src/context.rs:190-195 | the context's handles and aborts go on mirroring the tasks of its actor, with a fresh handle for the new one |
| `Contexts.Tick` | src/context.rs:213-220 | an aborted interval sends nothing any more; a living one sends its message and goes on exactly if an Addr or Sender lives and the mailbox is open, else it ends; it leaves no handle behind |
| `Contexts.Context.AddChild` | src/context.rs:90-92 | the Addr given becomes a Sender in the child's channel that the context holds, so the child can be reached whatever becomes of everybody else's handles, and the context goes on holding the others |
| `Children.MeasureDrops` | src/environment.rs:104-134 | every step of a loop lowers its measure: queued messages with their await points, and the steps to its end |
| `Children.Deserted` | src/channel.rs:96-99 | an actor without any ref can always go on until it is gone |
| `Children.DrainedEndsIffDeserted` | src/channel.rs:96-99 | an idle actor with an empty mailbox can go on to its end if and only if no handle and no pending send is left |
| `Children.DesertedStep` | src/channel.rs:96-99 | nobody finds a way back to a deserted actor, and nothing raises its measure |
| `Children.HandleDropped` | src/context.rs:61-71 | when a parent is gone, on whatever path, its sender to each child, whenever it was added, is gone and never comes back |
| `Children.HandleHeld` | src/context.rs:61-61 | an added child stays added over every restart of its parent, until the parent is gone |
| `Children.EventuallyDeserted` | src/context.rs:87-105 | a child whose parent is gone and whose other refs are temporary is deserted some day |
| `Children.DesertedEnds` | src/environment.rs:104-134 | in every fair run a deserted actor ends |
| `Children.EndsIffDeserted` | src/addr.rs:64-66 | in every fair run an actor that nobody stops and that meets no error ends if and only if one day no Addr, Sender, Caller, call or pending send is left |
| `Children.ChildEndsIff` | src/context.rs:87-92 | after its parent's end such a child ends if and only if everybody else lets go of it |
| `Outliving.ChildOutlivesParent` | src/context.rs:87-92 | a fair run in which a child was added, its parent ended cleanly, and the child never ends |
| `Outliving.CallerOutlivesAddrs` | src/addr.rs:64-66 | a fair run in which the last Addr is dropped and the actor never ends |
| `Liveness.HandledOneDay` | src/environment.rs:104-129 | in every fair run of an actor that nobody stops and that meets no error, each message it has accepted is handled one day, however many arrive behind it; so the broker handles every publish it accepts |
| `Liveness.AnsweredOneDay` | src/addr.rs:105-132 | and each call it has accepted is answered, or canceled by a timeout |
| `Liveness.StepWithin` | src/environment.rs:104-129 | no step of anybody moves an accepted message away from its turn, and every step of the loop brings it nearer |
| `Children.ChildCascade` | src/context.rs:65-105 | once an actor is gone, on any path, every descendant, spawned and added at whatever time, whose refs besides its parent's are temporary and finitely many ends too, in every fair run |
| `Children.CascadeDrains` | src/environment.rs:104-134 | and from then on it stays gone, and if it ended cleanly it had dispatched everything it accepted, or everything up to its earliest Stop |

## Left out

- The capacity of bounded channels: the code says itself that forcing ignores the bound (`src/channel.rs:90-92`) and each `send` polls a fresh clone, so it would rest on the channel library's internals. Order, closing and non-loss are modelled. A send future is therefore pending only until it is polled.
- Real time: a timeout is a cut at any await point, a tick is a send at any moment, a sleep is nothing.
- The inside of tokio, async-std, the futures channels, `Shared`, `abortable` and `async_lock`: used as the contracts listed above.
- Completeness of `running()` and `stopped()`: an actor that stopped without anyone awaiting it still reports running, because peeking sees only polled results. Soundness is proved, and the registry results take the gap into account.
- `already_running` (`src/actor/service.rs:96-104`): it returns `stopped`, the opposite of its name, so there is no promise to prove.
- Hooks (`started`, `stopped`, refresh, `finished`) change the actor in one step each. Clients can act before and after; while a hook runs the loop touches only its own locals, which no client sees. Timers and sends issued from hooks are separate events, and so is the Subscribe that a `started` awaits. An abort can hit a hook, and then leaves the locals as they were before it.
- The default actor of a restart is one value, not a fresh computation with effects of its own.
- On an error exit the drop of receiver, context and notifier is one step; on a clean exit the notification is a step of its own, because the code puts it before the return.
- Zipping the two upgrades of a weak address or sender is one step. Between the two, another thread could drop the last strong handle; the result would again be a failed upgrade.
- Weak handles are not tracked one by one: an upgrade can be tried at any time, which is what holding a weak handle permits.
- Actors that store their own strong address or send it to themselves, and calls to oneself that deadlock.
- A broker that is stopped, replaced, unregistered, timed out or cut off by the end of the runtime: the broker theorems are about one spawned through the registry and left alone. Its type rules out restarts.
- The walking order of the broker's map: arbitrary in the model, as a hash map's is. The number in a copy's stamp is only there to tell copies apart.
- The stream loop is not an event of the concurrent machine but a loop of its own: its clients are an arbitrary sequence of arrivals and a moment at which the last sender goes, its handlers run uncut because it ignores the timeout, and it can be cut off between any two races. Order, exits, hooks and the settlement of every call are proved for it there.
- Fairness of the runtime, and that refs other than the parents' are temporary and finitely many, are hypotheses of the cascade, as the property needs them.
- The builder, the other spawners, derive macros, logging, the display and wrap-around of context ids, and the compile-fail tests: they add no behaviour to the above, or are settled by the Rust type checker.
