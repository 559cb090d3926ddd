/** One actor among arbitrarily many concurrent clients, as a step machine: every event is one
    indivisible step of a client, of the loop or of the runtime, and any enabled event may come next.
    (src/environment.rs, src/addr.rs, src/addr/, src/context.rs) */
module Actors {
  import opened Messages
  import opened Sequential
  import opened Handles

  type TimerId = nat

  datatype Exit = Clean | Error(failure: Failure)

  // Where the loop stands. It is Quiet once the last `stopped` has returned, Notified once it told
  // the shared running future, Gone once its future (receiver, context, notifier) is dropped.
  datatype Phase<M> =
    | Starting
    | Idle
    | Busy(work: Work<M>, reply: Option<CallId>, pc: nat)
    | Refreshing
    | Stopping
    | Quiet
    | Notified
    | Failing(failure: Failure)
    | Gone(exit: Exit)

  datatype CallStatus<R> = Waiting | SendFailed | Replied(reply: Reply<R>) | Canceled

  datatype Outcome = SaidStopped | NotifierDropped

  // `outcome` is what the oneshot behind the shared running future resolves to, `observed` whether
  // some clone of it has been polled to that result; `output` is what the loop's task returns.
  // `handled`, `spawned` and `aborted` are logs.
  datatype Cell<M, A, C, R> = Cell(
    chan: Chan<M>,
    phase: Phase<M>,
    local: Local<A, C>,
    trace: seq<Mark>,
    handled: seq<Entry<M>>,
    calls: map<CallId, CallStatus<R>>,
    outcome: Option<Outcome>,
    observed: bool,
    output: Option<A>,
    tasks: seq<TimerId>,
    spawned: set<TimerId>,
    aborted: set<TimerId>)

  function NewCell<M, A, C, R>(l: Local<A, C>): Cell<M, A, C, R> {
    Cell(NewChan(), Starting, l, [], [], map[], None, false, None, [], {}, {})
  }

  datatype Event<M> =
    // clients
    | Clone(h: RefId, n: RefId)
    | Derive(h: RefId, n: RefId, ref: Ref<M>)
    | Upgrade(n: RefId, ref: Ref<M>)
    | Discard(h: RefId)
    | Force(payload: Payload<M>)
    | BeginSend(f: RefId, work: Work<M>)
    | BeginCall(n: RefId, f: RefId, call: CallId, work: Work<M>)
    | PollSend(f: RefId)
    | AwaitAddr(h: RefId)
    // user code running with the context in its hands
    | SpawnTimer(timer: TimerId)
    // the loop
    | Start
    | Pop
    | NoMore
    | Advance
    | Complete
    | Expire
    | Refresh
    | RunStopped
    | Notify
    | Abort
    | Leave
  {
    predicate OfLoop() {
      Start? || Pop? || NoMore? || Advance? || Complete? || Expire? || Refresh? || RunStopped? || Notify? || Abort?
            || Leave?
    }

    // Events that may create a ref.
    predicate Acquires() { Clone? || Derive? || Upgrade? || BeginSend? || BeginCall? }
  }

  function ReplyOf<M>(p: Payload<M>): Option<CallId> {
    if p.Task? then p.reply else None
  }

  function RepliesIn<M>(ps: seq<Payload<M>>): set<CallId> {
    set i | 0 <= i < |ps| && ReplyOf(ps[i]).Some? :: ReplyOf(ps[i]).value
  }

  function Settle<R>(
      calls: map<CallId, CallStatus<R>>, k: Option<CallId>, st: CallStatus<R>): map<CallId, CallStatus<R>> {
    if k.None? then calls else calls[k.value := st]
  }

  // Dropping a payload drops the sender of its reply.
  function CancelAll<R>(calls: map<CallId, CallStatus<R>>, ks: set<CallId>): map<CallId, CallStatus<R>> {
    map k | k in calls :: if k in ks then Canceled else calls[k]
  }

  // `Addr::stopped` and `Addr::running`: peeking sees a result only if some clone was polled to it,
  // and never through a handle that was itself polled to it.
  predicate SeesStopped<M, A, C, R>(c: Cell<M, A, C, R>, h: RefId)
    requires h in c.chan.refs && c.chan.refs[h].Addr?
  {
    c.observed && !c.chan.refs[h].polled
  }

  predicate UserCodeRuns<M>(ph: Phase<M>) { ph.Starting? || ph.Busy? || ph.Refreshing? || ph.Stopping? }

  predicate Can<M, A, C, R>(prog: Program<M, A, C, R>, c: Cell<M, A, C, R>, e: Event<M>) {
    var ch := c.chan;
    match e
    case Clone(h, n) =>
      h in ch.refs && (ch.refs[h].Addr? || ch.refs[h].Sender? || ch.refs[h].Caller?) && n !in ch.refs
    case Derive(h, n, r) => h in ch.refs && ch.refs[h].Addr? && (r.Sender? || r.Caller?) && n !in ch.refs
    case Upgrade(n, r) =>
      && n !in ch.refs
      && ((r.Caller? && UpgradeCaller(ch, n).Some?)
          || ((r.Sender? || (r.Addr? && (r.polled ==> c.observed))) && UpgradeBoth(ch, n, r).Some?))
    case Discard(h) => h in ch.refs
    case Force(p) => ch.force > 0 && (ReplyOf(p).Some? ==> ReplyOf(p).value !in c.calls)
    case BeginSend(f, w) => ch.tx > 0 && f !in ch.refs && w.Handle?
    case BeginCall(n, f, k, w) => ch.tx > 0 && n !in ch.refs && f !in ch.refs && n != f && k !in c.calls && w.Handle?
    case PollSend(f) => f in ch.refs && ch.refs[f].SendFut?
    case AwaitAddr(h) => h in ch.refs && ch.refs[h] == Addr(false) && c.outcome.Some?
    case SpawnTimer(t) => UserCodeRuns(c.phase) && t !in c.spawned
    case Start => c.phase == Starting
    case Pop => c.phase == Idle && ch.queue != []
    case NoMore => c.phase == Idle && ch.queue == [] && ch.mpsc == 0
    case Advance => c.phase.Busy? && c.phase.pc < Awaits(prog, c.phase.work)
    case Complete => c.phase.Busy? && c.phase.pc == Awaits(prog, c.phase.work)
    case Expire => c.phase.Busy? && prog.timeout
    case Refresh => c.phase == Refreshing
    case RunStopped => c.phase == Stopping
    case Notify => c.phase == Quiet
    case Abort => UserCodeRuns(c.phase) || c.phase == Idle
    case Leave => c.phase == Notified || c.phase.Failing?
  }

  function Next<M, A, C, R>(prog: Program<M, A, C, R>, c: Cell<M, A, C, R>, e: Event<M>): Cell<M, A, C, R>
    requires Can(prog, c, e)
  {
    var ch := c.chan;
    match e
    case Clone(h, n) => c.(chan := Acquire(ch, n, ch.refs[h]))
    case Derive(h, n, r) => c.(chan := Acquire(ch, n, r))
    case Upgrade(n, r) => c.(chan := if r.Caller? then UpgradeCaller(ch, n).value else UpgradeBoth(ch, n, r).value)
    case Discard(h) =>
      c.(chan := Release(ch, h),
         calls := if ch.refs[h].SendFut? then Settle(c.calls, ch.refs[h].reply, Canceled) else c.calls)
    case Force(p) =>
      if ch.open
      then c.(chan := Push(ch, p), calls := Settle(c.calls, ReplyOf(p), Waiting))
      else c.(calls := Settle(c.calls, ReplyOf(p), SendFailed))
    case BeginSend(f, w) => c.(chan := Acquire(ch, f, SendFut(w, None)))
    case BeginCall(n, f, k, w) =>
      c.(chan := Acquire(Acquire(ch, n, Calling(k)), f, SendFut(w, Some(k))), calls := c.calls[k := Waiting])
    case PollSend(f) =>
      var SendFut(w, k) := ch.refs[f];
      if ch.open
      then c.(chan := Become(Push(ch, Task(w, k)), f, Flush))
      else c.(chan := Release(ch, f), calls := Settle(c.calls, k, SendFailed))
    case AwaitAddr(h) => c.(chan := Become(ch, h, Addr(true)), observed := true)
    case SpawnTimer(t) => c.(tasks := c.tasks + [t], spawned := c.spawned + {t})
    case Start =>
      var s := Begin(prog, c.local);
      c.(local := s.local, trace := c.trace + [StartHook(prog.startOk(c.local))],
         phase := if s.status == Live then Idle else Failing(StartFailed))
    case Pop =>
      var p := ch.queue[0];
      c.(chan := ch.(queue := ch.queue[1..]),
         phase := match p case Task(w, k) => Busy(w, k, 0) case Restart => Refreshing case Stop => Stopping,
         handled := if p == Stop then c.handled + [Entry(Stop, Completed)] else c.handled)
    case NoMore => c.(phase := Stopping)
    case Advance =>
      var Busy(w, k, pc) := c.phase;
      c.(local := Segment(prog, w, pc, c.local), phase := Busy(w, k, pc + 1))
    case Complete =>
      var Busy(w, k, pc) := c.phase;
      c.(local := Finished(prog, w, c.local), trace := c.trace + [TaskDone], phase := Idle,
         handled := c.handled + [Entry(Task(w, k), Completed)],
         calls := Settle(c.calls, k, Replied(Answer(prog, w, c.local))))
    case Expire =>
      var Busy(w, k, pc) := c.phase;
      c.(trace := c.trace + [TaskCut], phase := if prog.failOnTimeout then Failing(TimedOut) else Idle,
         handled := c.handled + [Entry(Task(w, k), CutAt(pc))], calls := Settle(c.calls, k, Canceled))
    case Refresh =>
      var s := Sequential.Refresh(prog, State(c.local, c.trace, Live));
      c.(local := s.local, trace := s.trace, handled := c.handled + [Entry(Restart, Completed)],
         phase := if s.status == Live then Idle else Failing(RestartFailed))
    case RunStopped => c.(local := prog.stopped(c.local), trace := c.trace + [StopHook], phase := Quiet)
    case Notify => c.(outcome := Some(SaidStopped), phase := Notified)
    case Abort => AbortNow(c)
    case Leave =>
      c.(chan := CloseRx(ch), calls := CancelAll(c.calls, RepliesIn(ch.queue)),
         outcome := if c.outcome.Some? then c.outcome else Some(NotifierDropped),
         output := if c.phase == Notified then Some(c.local.actor) else None,
         phase := Gone(if c.phase == Notified then Clean else Error(c.phase.failure)),
         tasks := [], aborted := c.aborted + set t | t in c.tasks)
  }

  // A panic or the end of the runtime drops whatever the loop was awaiting.
  function AbortNow<M, A, C, R>(c: Cell<M, A, C, R>): Cell<M, A, C, R> {
    match c.phase
    case Busy(w, k, pc) =>
      c.(trace := c.trace + [TaskCut], phase := Failing(Aborted),
         handled := c.handled + [Entry(Task(w, k), AbortedAt(pc))], calls := Settle(c.calls, k, Canceled))
    case Refreshing => c.(phase := Failing(Aborted), handled := c.handled + [Entry(Restart, AbortedAt(0))])
    case _ => c.(phase := Failing(Aborted))
  }

  // ---------------------------------------------------------------- runs

  ghost predicate Run<M, A, C, R>(
      prog: Program<M, A, C, R>, c: Cell<M, A, C, R>, es: seq<Event<M>>, d: Cell<M, A, C, R>)
    decreases |es|
  {
    if es == [] then c == d else Can(prog, c, es[0]) && Run(prog, Next(prog, c, es[0]), es[1..], d)
  }

  // ---------------------------------------------------------------- the invariant

  function InFlight<M>(ph: Phase<M>): seq<Payload<M>> {
    match ph
    case Busy(w, k, _) => [Task(w, k)]
    case Refreshing => [Restart]
    case _ => []
  }

  // Nothing is lost, repeated or overtaken while the receiver lives.
  ghost predicate Flow<M, A, C, R>(c: Cell<M, A, C, R>) {
    if c.phase.Gone?
    then !c.chan.open && c.chan.queue == [] && PayloadsOf(c.handled) <= c.chan.accepted
    else c.chan.open && c.chan.accepted == PayloadsOf(c.handled) + InFlight(c.phase) + c.chan.queue
  }

  ghost function Folded<M, A, C, R>(prog: Program<M, A, C, R>, l: Local<A, C>, c: Cell<M, A, C, R>): State<A, C> {
    Fold(prog, Begin(prog, l), c.handled)
  }

  // Why the loop left its `while`: it met a Stop, or the mailbox was drained and nobody could send.
  ghost predicate Over<M, A, C, R>(prog: Program<M, A, C, R>, l: Local<A, C>, c: Cell<M, A, C, R>) {
    var s := Folded(prog, l, c);
    s.status == Broke || (s.status == Live && c.chan.mpsc == 0 && c.chan.accepted == PayloadsOf(c.handled))
  }

  ghost predicate SameAs<M, A, C, R>(c: Cell<M, A, C, R>, s: State<A, C>) {
    c.local == s.local && c.trace == s.trace
  }

  ghost predicate Tracks<M, A, C, R>(prog: Program<M, A, C, R>, l: Local<A, C>, c: Cell<M, A, C, R>) {
    var s := Folded(prog, l, c);
    match c.phase
    case Starting => c.handled == [] && c.local == l && c.trace == []
    case Idle => s.status == Live && SameAs(c, s)
    case Refreshing => s.status == Live && SameAs(c, s)
    case Busy(w, _, pc) =>
      s.status == Live && c.trace == s.trace && pc <= Awaits(prog, w) && c.local == RunSegments(prog, w, pc, s.local)
    case Stopping => Over(prog, l, c) && SameAs(c, s)
    case Quiet => Over(prog, l, c) && SameAs(c, Close(prog, s))
    case Notified => Over(prog, l, c) && SameAs(c, Close(prog, s))
    case Failing(e) => if e == Aborted then WasCut(l, c, s) else s.status == Failed(e) && SameAs(c, s)
    case Gone(Clean) => Over(prog, l, c) && SameAs(c, Close(prog, s))
    case Gone(Error(e)) => if e == Aborted then WasCut(l, c, s) else s.status == Failed(e) && SameAs(c, s)
  }

  ghost predicate WasCut<M, A, C, R>(l: Local<A, C>, c: Cell<M, A, C, R>, s: State<A, C>) {
    (c.handled == [] && c.trace == [] && c.local == l) || (SameAs(c, s) && s.status in {Live, Broke, Failed(Aborted)})
  }

  // Only a live actor is handed a message, and it ends in a way the loop allows.
  ghost predicate Fates<M, A, C, R>(prog: Program<M, A, C, R>, l: Local<A, C>, c: Cell<M, A, C, R>) {
    forall i :: 0 <= i < |c.handled| ==>
      Possible(prog, c.handled[i]) && Fold(prog, Begin(prog, l), c.handled[..i]).status == Live
  }

  // What a call that was accepted at position i must look like now.
  ghost function Verdict<M, A, C, R>(
      prog: Program<M, A, C, R>, l: Local<A, C>, c: Cell<M, A, C, R>, i: nat): CallStatus<R>
    requires i < |c.chan.accepted| && c.chan.accepted[i].Task?
  {
    if i < |c.handled| then
      if c.handled[i].fate == Completed
      then Replied(TaskAnswer(prog, c.chan.accepted[i].work, Fold(prog, Begin(prog, l), c.handled[..i]).local))
      else Canceled
    else if c.phase.Gone? then Canceled else Waiting
  }

  ghost predicate HasReply<M>(ps: seq<Payload<M>>, i: int, k: CallId) {
    0 <= i < |ps| && ps[i].Task? && ps[i].reply == Some(k)
  }

  ghost predicate Pending<M>(refs: map<RefId, Ref<M>>, f: RefId, k: CallId) {
    f in refs && refs[f].SendFut? && refs[f].reply == Some(k)
  }

  // A reply channel lives in at most one place, and the fate of that place is the fate of the call.
  ghost predicate OnePlace<M, A, C, R>(c: Cell<M, A, C, R>) {
    && (forall i, j, k :: HasReply(c.chan.accepted, i, k) && HasReply(c.chan.accepted, j, k) ==> i == j)
    && (forall f, g, k :: Pending(c.chan.refs, f, k) && Pending(c.chan.refs, g, k) ==> f == g)
    && (forall f, i, k :: Pending(c.chan.refs, f, k) ==> !HasReply(c.chan.accepted, i, k))
  }

  ghost predicate Settled<M, A, C, R>(prog: Program<M, A, C, R>, l: Local<A, C>, c: Cell<M, A, C, R>) {
    && (forall i, k :: HasReply(c.chan.accepted, i, k) ==> k in c.calls && c.calls[k] == Verdict(prog, l, c, i))
    && (forall f, k :: Pending(c.chan.refs, f, k) ==> k in c.calls && c.calls[k] == Waiting)
    && (forall k :: k in c.calls ==>
          || c.calls[k] == SendFailed || c.calls[k] == Canceled
          || (exists i :: HasReply(c.chan.accepted, i, k)) || (exists f :: Pending(c.chan.refs, f, k)))
  }

  ghost predicate Notifies<M, A, C, R>(c: Cell<M, A, C, R>) {
    && c.outcome == (match c.phase
                     case Notified => Some(SaidStopped)
                     case Gone(Clean) => Some(SaidStopped)
                     case Gone(Error(_)) => Some(NotifierDropped)
                     case _ => None)
    && (c.observed ==> c.outcome.Some?)
    && (forall h :: h in c.chan.refs && c.chan.refs[h] == Addr(true) ==> c.observed)
    && c.output == if c.phase == Gone(Clean) then Some(c.local.actor) else None
  }

  ghost predicate TimersTracked<M, A, C, R>(c: Cell<M, A, C, R>) {
    if c.phase.Gone? then c.spawned == c.aborted else c.spawned == (set t | t in c.tasks) && c.aborted == {}
  }

  ghost predicate Inv<M, A, C, R>(prog: Program<M, A, C, R>, l: Local<A, C>, c: Cell<M, A, C, R>) {
    Counted(c.chan) && Flow(c) && Tracks(prog, l, c) && Fates(prog, l, c) && OnePlace(c) && Settled(prog, l, c)
    && Notifies(c) && TimersTracked(c)
  }
}
