/** What holds in every state that any interleaving of clients, loop and runtime can reach. */
module ActorTheorems {
  import opened Messages
  import opened Sequential
  import opened SequentialLaws
  import opened Handles
  import opened Actors
  import opened ActorInvariant
  import opened CallSettlement

  // ---------------------------------------------------------------- runs keep the invariant

  lemma InvInit<M, A, C, R>(prog: Program<M, A, C, R>, l: Local<A, C>)
    ensures Inv(prog, l, NewCell(l))
  {
    NewChanCounted<M>();
  }

  lemma InvStep<M, A, C, R>(prog: Program<M, A, C, R>, l: Local<A, C>, c: Cell<M, A, C, R>, e: Event<M>)
    requires Inv(prog, l, c) && Can(prog, c, e)
    ensures Inv(prog, l, Next(prog, c, e))
  {
    CountedStep(prog, c, e);
    FlowStep(prog, c, e);
    TracksStep(prog, l, c, e);
    FatesStep(prog, l, c, e);
    SettledStep(prog, l, c, e);
    NotifiesStep(prog, c, e);
    TimersStep(prog, c, e);
  }

  lemma {:induction false} InvRun<M, A, C, R>(
      prog: Program<M, A, C, R>, l: Local<A, C>, c: Cell<M, A, C, R>, es: seq<Event<M>>, d: Cell<M, A, C, R>)
    requires Inv(prog, l, c) && Run(prog, c, es, d)
    ensures Inv(prog, l, d)
    decreases |es|
  {
    if es != [] {
      InvStep(prog, l, c, es[0]);
      InvRun(prog, l, Next(prog, c, es[0]), es[1..], d);
    }
  }

  // c is what some interleaving of any length leads to from an actor just created with locals l.
  ghost predicate Reaches<M, A, C, R>(
      prog: Program<M, A, C, R>, l: Local<A, C>, es: seq<Event<M>>, c: Cell<M, A, C, R>) {
    Run(prog, NewCell(l), es, c)
  }

  lemma ReachedInv<M, A, C, R>(prog: Program<M, A, C, R>, l: Local<A, C>, es: seq<Event<M>>, c: Cell<M, A, C, R>)
    requires Reaches(prog, l, es, c)
    ensures Inv(prog, l, c)
  {
    InvInit(prog, l);
    InvRun(prog, l, NewCell(l), es, c);
  }

  // The part of the invariant that does not speak of calls.
  lemma ReachedLoop<M, A, C, R>(prog: Program<M, A, C, R>, l: Local<A, C>, es: seq<Event<M>>, c: Cell<M, A, C, R>)
    requires Reaches(prog, l, es, c)
    ensures Counted(c.chan) && Flow(c) && Tracks(prog, l, c) && Fates(prog, l, c) && Notifies(c) && TimersTracked(c)
  {
    ReachedInv(prog, l, es, c);
  }

  // ---------------------------------------------------------------- sequential refinement

  // Whatever the interleaving: until the exit the accepted messages are the handled ones, the one in
  // flight and the queued ones, in this order, and the actor is where the sequential fold over the
  // handled prefix puts it (plus the segments of the task in flight). An abort leaves it where it was
  // cut: before its start, or where the fold puts it.
  lemma SequentialRefinement<M, A, C, R>(
      prog: Program<M, A, C, R>, l: Local<A, C>, es: seq<Event<M>>, c: Cell<M, A, C, R>)
    requires Reaches(prog, l, es, c)
    ensures !c.phase.Gone? ==> c.chan.accepted == PayloadsOf(c.handled) + InFlight(c.phase) + c.chan.queue
    ensures PayloadsOf(c.handled) <= c.chan.accepted && Fates(prog, l, c)
    ensures var s := Fold(prog, Begin(prog, l), c.handled);
            match c.phase
            case Starting => c.handled == [] && c.local == l
            case Idle => State(c.local, c.trace, Live) == s
            case Refreshing => State(c.local, c.trace, Live) == s
            case Busy(w, _, pc) => s.status == Live && c.trace == s.trace
                  && c.local == RunSegments(prog, w, pc, s.local)
            case Stopping => State(c.local, c.trace, s.status) == s && s.status in {Live, Broke}
            case Quiet => State(c.local, c.trace, s.status) == Close(prog, s) && s.status in {Live, Broke}
            case Notified => State(c.local, c.trace, s.status) == Close(prog, s) && s.status in {Live, Broke}
            case Failing(e) => if e == Aborted then WasCut(l, c, s) else State(c.local, c.trace, Failed(e)) == s
            case Gone(Clean) => State(c.local, c.trace, s.status) == Close(prog, s) && s.status in {Live, Broke}
            case Gone(Error(e)) => if e == Aborted then WasCut(l, c, s) else State(c.local, c.trace, Failed(e)) == s
  {
    ReachedLoop(prog, l, es, c);
  }

  // ---------------------------------------------------------------- how a loop ends

  // At no time has anything behind the earliest accepted Stop been dispatched.
  lemma NothingAfterStop<M, A, C, R>(prog: Program<M, A, C, R>, l: Local<A, C>, es: seq<Event<M>>, c: Cell<M, A, C, R>)
    requires Reaches(prog, l, es, c)
    ensures forall i :: 0 <= i < |c.handled| - 1 ==> c.handled[i].payload != Stop
  {
    ReachedLoop(prog, l, es, c);
    StopsLast(prog, l, c);
  }

  lemma StopsLast<M, A, C, R>(prog: Program<M, A, C, R>, l: Local<A, C>, c: Cell<M, A, C, R>)
    requires Fates(prog, l, c)
    ensures forall i :: 0 <= i < |c.handled| - 1 ==> c.handled[i].payload != Stop
    ensures Begin(prog, l).status == Live && Folded(prog, l, c).status in {Live, Broke} ==>
              (Folded(prog, l, c).status == Broke <==> c.handled != [] && c.handled[|c.handled| - 1].payload == Stop)
  {
    var s := Begin(prog, l);
    if c.handled != [] {
      if s.status != Live { FoldStuck(prog, s, c.handled[..|c.handled| - 1]); }
      StopIsLast(prog, s, c.handled);
    }
  }

  // Everything up to the earliest accepted Stop was dispatched and nothing after it; or no Stop was
  // ever accepted, every accepted message was dispatched and nobody can send any more.
  ghost predicate Exhausted<M, A, C, R>(c: Cell<M, A, C, R>) {
    var n := |c.handled|;
    if Stop in c.chan.accepted
    then 0 < n <= |c.chan.accepted| && PayloadsOf(c.handled) == c.chan.accepted[..n]
         && c.chan.accepted[n - 1] == Stop && Stop !in c.chan.accepted[..n - 1]
    else PayloadsOf(c.handled) == c.chan.accepted && c.chan.mpsc == 0
  }

  // That is what leaving the loop through its end means.
  lemma CleanEnd<M, A, C, R>(prog: Program<M, A, C, R>, l: Local<A, C>, es: seq<Event<M>>, c: Cell<M, A, C, R>)
    requires Reaches(prog, l, es, c) && c.phase in {Stopping, Quiet, Notified, Gone(Clean)}
    ensures Exhausted(c)
  {
    ReachedLoop(prog, l, es, c);
    CleanlyExhausted(prog, l, c);
  }

  lemma CleanlyExhausted<M, A, C, R>(prog: Program<M, A, C, R>, l: Local<A, C>, c: Cell<M, A, C, R>)
    requires Flow(c) && Tracks(prog, l, c) && Fates(prog, l, c) && c.phase in {Stopping, Quiet, Notified, Gone(Clean)}
    ensures Exhausted(c)
  {
    if Begin(prog, l).status != Live { FoldStuck(prog, Begin(prog, l), c.handled); }
    StopsLast(prog, l, c);
    EndsWhere(c.chan.accepted, c.handled, Folded(prog, l, c).status == Broke, c.chan.mpsc);
  }

  lemma EndsWhere<M>(accepted: seq<Payload<M>>, es: seq<Entry<M>>, broke: bool, mpsc: int)
    requires PayloadsOf(es) <= accepted && (forall i :: 0 <= i < |es| - 1 ==> es[i].payload != Stop)
    requires broke <==> es != [] && es[|es| - 1].payload == Stop
    requires !broke ==> mpsc == 0 && accepted == PayloadsOf(es)
    ensures if Stop in accepted
            then 0 < |es| <= |accepted| && PayloadsOf(es) == accepted[..|es|]
                 && accepted[|es| - 1] == Stop && Stop !in accepted[..|es| - 1]
            else PayloadsOf(es) == accepted && mpsc == 0
  {
    if broke { assert accepted[|es| - 1] == PayloadsOf(es)[|es| - 1]; }
  }

  // A loop that runs has run the hooks of its language, one start ahead of the stops.
  lemma HooksWhileRunning<M, A, C, R>(prog: Program<M, A, C, R>, l: Local<A, C>, es: seq<Event<M>>, c: Cell<M, A, C, R>)
    requires Reaches(prog, l, es, c) && (c.phase in {Idle, Refreshing, Stopping} || c.phase.Busy?)
    ensures Starts(c.trace) == Stops(c.trace) + 1 && UpAndRunning(prog.strategy != NonRestartable, c.trace)
  {
    assert c.trace == Folded(prog, l, c).trace
           && Folded(prog, l, c).status in {Live, Broke} by { ReachedLoop(prog, l, es, c); }
    HookGrammar(prog, l, c.handled);
    HooksBalance(prog, l, c.handled);
  }

  // At a clean end every start has had its stop, and the last hook was that one final `stopped`.
  lemma HooksAtCleanEnd<M, A, C, R>(prog: Program<M, A, C, R>, l: Local<A, C>, es: seq<Event<M>>, c: Cell<M, A, C, R>)
    requires Reaches(prog, l, es, c) && c.phase in {Quiet, Notified, Gone(Clean)}
    ensures Starts(c.trace) == Stops(c.trace) && |c.trace| >= 2 && c.trace[|c.trace| - 1] == StopHook
    ensures UpAndRunning(prog.strategy != NonRestartable, c.trace[..|c.trace| - 1])
  {
    ClosedHere(prog, l, es, c);
    ClosedHooks(prog, l, c.handled);
    assert HooksClosed(prog.strategy != NonRestartable, c.trace);
  }

  lemma ClosedHere<M, A, C, R>(prog: Program<M, A, C, R>, l: Local<A, C>, es: seq<Event<M>>, c: Cell<M, A, C, R>)
    requires Reaches(prog, l, es, c) && c.phase in {Quiet, Notified, Gone(Clean)}
    ensures c.trace == Close(prog, Folded(prog, l, c)).trace && Folded(prog, l, c).status in {Live, Broke}
  {
    ReachedLoop(prog, l, es, c);
  }

  ghost predicate HooksClosed(restarts: bool, t: seq<Mark>) {
    && Starts(t) == Stops(t) && |t| >= 2 && t[|t| - 1] == StopHook
    && UpAndRunning(restarts, t[..|t| - 1])
  }

  lemma ClosedHooks<M, A, C, R>(prog: Program<M, A, C, R>, l: Local<A, C>, es: seq<Entry<M>>)
    requires Fold(prog, Begin(prog, l), es).status in {Live, Broke}
    ensures HooksClosed(prog.strategy != NonRestartable, Close(prog, Fold(prog, Begin(prog, l), es)).trace)
  {
    var s := Fold(prog, Begin(prog, l), es);
    HookGrammar(prog, l, es);
    HooksBalance(prog, l, es);
    assert Close(prog, s).trace == s.trace + [StopHook];
    assert (s.trace + [StopHook])[..|s.trace|] == s.trace;
  }

  // At a failed start, restart or timeout one start is left without its stop.
  lemma HooksAtFailure<M, A, C, R>(
      prog: Program<M, A, C, R>, l: Local<A, C>, es: seq<Event<M>>, c: Cell<M, A, C, R>, e: Failure)
    requires Reaches(prog, l, es, c) && c.phase in {Failing(e), Gone(Error(e))} && e != Aborted
    ensures Starts(c.trace) == Stops(c.trace) + 1
    ensures InLanguage(prog.strategy != NonRestartable, c.trace, Failed(e))
  {
    assert c.trace == Folded(prog, l, c).trace
           && Folded(prog, l, c).status == Failed(e) by { ReachedLoop(prog, l, es, c); }
    HookGrammar(prog, l, c.handled);
    HooksBalance(prog, l, c.handled);
  }

  // ---------------------------------------------------------------- timeouts

  // Without fail_on_timeout no timeout ever ends the actor, however many tasks are cut.
  lemma TimeoutsTolerated<M, A, C, R>(prog: Program<M, A, C, R>, l: Local<A, C>, es: seq<Event<M>>, c: Cell<M, A, C, R>)
    requires Reaches(prog, l, es, c) && !prog.failOnTimeout
    ensures c.phase !in {Failing(TimedOut), Gone(Error(TimedOut))}
  {
    ReachedLoop(prog, l, es, c);
    var s := Begin(prog, l);
    if s.status == Live { CutsAreIsolated(prog, s, c.handled); } else { FoldStuck(prog, s, c.handled); }
  }

  // With it a cut task is the last one dispatched, `stopped` is not run and nobody is told the
  // actor stopped. Either way its caller gets no reply (CallOutcome).
  lemma TimeoutsFatal<M, A, C, R>(
      prog: Program<M, A, C, R>, l: Local<A, C>, es: seq<Event<M>>, c: Cell<M, A, C, R>, i: nat)
    requires Reaches(prog, l, es, c) && prog.failOnTimeout
    requires i < |c.handled| && c.handled[i].fate.CutAt?
    ensures prog.timeout && i == |c.handled| - 1
    ensures c.phase in {Failing(TimedOut), Gone(Error(TimedOut))} && c.outcome != Some(SaidStopped)
    ensures |c.trace| > 0 && c.trace[|c.trace| - 1] == TaskCut
  {
    assert Fates(prog, l, c) && Tracks(prog, l, c) && Notifies(c) by { ReachedLoop(prog, l, es, c); }
    FirstCutEnds(prog, Begin(prog, l), c.handled, i);
    CutIsLast(prog, l, c, i);
    EndsTimedOut(prog, l, c);
  }

  lemma CutIsLast<M, A, C, R>(prog: Program<M, A, C, R>, l: Local<A, C>, c: Cell<M, A, C, R>, i: nat)
    requires Fates(prog, l, c) && i < |c.handled|
    ensures Fold(prog, Begin(prog, l), c.handled[..i + 1]).status != Live ==> i == |c.handled| - 1
  {
    if i + 1 < |c.handled| {
      assert Fold(prog, Begin(prog, l), c.handled[..i + 1]).status == Live;
    }
  }

  // A run that failed on a timeout ends the loop with just that.
  lemma EndsTimedOut<M, A, C, R>(prog: Program<M, A, C, R>, l: Local<A, C>, c: Cell<M, A, C, R>)
    requires Tracks(prog, l, c) && Notifies(c) && c.handled != [] && Folded(prog, l, c).status == Failed(TimedOut)
    ensures c.phase in {Failing(TimedOut), Gone(Error(TimedOut))} && c.outcome != Some(SaidStopped)
    ensures c.trace == Folded(prog, l, c).trace
  {
  }

  // ---------------------------------------------------------------- calls

  // The task of call k was dispatched at position i, ran to its end and answered r.
  ghost predicate RanToEnd<M, A, C, R>(
      prog: Program<M, A, C, R>, l: Local<A, C>, c: Cell<M, A, C, R>, i: int, k: CallId, r: Reply<R>)
  {
    && 0 <= i < |c.handled| && c.handled[i].fate == Completed
    && c.handled[i].payload.Task? && c.handled[i].payload.reply == Some(k)
    && r == TaskAnswer(prog, c.handled[i].payload.work, Fold(prog, Begin(prog, l), c.handled[..i]).local)
  }

  // A call has its answer exactly when its task ran to its end, and the answer is the one the
  // sequential machine gives at that place in the acceptance order.
  lemma CallOutcome<M, A, C, R>(
      prog: Program<M, A, C, R>, l: Local<A, C>, es: seq<Event<M>>, c: Cell<M, A, C, R>, k: CallId, r: Reply<R>)
    requires Reaches(prog, l, es, c)
    ensures (k in c.calls && c.calls[k] == Replied(r)) <==> exists i :: RanToEnd(prog, l, c, i, k, r)
  {
    ReachedInv(prog, l, es, c);
    assert PayloadsOf(c.handled) <= c.chan.accepted;
    assert forall i :: 0 <= i < |c.handled| ==> PayloadsOf(c.handled)[i] == c.chan.accepted[i];
    if i :| RanToEnd(prog, l, c, i, k, r) {
      assert HasReply(c.chan.accepted, i, k);
    }
    if k in c.calls && c.calls[k] == Replied(r) {
      var i :| HasReply(c.chan.accepted, i, k);
      assert RanToEnd(prog, l, c, i, k, r);
    }
  }

  // Once the loop is gone, on whatever path, no accepted call is left waiting: it has its answer or
  // was canceled. A call that could not be enqueued was told so.
  lemma NoCallLeftBehind<M, A, C, R>(
      prog: Program<M, A, C, R>, l: Local<A, C>, es: seq<Event<M>>, c: Cell<M, A, C, R>, k: CallId)
    requires Reaches(prog, l, es, c) && k in c.calls
    ensures c.phase.Gone? && (exists i :: HasReply(c.chan.accepted, i, k)) ==>
              c.calls[k].Replied? || c.calls[k] == Canceled
    ensures c.calls[k] == SendFailed ==> forall i :: !HasReply(c.chan.accepted, i, k)
    ensures c.calls[k] == Waiting && c.phase.Gone? ==> exists f :: Pending(c.chan.refs, f, k)
  {
    ReachedInv(prog, l, es, c);
  }

  // A call settles at most once: what it is in any reachable state, it is ever after.
  lemma SettlesOnce<M, A, C, R>(
      prog: Program<M, A, C, R>, l: Local<A, C>, past: seq<Event<M>>, c: Cell<M, A, C, R>,
      future: seq<Event<M>>, d: Cell<M, A, C, R>, k: CallId)
    requires Reaches(prog, l, past, c) && Run(prog, c, future, d) && k in c.calls && c.calls[k] != Waiting
    ensures k in d.calls && d.calls[k] == c.calls[k]
  {
    ReachedInv(prog, l, past, c);
    SettledForGood(prog, l, c, future, d, k);
  }

  lemma {:induction false} SettledForGood<M, A, C, R>(
      prog: Program<M, A, C, R>, l: Local<A, C>, c: Cell<M, A, C, R>, es: seq<Event<M>>, d: Cell<M, A, C, R>, k: CallId)
    requires Inv(prog, l, c) && Run(prog, c, es, d) && k in c.calls && c.calls[k] != Waiting
    ensures k in d.calls && d.calls[k] == c.calls[k]
    decreases |es|
  {
    if es != [] {
      InvStep(prog, l, c, es[0]);
      SettledStays(prog, l, c, es[0], k);
      SettledForGood(prog, l, Next(prog, c, es[0]), es[1..], d, k);
    }
  }

  // A call has no outcome yet exactly while its payload waits in a send that was not polled, or was accepted
  // by a loop that is not gone and has not got through it.
  ghost predicate Outstanding<M, A, C, R>(c: Cell<M, A, C, R>, k: CallId) {
    || (exists f :: Pending(c.chan.refs, f, k))
    || (!c.phase.Gone? && exists i :: |c.handled| <= i && HasReply(c.chan.accepted, i, k))
  }

  lemma WaitsExactly<M, A, C, R>(
      prog: Program<M, A, C, R>, l: Local<A, C>, es: seq<Event<M>>, c: Cell<M, A, C, R>, k: CallId)
    requires Reaches(prog, l, es, c) && k in c.calls
    ensures c.calls[k] == Waiting <==> Outstanding(c, k)
  {
    assert Settled(prog, l, c) by { ReachedInv(prog, l, es, c); }
    if c.calls[k] == Waiting && !(exists f :: Pending(c.chan.refs, f, k)) {
      var i :| HasReply(c.chan.accepted, i, k);
      assert Verdict(prog, l, c, i) == Waiting;
    }
  }

  // This step tries to enqueue the task of call k and finds the receiver gone.
  ghost predicate Refuses<M, A, C, R>(c: Cell<M, A, C, R>, e: Event<M>, k: CallId) {
    !c.chan.open && ((e.Force? && ReplyOf(e.payload) == Some(k)) || (e.PollSend? && Pending(c.chan.refs, e.f, k)))
  }

  ghost predicate WasRefused<M, A, C, R>(
      prog: Program<M, A, C, R>, c: Cell<M, A, C, R>, es: seq<Event<M>>, k: CallId)
    decreases |es|
  {
    es != [] && Can(prog, c, es[0])
    && (Refuses(c, es[0], k) || WasRefused(prog, Next(prog, c, es[0]), es[1..], k))
  }

  ghost predicate ToldRefused<M, A, C, R>(c: Cell<M, A, C, R>, k: CallId) {
    k in c.calls && c.calls[k] == SendFailed
  }

  lemma RefusalStep<M, A, C, R>(prog: Program<M, A, C, R>, l: Local<A, C>, c: Cell<M, A, C, R>, e: Event<M>, k: CallId)
    requires Inv(prog, l, c) && Can(prog, c, e)
    ensures ToldRefused(Next(prog, c, e), k) <==> ToldRefused(c, k) || Refuses(c, e, k)
  {
    assert Flow(c) && Settled(prog, l, c);
    if ToldRefused(c, k) { SettledStays(prog, l, c, e, k); } else { RefusalNew(prog, c, e, k); }
  }

  lemma RefusalNew<M, A, C, R>(prog: Program<M, A, C, R>, c: Cell<M, A, C, R>, e: Event<M>, k: CallId)
    requires Can(prog, c, e) && !ToldRefused(c, k)
    ensures ToldRefused(Next(prog, c, e), k) <==> Refuses(c, e, k)
  {
  }

  // A call is told of a send error exactly if its task was refused for want of a receiver, at some step.
  lemma {:induction false} RefusedExactly<M, A, C, R>(
      prog: Program<M, A, C, R>, l: Local<A, C>, c: Cell<M, A, C, R>, es: seq<Event<M>>, d: Cell<M, A, C, R>, k: CallId)
    requires Inv(prog, l, c) && Run(prog, c, es, d)
    ensures ToldRefused(d, k) <==> ToldRefused(c, k) || WasRefused(prog, c, es, k)
    decreases |es|
  {
    if es != [] {
      InvStep(prog, l, c, es[0]);
      RefusalStep(prog, l, c, es[0], k);
      RefusedExactly(prog, l, Next(prog, c, es[0]), es[1..], d, k);
    }
  }

  // The reply channel of a settled call is nowhere any more.
  lemma NotPending<M, A, C, R>(prog: Program<M, A, C, R>, l: Local<A, C>, c: Cell<M, A, C, R>, k: CallId)
    requires Settled(prog, l, c) && k in c.calls && c.calls[k] != Waiting
    ensures forall f :: f in c.chan.refs && c.chan.refs[f].SendFut? ==> c.chan.refs[f].reply != Some(k)
  {
    forall f | f in c.chan.refs && c.chan.refs[f].SendFut? ensures c.chan.refs[f].reply != Some(k) {
      if c.chan.refs[f].reply == Some(k) { assert Pending(c.chan.refs, f, k); }
    }
  }

  lemma NotInFlight<M, A, C, R>(prog: Program<M, A, C, R>, l: Local<A, C>, c: Cell<M, A, C, R>, k: CallId)
    requires Flow(c) && Settled(prog, l, c) && k in c.calls && c.calls[k] != Waiting && c.phase.Busy?
    ensures c.phase.reply != Some(k)
  {
    InFlightAt(c);
    if c.phase.reply == Some(k) { assert HasReply(c.chan.accepted, |c.handled|, k); }
  }

  lemma NotInQueue<M, A, C, R>(prog: Program<M, A, C, R>, l: Local<A, C>, c: Cell<M, A, C, R>, k: CallId)
    requires Flow(c) && Settled(prog, l, c) && k in c.calls && c.calls[k] != Waiting && !c.phase.Gone?
    ensures k !in RepliesIn(c.chan.queue)
  {
    if k in RepliesIn(c.chan.queue) {
      var j :| 0 <= j < |c.chan.queue| && ReplyOf(c.chan.queue[j]) == Some(k);
      var i := |c.handled| + |InFlight(c.phase)| + j;
      assert c.chan.accepted[i] == c.chan.queue[j];
      assert HasReply(c.chan.accepted, i, k);
    }
  }

  lemma SettledStays<M, A, C, R>(prog: Program<M, A, C, R>, l: Local<A, C>, c: Cell<M, A, C, R>, e: Event<M>, k: CallId)
    requires Flow(c) && Settled(prog, l, c) && Can(prog, c, e) && k in c.calls && c.calls[k] != Waiting
    ensures k in Next(prog, c, e).calls && Next(prog, c, e).calls[k] == c.calls[k]
  {
    NotPending(prog, l, c, k);
    if c.phase.Busy? { NotInFlight(prog, l, c, k); }
    if !c.phase.Gone? { NotInQueue(prog, l, c, k); }
    SettlesOthers(prog, c, e, k);
  }

  lemma SettlesOthers<M, A, C, R>(prog: Program<M, A, C, R>, c: Cell<M, A, C, R>, e: Event<M>, k: CallId)
    requires Can(prog, c, e) && k in c.calls && (c.phase.Busy? ==> c.phase.reply != Some(k))
    requires forall f :: f in c.chan.refs && c.chan.refs[f].SendFut? ==> c.chan.refs[f].reply != Some(k)
    requires c.phase.Gone? || k !in RepliesIn(c.chan.queue)
    ensures k in Next(prog, c, e).calls && Next(prog, c, e).calls[k] == c.calls[k]
  {
  }

  lemma InFlightAt<M, A, C, R>(c: Cell<M, A, C, R>)
    requires Flow(c) && c.phase.Busy?
    ensures |c.handled| < |c.chan.accepted| && c.chan.accepted[|c.handled|] == Task(c.phase.work, c.phase.reply)
  {
    assert (PayloadsOf(c.handled) + InFlight(c.phase) + c.chan.queue)[|c.handled|] == InFlight(c.phase)[0];
  }

  lemma {:induction false} TraceGrows<M, A, C, R>(prog: Program<M, A, C, R>, s: State<A, C>, es: seq<Entry<M>>)
    ensures s.trace <= Fold(prog, s, es).trace
    decreases |es|
  {
    if es != [] { TraceGrows(prog, s, es[..|es| - 1]); }
  }

  // A panic in user code, or the end of the runtime, may strike at any moment before the last `stopped` has
  // returned. Nobody is then told the actor stopped, no actor is returned, no background task is left, and no
  // accepted call that was not answered before ever is.
  lemma AbortsAnywhere<M, A, C, R>(prog: Program<M, A, C, R>, l: Local<A, C>, es: seq<Event<M>>, c: Cell<M, A, C, R>)
    returns (d: Cell<M, A, C, R>)
    requires Reaches(prog, l, es, c) && (c.phase in {Starting, Idle, Refreshing, Stopping} || c.phase.Busy?)
    ensures Run(prog, c, [Abort, Leave], d) && d.phase == Gone(Error(Aborted))
    ensures d.outcome == Some(NotifierDropped) && d.output == None && d.aborted == c.spawned && d.local == c.local
    ensures forall i, k :: HasReply(d.chan.accepted, i, k) && (k in c.calls ==> c.calls[k] == Waiting) ==>
              k in d.calls && d.calls[k] == Canceled
  {
    var b := Next(prog, c, Abort);
    d := Next(prog, b, Leave);
    assert [Abort, Leave][1..] == [Event<M>.Leave] && [Event<M>.Leave][1..] == [];
    assert Run(prog, b, [Leave], d);
    assert TimersTracked(c) && Notifies(c) by { ReachedInv(prog, l, es, c); }
    InvRunHere(prog, l, es, c, d);
    forall i, k | HasReply(d.chan.accepted, i, k) && (k in c.calls ==> c.calls[k] == Waiting)
      ensures k in d.calls && d.calls[k] == Canceled
    {
      AbortCancels(prog, c, k);
    }
  }

  lemma InvRunHere<M, A, C, R>(
      prog: Program<M, A, C, R>, l: Local<A, C>, es: seq<Event<M>>, c: Cell<M, A, C, R>, d: Cell<M, A, C, R>)
    requires Reaches(prog, l, es, c) && Run(prog, c, [Abort, Leave], d) && d.phase.Gone?
    ensures forall i, k :: HasReply(d.chan.accepted, i, k) ==>
              k in d.calls && (d.calls[k].Replied? || d.calls[k] == Canceled)
  {
    ReachedInv(prog, l, es, c);
    InvRun(prog, l, c, [Abort, Leave], d);
  }

  // Neither the abort nor the drop that follows answers anybody.
  lemma AbortCancels<M, A, C, R>(prog: Program<M, A, C, R>, c: Cell<M, A, C, R>, k: CallId)
    requires Can(prog, c, Abort) && (k in c.calls ==> c.calls[k] == Waiting)
    ensures var d := Next(prog, Next(prog, c, Abort), Leave); k in d.calls ==> !d.calls[k].Replied?
  {
  }

  // Whoever got an answer, if only to a ping, knows that the first `started` returned Ok.
  lemma ReplyMeansStarted<M, A, C, R>(
      prog: Program<M, A, C, R>, l: Local<A, C>, es: seq<Event<M>>, c: Cell<M, A, C, R>, k: CallId)
    requires Reaches(prog, l, es, c) && k in c.calls && c.calls[k].Replied?
    ensures c.trace != [] && c.trace[0] == StartHook(true)
  {
    ReachedInv(prog, l, es, c);
    RepliedStarted(prog, l, c, k);
  }

  lemma RepliedStarted<M, A, C, R>(prog: Program<M, A, C, R>, l: Local<A, C>, c: Cell<M, A, C, R>, k: CallId)
    requires Inv(prog, l, c) && k in c.calls && c.calls[k].Replied?
    ensures c.trace != [] && c.trace[0] == StartHook(true)
  {
    var i :| HasReply(c.chan.accepted, i, k);
    assert i < |c.handled|;
    HandledStarted(prog, l, c, i);
  }

  lemma HandledStarted<M, A, C, R>(prog: Program<M, A, C, R>, l: Local<A, C>, c: Cell<M, A, C, R>, i: nat)
    requires Tracks(prog, l, c) && Fates(prog, l, c) && i < |c.handled|
    ensures c.trace != [] && c.trace[0] == StartHook(true)
  {
    if Begin(prog, l).status != Live { FoldStuck(prog, Begin(prog, l), c.handled[..i]); }
    TraceGrows(prog, Begin(prog, l), c.handled);
    assert Begin(prog, l).trace == [StartHook(true)];
  }

  // ---------------------------------------------------------------- handles

  // The two Arc counts are what the living handles say, and an upgrade succeeds exactly while a
  // handle of the right kind lives: an Addr or a Sender for weak addresses and senders, any handle
  // or a Caller call in flight for weak callers.
  lemma HandleCounts<M, A, C, R>(
      prog: Program<M, A, C, R>, l: Local<A, C>, es: seq<Event<M>>, c: Cell<M, A, C, R>, n: RefId)
    requires Reaches(prog, l, es, c)
    ensures c.chan.tx == Count(c.chan.refs, (r: Ref<M>) => r.Addr?) + Count(c.chan.refs, (r: Ref<M>) => r.Sender?)
                         + Count(c.chan.refs, (r: Ref<M>) => r.Caller?) + Count(c.chan.refs, (r: Ref<M>) => r.Calling?)
    ensures c.chan.force == Count(c.chan.refs, (r: Ref<M>) => r.Addr?) + Count(c.chan.refs, (r: Ref<M>) => r.Sender?)
    ensures UpgradeBoth(c.chan, n, Sender).Some? <==>
              exists h :: h in c.chan.refs && (c.chan.refs[h].Addr? || c.chan.refs[h].Sender?)
    ensures UpgradeCaller(c.chan, n).Some? <==> exists h :: h in c.chan.refs && HoldsTx(c.chan.refs[h])
  {
    ReachedLoop(prog, l, es, c);
    CountsByKind(c.chan);
    ForceBelowTx(c.chan);
    CountPositive(c.chan.refs, HoldsTx);
    CountPositive(c.chan.refs, HoldsForce);
    assert forall h :: h in c.chan.refs ==>
              (HoldsForce(c.chan.refs[h]) <==> c.chan.refs[h].Addr? || c.chan.refs[h].Sender?);
  }

  // Losing the last Addr and Sender is final: no upgrade brings one back, and no Stop or Restart is
  // accepted ever after, even while Callers keep the actor and its mailbox alive.
  lemma {:induction false} NoStopWithoutForce<M, A, C, R>(
      prog: Program<M, A, C, R>, c: Cell<M, A, C, R>, es: seq<Event<M>>, d: Cell<M, A, C, R>)
    requires Counted(c.chan) && c.chan.force == 0 && Run(prog, c, es, d)
    ensures d.chan.force == 0 && c.chan.accepted <= d.chan.accepted
    ensures forall i :: |c.chan.accepted| <= i < |d.chan.accepted| ==> d.chan.accepted[i].Task?
    decreases |es|
  {
    if es != [] {
      CountedStep(prog, c, es[0]);
      ForceLost(prog, c, es[0]);
      NoStopWithoutForce(prog, Next(prog, c, es[0]), es[1..], d);
    }
  }

  lemma ForceLost<M, A, C, R>(prog: Program<M, A, C, R>, c: Cell<M, A, C, R>, e: Event<M>)
    requires Counted(c.chan) && c.chan.force == 0 && Can(prog, c, e)
    ensures var d := Next(prog, c, e);
            d.chan.force == 0
            && (d.chan.accepted == c.chan.accepted || exists p :: d.chan.accepted == c.chan.accepted + [p] && p.Task?)
  {
    match e
    case Clone(h, _) => Held(c.chan, h);
    case Derive(h, _, _) => Held(c.chan, h);
    case Discard(h) => Held(c.chan, h);
    case _ =>
  }

  // ---------------------------------------------------------------- the stop notification

  // Awaiting any clone of the address yields `outcome`. It is Ok exactly when the loop has passed
  // its final `stopped` and notified, Canceled exactly when it ended otherwise; no handle claims the
  // actor stopped before that.
  lemma StopNotification<M, A, C, R>(prog: Program<M, A, C, R>, l: Local<A, C>, es: seq<Event<M>>, c: Cell<M, A, C, R>)
    requires Reaches(prog, l, es, c)
    ensures c.outcome == Some(SaidStopped) <==> c.phase == Notified || c.phase == Gone(Clean)
    ensures c.outcome == Some(NotifierDropped) <==> c.phase.Gone? && c.phase.exit != Clean
    ensures c.outcome == Some(SaidStopped) ==> |c.trace| > 0 && c.trace[|c.trace| - 1] == StopHook
    ensures forall h :: h in c.chan.refs && c.chan.refs[h].Addr? && SeesStopped(c, h) ==>
              c.phase == Notified || c.phase.Gone?
  {
    ReachedLoop(prog, l, es, c);
  }

  // The outcome is the same for every clone and every later moment.
  lemma {:induction false} OutcomeIsFinal<M, A, C, R>(
      prog: Program<M, A, C, R>, c: Cell<M, A, C, R>, es: seq<Event<M>>, d: Cell<M, A, C, R>)
    requires Notifies(c) && Run(prog, c, es, d) && c.outcome.Some?
    ensures d.outcome == c.outcome
    decreases |es|
  {
    if es != [] {
      NotifiesStep(prog, c, es[0]);
      OutcomeIsFinal(prog, Next(prog, c, es[0]), es[1..], d);
    }
  }

  // A handle that sees the actor stopped goes on seeing it until it is itself awaited or dropped.
  lemma {:induction false} StoppedStays<M, A, C, R>(
      prog: Program<M, A, C, R>, c: Cell<M, A, C, R>, es: seq<Event<M>>, d: Cell<M, A, C, R>, h: RefId)
    requires Run(prog, c, es, d) && AwaitAddr(h) !in es && Discard(h) !in es
    requires h in c.chan.refs && c.chan.refs[h].Addr? && SeesStopped(c, h)
    ensures h in d.chan.refs && d.chan.refs[h].Addr? && SeesStopped(d, h)
    decreases |es|
  {
    if es != [] {
      assert es[0] in es && forall e :: e in es[1..] ==> e in es;
      StoppedStep(prog, c, es[0], h);
      StoppedStays(prog, Next(prog, c, es[0]), es[1..], d, h);
    }
  }

  lemma StoppedStep<M, A, C, R>(prog: Program<M, A, C, R>, c: Cell<M, A, C, R>, e: Event<M>, h: RefId)
    requires Can(prog, c, e) && e != AwaitAddr(h) && e != Discard(h)
    requires h in c.chan.refs && c.chan.refs[h].Addr? && SeesStopped(c, h)
    ensures var d := Next(prog, c, e); h in d.chan.refs && d.chan.refs[h].Addr? && SeesStopped(d, h)
  {
    RefStays(prog, c, e);
    ObservedStays(prog, c, e);
  }

  // A step changes an existing ref only by dropping, polling or awaiting it.
  lemma RefStays<M, A, C, R>(prog: Program<M, A, C, R>, c: Cell<M, A, C, R>, e: Event<M>)
    requires Can(prog, c, e)
    ensures var d := Next(prog, c, e);
            forall h :: h in c.chan.refs && e != Discard(h) && e != PollSend(h) && e != AwaitAddr(h) ==>
              h in d.chan.refs && d.chan.refs[h] == c.chan.refs[h]
  {
    if e.OfLoop() { assert Next(prog, c, e).chan.refs == c.chan.refs; }
  }

  lemma ObservedStays<M, A, C, R>(prog: Program<M, A, C, R>, c: Cell<M, A, C, R>, e: Event<M>)
    requires Can(prog, c, e) && c.observed
    ensures Next(prog, c, e).observed
  {
  }

  // ---------------------------------------------------------------- timers and the actor value

  // No background task is orphaned: while the context lives it tracks every one ever spawned, over
  // all restarts, and aborts none; when the loop is gone, on whatever path, it has aborted them all.
  lemma NoOrphanedTimers<M, A, C, R>(prog: Program<M, A, C, R>, l: Local<A, C>, es: seq<Event<M>>, c: Cell<M, A, C, R>)
    requires Reaches(prog, l, es, c)
    ensures if c.phase.Gone? then c.aborted == c.spawned else c.aborted == {} && c.spawned == set t | t in c.tasks
  {
    ReachedLoop(prog, l, es, c);
  }

  // What a restart does not reset: the background tasks spawned before it go on, whatever the strategy.
  // So an actor is back at a clean slate after a restart exactly if none was ever spawned.
  lemma RestartKeepsTimers<M, A, C, R>(
      prog: Program<M, A, C, R>, l: Local<A, C>, es: seq<Event<M>>, c: Cell<M, A, C, R>)
    requires Reaches(prog, l, es, c) && Can(prog, c, Event.Refresh)
    ensures var d := Next(prog, c, Event.Refresh);
            && d.tasks == c.tasks && d.spawned == c.spawned && d.aborted == {} && d.chan == c.chan
            && (d.tasks == [] <==> c.spawned == {})
  {
    ReachedLoop(prog, l, es, c);
    if c.tasks != [] { assert c.tasks[0] in c.spawned; }
  }

  lemma {:induction false} GoneForGood<M, A, C, R>(
      prog: Program<M, A, C, R>, c: Cell<M, A, C, R>, es: seq<Event<M>>, d: Cell<M, A, C, R>)
    requires Run(prog, c, es, d) && c.phase.Gone?
    ensures d.phase == c.phase
    decreases |es|
  {
    if es != [] { GoneForGood(prog, Next(prog, c, es[0]), es[1..], d); }
  }

  // The same over any number of restarts and anything else: until the loop is gone, tasks only join.
  lemma {:induction false} TimersOnlyJoin<M, A, C, R>(
      prog: Program<M, A, C, R>, c: Cell<M, A, C, R>, es: seq<Event<M>>, d: Cell<M, A, C, R>)
    requires Run(prog, c, es, d) && !d.phase.Gone?
    ensures c.tasks <= d.tasks && d.aborted == c.aborted
    decreases |es|
  {
    if es != [] {
      var n := Next(prog, c, es[0]);
      if n.phase.Gone? { GoneForGood(prog, n, es[1..], d); }
      TimersJoinStep(prog, c, es[0]);
      TimersOnlyJoin(prog, n, es[1..], d);
    }
  }

  lemma TimersJoinStep<M, A, C, R>(prog: Program<M, A, C, R>, c: Cell<M, A, C, R>, e: Event<M>)
    requires Can(prog, c, e)
    ensures var d := Next(prog, c, e); !d.phase.Gone? ==> c.tasks <= d.tasks && d.aborted == c.aborted
  {
  }

  // The loop's task returns the actor exactly when it ended cleanly, and then it is the actor the
  // sequential run over the handled messages leaves after its final `stopped`.
  lemma ReturnedActor<M, A, C, R>(prog: Program<M, A, C, R>, l: Local<A, C>, es: seq<Event<M>>, c: Cell<M, A, C, R>)
    requires Reaches(prog, l, es, c)
    ensures c.output == if c.phase == Gone(Clean) then Some(Close(prog, Folded(prog, l, c)).local.actor) else None
  {
    ReachedLoop(prog, l, es, c);
  }
}
