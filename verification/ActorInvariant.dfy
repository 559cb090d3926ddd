/** Every step of the actor machine keeps its invariant. */
module ActorInvariant {
  import opened Messages
  import opened Sequential
  import opened Handles
  import opened Actors

  lemma CountedStep<M, A, C, R>(prog: Program<M, A, C, R>, c: Cell<M, A, C, R>, e: Event<M>)
    requires Counted(c.chan) && Can(prog, c, e)
    ensures Counted(Next(prog, c, e).chan)
  {
    var ch := c.chan;
    match e
    case Discard(h) => ReleaseCounted(ch, h);
    case PollSend(f) =>
      if ch.open {
        BecomeCounted(Push(ch, Task(ch.refs[f].work, ch.refs[f].reply)), f, Flush);
      } else {
        ReleaseCounted(ch, f);
      }
    case AwaitAddr(h) => BecomeCounted(ch, h, Addr(true));
    case _ => if e.Acquires() { CountedMore(prog, c, e); }
  }

  lemma CountedMore<M, A, C, R>(prog: Program<M, A, C, R>, c: Cell<M, A, C, R>, e: Event<M>)
    requires Counted(c.chan) && Can(prog, c, e) && e.Acquires()
    ensures Counted(Next(prog, c, e).chan)
  {
    var ch := c.chan;
    match e
    case Clone(h, n) => Held(ch, h); AcquireCounted(ch, n, ch.refs[h]);
    case Derive(h, n, r) => Held(ch, h); AcquireCounted(ch, n, r);
    case Upgrade(n, r) => AcquireCounted(ch, n, r);
    case BeginSend(f, w) => AcquireCounted(ch, f, SendFut(w, None));
    case BeginCall(n, f, k, w) =>
      AcquireCounted(ch, n, Calling(k));
      AcquireCounted(Acquire(ch, n, Calling(k)), f, SendFut(w, Some(k)));
  }

  lemma FlowStep<M, A, C, R>(prog: Program<M, A, C, R>, c: Cell<M, A, C, R>, e: Event<M>)
    requires Flow(c) && Can(prog, c, e)
    ensures Flow(Next(prog, c, e))
  {
    if e.OfLoop() { FlowLoop(prog, c, e); }
  }

  lemma FlowLoop<M, A, C, R>(prog: Program<M, A, C, R>, c: Cell<M, A, C, R>, e: Event<M>)
    requires Flow(c) && Can(prog, c, e) && e.OfLoop()
    ensures Flow(Next(prog, c, e))
  {
    if e.Pop? {
      FlowPop(prog, c);
    } else if e.Leave? {
      assert PayloadsOf(c.handled) <= c.chan.accepted;
    } else {
      Logged(prog, c, e);
      FlowLogged(c, Next(prog, c, e));
    }
  }

  lemma FlowPop<M, A, C, R>(prog: Program<M, A, C, R>, c: Cell<M, A, C, R>)
    requires Flow(c) && Can(prog, c, Pop)
    ensures Flow(Next(prog, c, Pop))
  {
    var d, q, ps := Next(prog, c, Pop), c.chan.queue, PayloadsOf(c.handled);
    assert c.chan.accepted == ps + [q[0]] + q[1..];
    if q[0] == Stop {
      assert PayloadsOf(d.handled) == ps + [Stop] && InFlight(d.phase) == [];
    } else {
      assert d.handled == c.handled && InFlight(d.phase) == [q[0]];
    }
  }

  // Apart from taking the next payload, a loop at most logs the one in flight.
  lemma Logged<M, A, C, R>(prog: Program<M, A, C, R>, c: Cell<M, A, C, R>, e: Event<M>)
    requires Can(prog, c, e) && e.OfLoop() && !e.Pop? && !e.Leave?
    ensures var d := Next(prog, c, e);
            && d.chan == c.chan && !d.phase.Gone?
            && ((d.handled == c.handled && InFlight(d.phase) == InFlight(c.phase))
                || (exists x :: d.handled == c.handled + [x] && InFlight(c.phase) == [x.payload]
                      && InFlight(d.phase) == []))
  {
  }

  lemma FlowLogged<M, A, C, R>(c: Cell<M, A, C, R>, d: Cell<M, A, C, R>)
    requires Flow(c) && d.chan == c.chan && !c.phase.Gone? && !d.phase.Gone?
    requires (d.handled == c.handled && InFlight(d.phase) == InFlight(c.phase))
             || (exists x :: d.handled == c.handled + [x] && InFlight(c.phase) == [x.payload]
                   && InFlight(d.phase) == [])
    ensures Flow(d)
  {
    if x :| d.handled == c.handled + [x] && InFlight(c.phase) == [x.payload] && InFlight(d.phase) == [] {
      assert PayloadsOf(d.handled) == PayloadsOf(c.handled) + [x.payload];
    }
  }

  // Only a client that can still send can make the mailbox grow.
  lemma GrowthNeedsSenders<M, A, C, R>(prog: Program<M, A, C, R>, c: Cell<M, A, C, R>, e: Event<M>)
    requires Counted(c.chan) && Can(prog, c, e) && c.chan.mpsc == 0
    ensures Next(prog, c, e).chan.accepted == c.chan.accepted && Next(prog, c, e).chan.mpsc == 0
  {
    ForceBelowTx(c.chan);
    match e
    case Clone(h, _) => Held(c.chan, h);
    case Derive(h, _, _) => Held(c.chan, h);
    case Discard(h) => Held(c.chan, h);
    case PollSend(f) => Held(c.chan, f);
    case _ =>
  }

  // Clients and user code touch nothing the sequential meaning depends on.
  lemma TracksClient<M, A, C, R>(prog: Program<M, A, C, R>, l: Local<A, C>, c: Cell<M, A, C, R>, e: Event<M>)
    requires Counted(c.chan) && Tracks(prog, l, c) && Can(prog, c, e) && !e.OfLoop()
    ensures Tracks(prog, l, Next(prog, c, e))
  {
    var d := Next(prog, c, e);
    assert d.phase == c.phase && d.local == c.local && d.trace == c.trace && d.handled == c.handled;
    if c.chan.mpsc == 0 { GrowthNeedsSenders(prog, c, e); }
  }

  // Loop steps that finish a payload append exactly one entry to the log.
  lemma TracksComplete<M, A, C, R>(prog: Program<M, A, C, R>, l: Local<A, C>, c: Cell<M, A, C, R>)
    requires Tracks(prog, l, c) && Can(prog, c, Complete)
    ensures Tracks(prog, l, Next(prog, c, Complete))
  {
    FoldSnoc(prog, Begin(prog, l), c.handled, Entry(Task(c.phase.work, c.phase.reply), Completed));
  }

  lemma TracksExpire<M, A, C, R>(prog: Program<M, A, C, R>, l: Local<A, C>, c: Cell<M, A, C, R>)
    requires Tracks(prog, l, c) && Can(prog, c, Expire)
    ensures Tracks(prog, l, Next(prog, c, Expire))
  {
    FoldSnoc(prog, Begin(prog, l), c.handled, Entry(Task(c.phase.work, c.phase.reply), CutAt(c.phase.pc)));
  }

  lemma TracksRefresh<M, A, C, R>(prog: Program<M, A, C, R>, l: Local<A, C>, c: Cell<M, A, C, R>)
    requires Tracks(prog, l, c) && Can(prog, c, Event.Refresh)
    ensures Tracks(prog, l, Next(prog, c, Event.Refresh))
  {
    FoldSnoc(prog, Begin(prog, l), c.handled, Entry(Restart, Completed));
  }

  lemma TracksPop<M, A, C, R>(prog: Program<M, A, C, R>, l: Local<A, C>, c: Cell<M, A, C, R>)
    requires Tracks(prog, l, c) && Can(prog, c, Pop)
    ensures Tracks(prog, l, Next(prog, c, Pop))
  {
    FoldSnoc(prog, Begin(prog, l), c.handled, Entry(Stop, Completed));
  }

  lemma TracksAbort<M, A, C, R>(prog: Program<M, A, C, R>, l: Local<A, C>, c: Cell<M, A, C, R>)
    requires Tracks(prog, l, c) && Can(prog, c, Abort)
    ensures Tracks(prog, l, Next(prog, c, Abort))
  {
    if c.phase.Busy? {
      TracksAbortedTask(prog, l, c);
    } else if c.phase.Refreshing? {
      FoldSnoc(prog, Begin(prog, l), c.handled, Entry(Restart, AbortedAt(0)));
    }
  }

  lemma TracksAbortedTask<M, A, C, R>(prog: Program<M, A, C, R>, l: Local<A, C>, c: Cell<M, A, C, R>)
    requires Tracks(prog, l, c) && c.phase.Busy?
    ensures Tracks(prog, l, AbortNow(c))
  {
    FoldSnoc(prog, Begin(prog, l), c.handled, Entry(Task(c.phase.work, c.phase.reply), AbortedAt(c.phase.pc)));
  }

  lemma TracksGoingOn<M, A, C, R>(prog: Program<M, A, C, R>, l: Local<A, C>, c: Cell<M, A, C, R>, e: Event<M>)
    requires Flow(c) && Tracks(prog, l, c) && Can(prog, c, e) && (e.Start? || e.NoMore? || e.Advance?)
    ensures Tracks(prog, l, Next(prog, c, e))
  {
  }

  lemma TracksEnding<M, A, C, R>(prog: Program<M, A, C, R>, l: Local<A, C>, c: Cell<M, A, C, R>, e: Event<M>)
    requires Tracks(prog, l, c) && Can(prog, c, e) && (e.RunStopped? || e.Notify? || e.Leave?)
    ensures Tracks(prog, l, Next(prog, c, e))
  {
  }

  lemma TracksStep<M, A, C, R>(prog: Program<M, A, C, R>, l: Local<A, C>, c: Cell<M, A, C, R>, e: Event<M>)
    requires Counted(c.chan) && Flow(c) && Tracks(prog, l, c) && Can(prog, c, e)
    ensures Tracks(prog, l, Next(prog, c, e))
  {
    if !e.OfLoop() {
      TracksClient(prog, l, c, e);
    } else if e.Complete? {
      TracksComplete(prog, l, c);
    } else if e.Expire? {
      TracksExpire(prog, l, c);
    } else if e.Refresh? {
      TracksRefresh(prog, l, c);
    } else if e.Pop? {
      TracksPop(prog, l, c);
    } else if e.Abort? {
      TracksAbort(prog, l, c);
    } else if e.Start? || e.NoMore? || e.Advance? {
      TracksGoingOn(prog, l, c, e);
    } else {
      TracksEnding(prog, l, c, e);
    }
  }

  lemma FatesStep<M, A, C, R>(prog: Program<M, A, C, R>, l: Local<A, C>, c: Cell<M, A, C, R>, e: Event<M>)
    requires Tracks(prog, l, c) && Fates(prog, l, c) && Can(prog, c, e)
    ensures Fates(prog, l, Next(prog, c, e))
  {
    var d := Next(prog, c, e);
    if |d.handled| == |c.handled| + 1 {
      NewFate(prog, l, c, e);
      FatesSnoc(prog, l, c, d);
    } else {
      assert d.handled == c.handled;
    }
  }

  lemma FatesSnoc<M, A, C, R>(prog: Program<M, A, C, R>, l: Local<A, C>, c: Cell<M, A, C, R>, d: Cell<M, A, C, R>)
    requires Fates(prog, l, c) && |d.handled| == |c.handled| + 1 && d.handled[..|c.handled|] == c.handled
    requires Possible(prog, d.handled[|c.handled|]) && Fold(prog, Begin(prog, l), c.handled).status == Live
    ensures Fates(prog, l, d)
  {
    forall i | 0 <= i < |d.handled|
      ensures Possible(prog, d.handled[i]) && Fold(prog, Begin(prog, l), d.handled[..i]).status == Live
    {
      assert i < |c.handled| ==> d.handled[..i] == c.handled[..i] && d.handled[i] == c.handled[i];
    }
  }

  lemma NewFate<M, A, C, R>(prog: Program<M, A, C, R>, l: Local<A, C>, c: Cell<M, A, C, R>, e: Event<M>)
    requires Tracks(prog, l, c) && Can(prog, c, e) && |Next(prog, c, e).handled| == |c.handled| + 1
    ensures Possible(prog, Next(prog, c, e).handled[|c.handled|])
    ensures Next(prog, c, e).handled[..|c.handled|] == c.handled
    ensures Fold(prog, Begin(prog, l), c.handled).status == Live
  {
    Dispatching(prog, c, e);
  }

  // Only a loop at work adds to its log: one entry, of a fate its configuration allows.
  lemma Dispatching<M, A, C, R>(prog: Program<M, A, C, R>, c: Cell<M, A, C, R>, e: Event<M>)
    requires Can(prog, c, e) && |Next(prog, c, e).handled| == |c.handled| + 1
    requires c.phase.Busy? ==> c.phase.pc <= Awaits(prog, c.phase.work)
    ensures c.phase.Idle? || c.phase.Busy? || c.phase.Refreshing?
    ensures Next(prog, c, e).handled == c.handled + [Next(prog, c, e).handled[|c.handled|]]
    ensures Possible(prog, Next(prog, c, e).handled[|c.handled|])
  {
  }

  lemma NotifiesClient<M, A, C, R>(prog: Program<M, A, C, R>, c: Cell<M, A, C, R>, e: Event<M>)
    requires Notifies(c) && Can(prog, c, e) && !e.OfLoop()
    ensures Notifies(Next(prog, c, e))
  {
    var d := Next(prog, c, e);
    assert d.phase == c.phase && d.outcome == c.outcome && d.output == c.output && d.local == c.local;
    NewlyPolled(prog, c, e);
  }

  // An Addr that was polled to the end is one that is being awaited, or a copy of one that was.
  lemma NewlyPolled<M, A, C, R>(prog: Program<M, A, C, R>, c: Cell<M, A, C, R>, e: Event<M>)
    requires Notifies(c) && Can(prog, c, e) && !e.OfLoop()
    ensures var d := Next(prog, c, e);
            (forall h :: h in d.chan.refs && d.chan.refs[h] == Addr(true) ==> d.observed)
                  && (d.observed ==> d.outcome.Some?)
  {
  }

  lemma NotifiesLoop<M, A, C, R>(prog: Program<M, A, C, R>, c: Cell<M, A, C, R>, e: Event<M>)
    requires Notifies(c) && Can(prog, c, e) && e.OfLoop()
    ensures Notifies(Next(prog, c, e))
  {
    var d := Next(prog, c, e);
    assert d.chan.refs == c.chan.refs && d.observed == c.observed;
  }

  lemma NotifiesStep<M, A, C, R>(prog: Program<M, A, C, R>, c: Cell<M, A, C, R>, e: Event<M>)
    requires Notifies(c) && Can(prog, c, e)
    ensures Notifies(Next(prog, c, e))
  {
    if e.OfLoop() { NotifiesLoop(prog, c, e); } else { NotifiesClient(prog, c, e); }
  }

  lemma TimersStep<M, A, C, R>(prog: Program<M, A, C, R>, c: Cell<M, A, C, R>, e: Event<M>)
    requires TimersTracked(c) && Can(prog, c, e)
    ensures TimersTracked(Next(prog, c, e))
  {
  }
}
