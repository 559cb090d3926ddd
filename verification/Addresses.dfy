/** The operations clients call on the handles of one actor (src/addr.rs, src/addr/, src/context.rs),
    as updates of the channel, the counts and the reply slots all handles share. Each is proved to be
    the step of Actors it stands for, with the result or error its caller sees. */
module Addresses {
  import opened Messages
  import opened Sequential
  import opened Handles
  import opened Actors
  import opened ActorInvariant
  import opened ActorTheorems

  datatype ActorError = AsyncSendError | Canceled | AlreadyStopped

  ghost predicate IsStep<M, A, C, R>(prog: Program<M, A, C, R>, c: Cell<M, A, C, R>, e: Event<M>, d: Cell<M, A, C, R>) {
    Can(prog, c, e) && d == Next(prog, c, e)
  }

  lemma TwoSteps<M, A, C, R>(
      prog: Program<M, A, C, R>, c: Cell<M, A, C, R>, e: Event<M>, d: Cell<M, A, C, R>, e': Event<M>,
      d': Cell<M, A, C, R>)
    requires IsStep(prog, c, e, d) && IsStep(prog, d, e', d')
    ensures Run(prog, c, [e, e'], d')
  {
    assert [e, e'][1..] == [e'] && [e'][1..] == [];
    assert Run(prog, d, [e'], d');
  }

  lemma DropStep<M, A, C, R>(prog: Program<M, A, C, R>, c: Cell<M, A, C, R>, h: RefId, d: Cell<M, A, C, R>)
    requires Counted(c.chan) && h in c.chan.refs
    requires d == c.(chan := Release(c.chan, h),
                     calls := if c.chan.refs[h].SendFut? then Settle(c.calls, c.chan.refs[h].reply,
                           CallStatus.Canceled) else c.calls)
    ensures IsStep(prog, c, Discard(h), d) && Counted(d.chan)
  {
    ReleaseCounted(c.chan, h);
  }

  lemma CallStep<M, A, C, R>(
      prog: Program<M, A, C, R>, c: Cell<M, A, C, R>, n: RefId, f: RefId, k: CallId, w: Work<M>, d: Cell<M, A, C, R>)
    requires Counted(c.chan) && c.chan.tx > 0 && n !in c.chan.refs && f !in c.chan.refs && n != f && k !in c.calls
             && w.Handle?
    requires d == c.(chan := c.chan.(tx := c.chan.tx + 1, mpsc := c.chan.mpsc + 1,
                                     refs := c.chan.refs[n := Calling(k)][f := SendFut(w, Some(k))]),
                     calls := c.calls[k := Waiting])
    ensures IsStep(prog, c, BeginCall(n, f, k, w), d) && Counted(d.chan)
  {
    AcquireCounted(c.chan, n, Calling(k));
    AcquireCounted(Acquire(c.chan, n, Calling(k)), f, SendFut(w, Some(k)));
  }

  // A new strong handle on both paths, or on the awaiting path alone.
  ghost predicate Gains<M, A, C, R>(c: Cell<M, A, C, R>, n: RefId, r: Ref<M>, d: Cell<M, A, C, R>) {
    d == c.(chan := c.chan.(tx := c.chan.tx + 1, force := c.chan.force + if r.Caller? then 0
          else 1, refs := c.chan.refs[n := r]))
  }

  lemma UpgradeStep<M, A, C, R>(
      prog: Program<M, A, C, R>, c: Cell<M, A, C, R>, n: RefId, r: Ref<M>, d: Cell<M, A, C, R>)
    requires Counted(c.chan) && n !in c.chan.refs && Gains(c, n, r, d)
    requires (r.Caller? && c.chan.tx > 0)
             || ((r.Sender? || (r.Addr? && (r.polled ==> c.observed))) && c.chan.tx > 0 && c.chan.force > 0)
    ensures IsStep(prog, c, Upgrade(n, r), d) && Counted(d.chan)
  {
    AcquireCounted(c.chan, n, r);
    assert d.chan == Acquire(c.chan, n, r);
  }

  lemma CopyStep<M, A, C, R>(
      prog: Program<M, A, C, R>, c: Cell<M, A, C, R>, h: RefId, n: RefId, r: Ref<M>, d: Cell<M, A, C, R>)
    requires Counted(c.chan) && h in c.chan.refs && n !in c.chan.refs && Gains(c, n, r, d)
             && (r.Addr? || r.Sender? || r.Caller?)
    requires r == c.chan.refs[h] || (c.chan.refs[h].Addr? && !r.Addr?)
    ensures Counted(d.chan)
    ensures r == c.chan.refs[h] ==> IsStep(prog, c, Event.Clone(h, n), d)
    ensures c.chan.refs[h].Addr? && !r.Addr? ==> IsStep(prog, c, Event.Derive(h, n, r), d)
  {
    Held(c.chan, h);
    AcquireCounted(c.chan, n, r);
    assert d.chan == Acquire(c.chan, n, r);
  }

  lemma PollStep<M, A, C, R>(prog: Program<M, A, C, R>, c: Cell<M, A, C, R>, f: RefId, d: Cell<M, A, C, R>)
    requires Counted(c.chan) && f in c.chan.refs && c.chan.refs[f].SendFut?
    requires var p := Task(c.chan.refs[f].work, c.chan.refs[f].reply);
             d == if c.chan.open
                  then c.(chan := c.chan.(queue := c.chan.queue + [p], accepted := c.chan.accepted
                        + [p], refs := c.chan.refs[f := Flush]))
                  else c.(chan := c.chan.(refs := c.chan.refs - {f}, mpsc := c.chan.mpsc - 1),
                        calls := Settle(c.calls, p.reply, SendFailed))
    ensures IsStep(prog, c, PollSend(f), d) && Counted(d.chan)
  {
    CountedStep(prog, c, PollSend(f));
  }

  // What the status of a call says about its task.
  ghost predicate Tells<M, A, C, R>(
      prog: Program<M, A, C, R>, l: Local<A, C>, es: seq<Event<M>>, c: Cell<M, A, C, R>, k: CallId)
    requires k in c.calls
  {
    && (c.calls[k] == Waiting <==> Outstanding(c, k))
    && (c.calls[k] == SendFailed <==> WasRefused(prog, NewCell(l), es, k))
  }

  lemma StatusTells<M, A, C, R>(
      prog: Program<M, A, C, R>, l: Local<A, C>, es: seq<Event<M>>, c: Cell<M, A, C, R>, k: CallId)
    requires Reaches(prog, l, es, c) && k in c.calls
    ensures Tells(prog, l, es, c, k)
    ensures forall v :: c.calls[k] == Replied(v) <==> exists i :: RanToEnd(prog, l, c, i, k, v)
  {
    forall v ensures c.calls[k] == Replied(v) <==> exists i :: RanToEnd(prog, l, c, i, k, v) {
      CallOutcome(prog, l, es, c, k, v);
    }
    WaitsExactly(prog, l, es, c, k);
    assert ToldRefused(c, k) <==> WasRefused(prog, NewCell(l), es, k) by {
      InvInit(prog, l);
      RefusedExactly(prog, l, NewCell(l), es, c, k);
    }
  }

  // A call that is canceled stays so, whatever happens next: it is never answered.
  lemma CanceledForGood<M, A, C, R>(
      prog: Program<M, A, C, R>, l: Local<A, C>, es: seq<Event<M>>, c: Cell<M, A, C, R>, k: CallId)
    requires Reaches(prog, l, es, c) && k in c.calls && c.calls[k] == CallStatus.Canceled
    ensures forall future, d :: Run(prog, c, future, d) ==> k in d.calls && d.calls[k] == CallStatus.Canceled
  {
    forall future, d | Run(prog, c, future, d) ensures k in d.calls && d.calls[k] == CallStatus.Canceled {
      SettlesOnce(prog, l, es, c, future, d, k);
    }
  }

  class Shared<M, A, C, R> {
    const prog: Program<M, A, C, R>
    var refs: map<RefId, Ref<M>>
    var tx: int
    var force: int
    var mpsc: int
    var queue: seq<Payload<M>>
    var open: bool
    var calls: map<CallId, CallStatus<R>>
    var outcome: Option<Outcome>
    var observed: bool
    ghost var accepted: seq<Payload<M>>
    // the loop's side, which no handle touches
    ghost var loop: Cell<M, A, C, R>

    constructor (prog: Program<M, A, C, R>, l: Local<A, C>)
      ensures this.prog == prog && At() == NewCell(l) && Valid()
    {
      this.prog := prog;
      refs, tx, force, mpsc := map[0 := Addr(false)], 1, 1, 2;
      queue, open, calls, outcome, observed := [], true, map[], None, false;
      accepted := [];
      loop := NewCell(l);
      new;
      NewChanCounted<M>();
    }

    ghost function At(): Cell<M, A, C, R>
      reads this
    {
      loop.(chan := Chan(refs, tx, force, mpsc, queue, open, accepted), calls := calls, outcome := outcome,
            observed := observed)
    }

    ghost predicate Valid()
      reads this
    {
      Counted(At().chan)
    }

    // ForceTxFn::send: at once, or not at all.
    method ForceSend(p: Payload<M>) returns (r: Result<(), ActorError>)
      requires Valid() && force > 0 && (ReplyOf(p).Some? ==> ReplyOf(p).value !in calls)
      modifies this`queue, this`accepted, this`calls
      ensures Valid() && IsStep(prog, old(At()), Force(p), At())
      ensures r == if old(open) then Ok(()) else Err(AsyncSendError)
      ensures accepted == old(accepted) + if r.Ok? then [p] else []
      ensures queue == old(queue) + if r.Ok? then [p] else []
      ensures calls == match ReplyOf(p) case None => old(calls)
                                        case Some(k) => old(calls)[k := if r.Ok? then Waiting else SendFailed]
    {
      CountedStep(prog, At(), Force(p));
      if open {
        queue, accepted, r := queue + [p], accepted + [p], Ok(());
        calls := Settle(calls, ReplyOf(p), Waiting);
      } else {
        r := Err(AsyncSendError);
        calls := Settle(calls, ReplyOf(p), SendFailed);
      }
    }

    // Addr::stop
    method Stop(h: RefId) returns (r: Result<(), ActorError>)
      requires Valid() && h in refs && refs[h].Addr?
      modifies this
      ensures Valid() && IsStep(prog, old(At()), Force(Messages.Stop), At())
      ensures r.Ok? == old(open) && accepted == old(accepted) + if r.Ok? then [Messages.Stop] else []
    {
      Held(At().chan, h);
      r := ForceSend(Messages.Stop);
    }

    // Addr::restart
    method Restart(h: RefId) returns (r: Result<(), ActorError>)
      requires Valid() && h in refs && refs[h].Addr?
      modifies this
      ensures Valid() && IsStep(prog, old(At()), Force(Messages.Restart), At())
      ensures r.Ok? == old(open) && accepted == old(accepted) + if r.Ok? then [Messages.Restart] else []
    {
      Held(At().chan, h);
      r := ForceSend(Messages.Restart);
    }

    // Context::stop: through the weak force path, so also from inside the actor, but not once the
    // last Addr and Sender are gone.
    method CtxStop() returns (r: Result<(), ActorError>)
      requires Valid()
      modifies this
      ensures Valid()
      ensures r == Err(AlreadyStopped) <==> old(force) == 0
      ensures r != Err(AlreadyStopped) ==> IsStep(prog, old(At()), Force(Messages.Stop), At()) && r.Ok? == old(open)
      ensures queue == old(queue) + if r.Ok? then [Messages.Stop] else []
      ensures r == Err(AlreadyStopped) ==> At() == old(At())
    {
      ForceBelowTx(At().chan);
      if force > 0 { r := ForceSend(Messages.Stop); } else { r := Err(AlreadyStopped); }
    }

    // Context::restart: likewise.
    method CtxRestart() returns (r: Result<(), ActorError>)
      requires Valid()
      modifies this
      ensures Valid()
      ensures r == Err(AlreadyStopped) <==> old(force) == 0
      ensures r != Err(AlreadyStopped) ==> IsStep(prog, old(At()), Force(Messages.Restart), At()) && r.Ok? == old(open)
      ensures queue == old(queue) + if r.Ok? then [Messages.Restart] else []
      ensures r == Err(AlreadyStopped) ==> At() == old(At())
    {
      ForceBelowTx(At().chan);
      if force > 0 { r := ForceSend(Messages.Restart); } else { r := Err(AlreadyStopped); }
    }

    // Addr::call and Addr::ping up to their first await; the reply slot is named k.
    method Call(h: RefId, work: Work<M>, k: CallId) returns (r: Result<(), ActorError>)
      requires Valid() && h in refs && refs[h].Addr? && k !in calls
      modifies this
      ensures Valid() && IsStep(prog, old(At()), Force(Task(work, Some(k))), At())
      ensures k in calls && calls[k] == if r.Ok? then Waiting else SendFailed
    {
      Held(At().chan, h);
      r := ForceSend(Task(work, Some(k)));
    }

    // What awaiting the reply gives, at any moment of any run. Nothing yet exactly while the task is waiting
    // to be enqueued, or accepted by a loop that has not got through it; the sequential answer exactly if
    // the task ran to its end; a send error exactly if it was refused for want of a receiver; and else a
    // cancellation, after which no future brings an answer.
    method PollReply(
        k: CallId, ghost l: Local<A, C>, ghost es: seq<Event<M>>) returns (r: Option<Result<Reply<R>, ActorError>>)
      requires k in calls && Reaches(prog, l, es, At())
      ensures r.None? <==> Outstanding(At(), k)
      ensures forall v :: r == Some(Ok(v)) <==> exists i :: RanToEnd(prog, l, At(), i, k, v)
      ensures r == Some(Err(AsyncSendError)) <==> WasRefused(prog, NewCell(l), es, k)
      ensures r != Some(Err(AlreadyStopped))
      ensures r == Some(Err(ActorError.Canceled)) ==>
                forall future, d :: Run(prog, At(), future, d) ==> k in d.calls && d.calls[k] == CallStatus.Canceled
    {
      StatusTells(prog, l, es, At(), k);
      match calls[k] {
        case Waiting => r := None;
        case Replied(v) => r := Some(Ok(v));
        case SendFailed => r := Some(Err(AsyncSendError));
        case Canceled =>
          r := Some(Err(ActorError.Canceled));
          CanceledForGood(prog, l, es, At(), k);
      }
      forall v ensures r == Some(Ok(v)) <==> exists i :: RanToEnd(prog, l, At(), i, k, v) {
        assert r == Some(Ok(v)) <==> calls[k] == Replied(v);
      }
    }

    // Sender::send: creating the future clones the mpsc sender ...
    method Send(h: RefId, f: RefId, msg: M)
      requires Valid() && h in refs && (refs[h].Addr? || refs[h].Sender?) && f !in refs
      modifies this`refs, this`mpsc
      ensures Valid() && IsStep(prog, old(At()), BeginSend(f, Handle(msg)), At())
      ensures refs == old(refs)[f := SendFut(Handle(msg), None)]
    {
      Held(At().chan, h);
      CountedStep(prog, At(), BeginSend(f, Handle(msg)));
      refs, mpsc := refs[f := SendFut(Handle(msg), None)], mpsc + 1;
    }

    // ... and polling it enqueues, or fails because the receiver is gone.
    method PollSendFuture(f: RefId) returns (r: Result<(), ActorError>)
      requires Valid() && f in refs && refs[f].SendFut?
      modifies this`refs, this`mpsc, this`queue, this`accepted, this`calls
      ensures Valid() && IsStep(prog, old(At()), PollSend(f), At())
      ensures r.Ok? == old(open)
      ensures accepted == old(accepted) + if r.Ok? then [Task(old(refs)[f].work, old(refs)[f].reply)] else []
      ensures queue == old(queue) + if r.Ok? then [Task(old(refs)[f].work, old(refs)[f].reply)] else []
      ensures refs == if r.Ok? then old(refs)[f := Flush] else old(refs) - {f}
      ensures calls == if r.Ok? || old(refs)[f].reply.None? then old(calls)
                       else old(calls)[old(refs)[f].reply.value := SendFailed]
    {
      ghost var c := At();
      var SendFut(w, k) := refs[f];
      if open {
        queue, accepted, refs, r := queue + [Task(w, k)], accepted + [Task(w, k)], refs[f := Flush], Ok(());
      } else {
        refs, mpsc, r := refs - {f}, mpsc - 1, Err(AsyncSendError);
        calls := Settle(calls, k, SendFailed);
      }
      PollStep(prog, c, f, At());
    }

    // Addr::send is an async fn: nothing happens before its first poll, which does both.
    method AddrSend(h: RefId, f: RefId, msg: M) returns (r: Result<(), ActorError>)
      requires Valid() && h in refs && refs[h].Addr? && f !in refs
      modifies this
      ensures Valid() && Run(prog, old(At()), [BeginSend(f, Handle(msg)), PollSend(f)], At())
      ensures r.Ok? == old(open) && accepted == old(accepted) + if r.Ok? then [Task(Handle(msg), None)] else []
    {
      ghost var c := At();
      Send(h, f, msg);
      ghost var d := At();
      r := PollSendFuture(f);
      TwoSteps(prog, c, BeginSend(f, Handle(msg)), d, PollSend(f), At());
    }

    // Caller::call: the future keeps a clone of the awaiting path beside the pending send.
    method CallerCall(h: RefId, n: RefId, f: RefId, k: CallId, msg: M)
      requires Valid() && h in refs && refs[h].Caller? && n !in refs && f !in refs && n != f && k !in calls
      modifies this`refs, this`tx, this`mpsc, this`calls
      ensures Valid() && IsStep(prog, old(At()), BeginCall(n, f, k, Handle(msg)), At())
      ensures refs == old(refs)[n := Calling(k)][f := SendFut(Handle(msg), Some(k))]
      ensures calls == old(calls)[k := Waiting]
    {
      Held(At().chan, h);
      ghost var c := At();
      tx, mpsc := tx + 1, mpsc + 1;
      refs := refs[n := Calling(k)][f := SendFut(Handle(msg), Some(k))];
      calls := calls[k := Waiting];
      CallStep(prog, c, n, f, k, Handle(msg), At());
    }

    // Clone of an Addr, Sender or Caller.
    method Clone(h: RefId, n: RefId)
      requires Valid() && h in refs && (refs[h].Addr? || refs[h].Sender? || refs[h].Caller?) && n !in refs
      modifies this`refs, this`tx, this`force
      ensures Valid() && IsStep(prog, old(At()), Event.Clone(h, n), At())
      ensures refs == old(refs)[n := old(refs)[h]]
    {
      ghost var c := At();
      tx, force := tx + 1, force + if refs[h].Caller? then 0 else 1;
      refs := refs[n := refs[h]];
      CopyStep(prog, c, h, n, c.chan.refs[h], At());
    }

    // Addr::sender and Addr::caller.
    method Derive(h: RefId, n: RefId, r: Ref<M>)
      requires Valid() && h in refs && refs[h].Addr? && (r.Sender? || r.Caller?) && n !in refs
      modifies this`refs, this`tx, this`force
      ensures Valid() && IsStep(prog, old(At()), Event.Derive(h, n, r), At())
      ensures refs == old(refs)[n := r]
    {
      ghost var c := At();
      tx, force := tx + 1, force + if r.Caller? then 0 else 1;
      refs := refs[n := r];
      CopyStep(prog, c, h, n, r, At());
    }

    // `Sender::from(addr)` gives up the Addr.
    method IntoSender(h: RefId, n: RefId)
      requires Valid() && h in refs && refs[h].Addr? && n !in refs
      modifies this`refs, this`tx, this`force, this`mpsc
      ensures Valid() && Run(prog, old(At()), [Event.Derive(h, n, Sender), Discard(h)], At())
      ensures refs == old(refs)[n := Sender] - {h}
    {
      ghost var c := At();
      Derive(h, n, Sender);
      ghost var d := At();
      DropStrong(h);
      TwoSteps(prog, c, Event.Derive(h, n, Sender), d, Discard(h), At());
    }

    // WeakAddr::upgrade, WeakSender::upgrade and Context::address: both paths or nothing.
    method UpgradeStrong(n: RefId, r: Ref<M>) returns (ok: bool)
      requires Valid() && n !in refs && (r.Sender? || (r.Addr? && (r.polled ==> observed)))
      modifies this`refs, this`tx, this`force
      ensures Valid() && ok == (exists h :: h in old(refs) && HoldsForce(old(refs)[h]))
      ensures refs == if ok then old(refs)[n := r] else old(refs)
      ensures if ok then IsStep(prog, old(At()), Upgrade(n, r), At()) else At() == old(At())
    {
      ForceBelowTx(At().chan);
      CountPositive(refs, HoldsForce);
      ok := tx > 0 && force > 0;
      if ok {
        ghost var c := At();
        tx, force, refs := tx + 1, force + 1, refs[n := r];
        UpgradeStep(prog, c, n, r, At());
      }
    }

    // WeakCaller::upgrade: the awaiting path alone.
    method UpgradeToCaller(n: RefId) returns (ok: bool)
      requires Valid() && n !in refs
      modifies this`refs, this`tx
      ensures Valid() && ok == (exists h :: h in old(refs) && HoldsTx(old(refs)[h]))
      ensures refs == if ok then old(refs)[n := Caller] else old(refs)
      ensures if ok then IsStep(prog, old(At()), Upgrade(n, Caller), At()) else At() == old(At())
    {
      CountPositive(refs, HoldsTx);
      ok := tx > 0;
      if ok {
        ghost var c := At();
        tx, refs := tx + 1, refs[n := Caller];
        UpgradeStep(prog, c, n, Caller, At());
      }
    }

    // Dropping an Addr or a Sender; the last Arc of a path drops the mpsc sender in its closure.
    method DropStrong(h: RefId)
      requires Valid() && h in refs && (refs[h].Addr? || refs[h].Sender?)
      modifies this`refs, this`tx, this`force, this`mpsc
      ensures Valid() && IsStep(prog, old(At()), Discard(h), At()) && refs == old(refs) - {h}
    {
      ghost var c := At();
      refs, tx, force := refs - {h}, tx - 1, force - 1;
      mpsc := mpsc - One(tx == 0) - One(force == 0);
      DropStep(prog, c, h, At());
    }

    // WeakSender::try_force_send, which every tick of an interval calls: upgrade, send, drop. It
    // leaves no handle behind.
    method TryForceSend(n: RefId, msg: M) returns (r: Result<(), ActorError>)
      requires Valid() && n !in refs
      modifies this
      ensures Valid()
      ensures r == Err(AlreadyStopped) <==> !exists h :: h in old(refs) && HoldsForce(old(refs)[h])
      ensures r != Err(AlreadyStopped) ==> r.Ok? == old(open)
      ensures accepted == old(accepted) + if r.Ok? then [Task(Handle(msg), None)] else []
      ensures refs == old(refs) && tx == old(tx) && force == old(force) && mpsc == old(mpsc) && calls == old(calls)
    {
      var ok := UpgradeStrong(n, Sender);
      if !ok { return Err(AlreadyStopped); }
      Held(At().chan, n);
      r := ForceSend(Task(Handle(msg), None));
      DropStrong(n);
      assert refs == old(refs);
    }

    // Dropping a Caller, or the future of one of its calls.
    method DropCaller(h: RefId)
      requires Valid() && h in refs && (refs[h].Caller? || refs[h].Calling?)
      modifies this`refs, this`tx, this`mpsc
      ensures Valid() && IsStep(prog, old(At()), Discard(h), At()) && refs == old(refs) - {h}
    {
      ghost var c := At();
      refs, tx := refs - {h}, tx - 1;
      mpsc := mpsc - One(tx == 0);
      DropStep(prog, c, h, At());
    }

    // Dropping a send future; one that was never polled takes its payload and the reply slot along.
    method DropFuture(h: RefId)
      requires Valid() && h in refs && (refs[h].SendFut? || refs[h].Flush?)
      modifies this`refs, this`mpsc, this`calls
      ensures Valid() && IsStep(prog, old(At()), Discard(h), At()) && refs == old(refs) - {h}
      ensures calls == if old(refs)[h].SendFut? && old(refs)[h].reply.Some?
                       then old(calls)[old(refs)[h].reply.value := CallStatus.Canceled] else old(calls)
    {
      ghost var c := At();
      if refs[h].SendFut? { calls := Settle(calls, refs[h].reply, CallStatus.Canceled); }
      refs, mpsc := refs - {h}, mpsc - 1;
      DropStep(prog, c, h, At());
    }

    // Polling an Addr as a future.
    method PollAddr(h: RefId) returns (r: Option<Result<(), ActorError>>)
      requires Valid() && h in refs && refs[h] == Addr(false)
      modifies this`refs, this`observed
      ensures Valid() && r.Some? == old(outcome).Some?
      ensures r == Some(Ok(())) <==> old(outcome) == Some(SaidStopped)
      ensures if r.Some? then IsStep(prog, old(At()), AwaitAddr(h), At()) else At() == old(At())
      // from then on peeking through other handles sees the result, through this one no more
      ensures r.Some? ==> observed && refs == old(refs)[h := Addr(true)]
    {
      if outcome.None? { return None; }
      CountedStep(prog, At(), AwaitAddr(h));
      refs, observed := refs[h := Addr(true)], true;
      r := Some(if outcome.value.SaidStopped? then Ok(()) else Err(ActorError.Canceled));
    }
  }
}
