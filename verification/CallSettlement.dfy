/** Where the reply channel of a call is, and how the call therefore ends: every step of the actor
    machine keeps `OnePlace` and `Settled` (src/addr.rs, src/addr/caller.rs, src/environment.rs). */
module CallSettlement {
  import opened Messages
  import opened Sequential
  import opened Handles
  import opened Actors
  import opened ActorInvariant

  ghost predicate Calls<M, A, C, R>(prog: Program<M, A, C, R>, l: Local<A, C>, c: Cell<M, A, C, R>) {
    Flow(c) && Tracks(prog, l, c) && OnePlace(c) && Settled(prog, l, c)
  }

  // A call id nobody has used is nowhere.
  lemma FreshIsNowhere<M, A, C, R>(prog: Program<M, A, C, R>, l: Local<A, C>, c: Cell<M, A, C, R>, k: CallId)
    requires Settled(prog, l, c) && k !in c.calls
    ensures forall i :: !HasReply(c.chan.accepted, i, k)
    ensures forall f :: !Pending(c.chan.refs, f, k)
  {
  }

  // Verdicts on what was already handled are final.
  lemma VerdictFinal<M, A, C, R>(
      prog: Program<M, A, C, R>, l: Local<A, C>, c: Cell<M, A, C, R>, d: Cell<M, A, C, R>, i: nat)
    requires i < |c.chan.accepted| && c.chan.accepted[i].Task? && c.chan.accepted <= d.chan.accepted
    requires c.handled <= d.handled && i < |c.handled|
    ensures Verdict(prog, l, d, i) == Verdict(prog, l, c, i)
  {
    assert d.handled[..i] == c.handled[..i];
  }

  // Steps that touch neither the log nor a call, create no pending call, and log no task.
  ghost predicate LeavesCallsAlone<M, A, C, R>(c: Cell<M, A, C, R>, d: Cell<M, A, C, R>) {
    && d.chan.accepted == c.chan.accepted && d.calls == c.calls
    && (forall f, k :: Pending(d.chan.refs, f, k) <==> Pending(c.chan.refs, f, k))
    && c.handled <= d.handled && (forall i :: |c.handled| <= i < |d.handled| ==> !d.handled[i].payload.Task?)
    && d.phase.Gone? == c.phase.Gone?
  }

  lemma Untouched<M, A, C, R>(prog: Program<M, A, C, R>, l: Local<A, C>, c: Cell<M, A, C, R>, d: Cell<M, A, C, R>)
    requires Calls(prog, l, c) && LeavesCallsAlone(c, d) && PayloadsOf(d.handled) <= d.chan.accepted
    ensures OnePlace(d) && Settled(prog, l, d)
  {
    forall j | |c.handled| <= j < |d.handled| ensures !d.chan.accepted[j].Task? {
      assert PayloadsOf(d.handled)[j] == d.chan.accepted[j];
    }
    forall i, k | HasReply(d.chan.accepted, i, k) ensures k in d.calls && d.calls[k] == Verdict(prog, l, d, i) {
      assert HasReply(c.chan.accepted, i, k);
      if i < |c.handled| { VerdictFinal(prog, l, c, d, i); }
    }
    forall k | k in d.calls && d.calls[k] != SendFailed && d.calls[k] != Canceled
      ensures (exists i :: HasReply(d.chan.accepted, i, k)) || (exists f :: Pending(d.chan.refs, f, k))
    {
      assert k in c.calls;
      if f :| Pending(c.chan.refs, f, k) { assert Pending(d.chan.refs, f, k); }
      else { var i :| HasReply(c.chan.accepted, i, k); assert HasReply(d.chan.accepted, i, k); }
    }
  }

  // Enqueueing, whether through the force path or by polling a pending send.
  ghost predicate Enqueues<M, A, C, R>(c: Cell<M, A, C, R>, d: Cell<M, A, C, R>, p: Payload<M>) {
    && d.chan.accepted == c.chan.accepted + [p] && d.handled == c.handled && d.phase == c.phase && !c.phase.Gone?
    && d.calls == Settle(c.calls, ReplyOf(p), Waiting)
    && (forall f, k :: Pending(d.chan.refs, f, k) <==> Pending(c.chan.refs, f, k) && ReplyOf(p) != Some(k))
    && (ReplyOf(p).Some? ==> forall i :: !HasReply(c.chan.accepted, i, ReplyOf(p).value))
  }

  lemma Enqueued<M, A, C, R>(
      prog: Program<M, A, C, R>, l: Local<A, C>, c: Cell<M, A, C, R>, d: Cell<M, A, C, R>, p: Payload<M>)
    requires Calls(prog, l, c) && Enqueues(c, d, p)
    ensures OnePlace(d) && Settled(prog, l, d)
  {
    var n := |c.chan.accepted|;
    assert forall i, k :: HasReply(d.chan.accepted, i, k) <==>
              HasReply(c.chan.accepted, i, k) || (i == n && ReplyOf(p) == Some(k));
    forall i, k | HasReply(d.chan.accepted, i, k) ensures k in d.calls && d.calls[k] == Verdict(prog, l, d, i) {
      assert |c.handled| <= n by { assert PayloadsOf(c.handled) <= c.chan.accepted; }
      if i < n {
        assert HasReply(c.chan.accepted, i, k);
        if i < |c.handled| { VerdictFinal(prog, l, c, d, i); }
      }
    }
    forall k | k in d.calls && d.calls[k] != SendFailed && d.calls[k] != Canceled
      ensures (exists i :: HasReply(d.chan.accepted, i, k)) || (exists f :: Pending(d.chan.refs, f, k))
    {
      if ReplyOf(p) == Some(k) {
        assert HasReply(d.chan.accepted, n, k);
      } else if f :| Pending(c.chan.refs, f, k) { assert Pending(d.chan.refs, f, k); }
      else { var i :| HasReply(c.chan.accepted, i, k); assert HasReply(d.chan.accepted, i, k); }
    }
  }

  // The task in flight leaves the loop, one way or the other.
  ghost predicate Dispatches<M, A, C, R>(
      prog: Program<M, A, C, R>, l: Local<A, C>, c: Cell<M, A, C, R>, d: Cell<M, A, C, R>) {
    && c.phase.Busy? && !d.phase.Gone? && d.chan == c.chan
    && |d.handled| == |c.handled| + 1 && d.handled[..|c.handled|] == c.handled
    && (var e := d.handled[|c.handled|];
        && e.payload == Task(c.phase.work, c.phase.reply)
        && d.calls == Settle(c.calls, c.phase.reply,
                             if e.fate == Completed
                             then Replied(TaskAnswer(prog, c.phase.work, Folded(prog, l, c).local)) else Canceled))
  }

  lemma Dispatched<M, A, C, R>(prog: Program<M, A, C, R>, l: Local<A, C>, c: Cell<M, A, C, R>, d: Cell<M, A, C, R>)
    requires Calls(prog, l, c) && Dispatches(prog, l, c, d)
    ensures OnePlace(d) && Settled(prog, l, d)
  {
    var n := |c.handled|;
    assert c.chan.accepted[n] == Task(c.phase.work, c.phase.reply) by {
      assert (PayloadsOf(c.handled) + InFlight(c.phase) + c.chan.queue)[n] == InFlight(c.phase)[0];
    }
    forall i, k | HasReply(d.chan.accepted, i, k) ensures k in d.calls && d.calls[k] == Verdict(prog, l, d, i) {
      if i < n { VerdictFinal(prog, l, c, d, i); }
      if i != n {
        assert c.phase.reply != Some(k) by { if c.phase.reply == Some(k) { assert HasReply(c.chan.accepted, n, k); } }
      }
    }
    if c.phase.reply.Some? { assert HasReply(c.chan.accepted, n, c.phase.reply.value); }
  }

  // A call or a pending send appears or disappears without anything being enqueued.
  ghost predicate OnlyPending<M, A, C, R>(c: Cell<M, A, C, R>, d: Cell<M, A, C, R>, k: CallId, st: CallStatus<R>) {
    && d.chan.accepted == c.chan.accepted && d.handled == c.handled && d.phase == c.phase
    && d.calls == c.calls[k := st]
    && (forall i :: !HasReply(c.chan.accepted, i, k))
    && (forall f, j | j != k :: Pending(d.chan.refs, f, j) <==> Pending(c.chan.refs, f, j))
    && (if st == Waiting
        then (exists f :: Pending(d.chan.refs, f, k))
             && (forall f, g :: Pending(d.chan.refs, f, k) && Pending(d.chan.refs, g, k) ==> f == g)
        else (st == SendFailed || st == Canceled) && forall f :: !Pending(d.chan.refs, f, k))
  }

  lemma PendingChanged<M, A, C, R>(
      prog: Program<M, A, C, R>, l: Local<A, C>, c: Cell<M, A, C, R>, d: Cell<M, A, C, R>, k: CallId,
      st: CallStatus<R>)
    requires Calls(prog, l, c) && OnlyPending(c, d, k, st)
    ensures OnePlace(d) && Settled(prog, l, d)
  {
    forall i, j | HasReply(d.chan.accepted, i, j) ensures j in d.calls && d.calls[j] == Verdict(prog, l, d, i) {
      assert HasReply(c.chan.accepted, i, j);
    }
    forall j | j in d.calls && d.calls[j] != SendFailed && d.calls[j] != Canceled
      ensures (exists i :: HasReply(d.chan.accepted, i, j)) || (exists f :: Pending(d.chan.refs, f, j))
    {
      if j != k {
        if f :| Pending(c.chan.refs, f, j) { assert Pending(d.chan.refs, f, j); }
        else { var i :| HasReply(c.chan.accepted, i, j); assert HasReply(d.chan.accepted, i, j); }
      }
    }
  }

  // Once its pending send is gone, a call is pending nowhere.
  lemma OnlyThere<M, A, C, R>(c: Cell<M, A, C, R>, d: Cell<M, A, C, R>, f: RefId, k: CallId)
    requires OnePlace(c) && Pending(c.chan.refs, f, k) && (f in d.chan.refs ==> !d.chan.refs[f].SendFut?)
    requires forall g :: g in d.chan.refs && g != f ==> g in c.chan.refs && d.chan.refs[g] == c.chan.refs[g]
    ensures forall g :: !Pending(d.chan.refs, g, k)
    ensures forall i :: !HasReply(c.chan.accepted, i, k)
  {
    assert forall g :: Pending(d.chan.refs, g, k) ==> g != f && Pending(c.chan.refs, g, k);
  }

  lemma SettledForce<M, A, C, R>(prog: Program<M, A, C, R>, l: Local<A, C>, c: Cell<M, A, C, R>, p: Payload<M>)
    requires Calls(prog, l, c) && Can(prog, c, Force(p))
    ensures OnePlace(Next(prog, c, Force(p))) && Settled(prog, l, Next(prog, c, Force(p)))
  {
    var d := Next(prog, c, Force(p));
    if ReplyOf(p).Some? { FreshIsNowhere(prog, l, c, ReplyOf(p).value); }
    if c.chan.open {
      Enqueued(prog, l, c, d, p);
    } else if ReplyOf(p).Some? {
      PendingChanged(prog, l, c, d, ReplyOf(p).value, SendFailed);
    }
  }

  lemma SettledPoll<M, A, C, R>(prog: Program<M, A, C, R>, l: Local<A, C>, c: Cell<M, A, C, R>, f: RefId)
    requires Calls(prog, l, c) && Can(prog, c, PollSend(f))
    ensures OnePlace(Next(prog, c, PollSend(f))) && Settled(prog, l, Next(prog, c, PollSend(f)))
  {
    var d := Next(prog, c, PollSend(f));
    var SendFut(w, k) := c.chan.refs[f];
    if k.Some? { assert Pending(c.chan.refs, f, k.value); OnlyThere(c, d, f, k.value); }
    if c.chan.open {
      assert Settle(c.calls, k, Waiting) == c.calls;
      Enqueued(prog, l, c, d, Task(w, k));
    } else if k.Some? {
      PendingChanged(prog, l, c, d, k.value, SendFailed);
    } else {
      Untouched(prog, l, c, d);
    }
  }

  lemma SettledBegin<M, A, C, R>(
      prog: Program<M, A, C, R>, l: Local<A, C>, c: Cell<M, A, C, R>, n: RefId, f: RefId, k: CallId, w: Work<M>)
    requires Calls(prog, l, c) && Can(prog, c, BeginCall(n, f, k, w))
    ensures var d := Next(prog, c, BeginCall(n, f, k, w)); OnePlace(d) && Settled(prog, l, d)
  {
    var d := Next(prog, c, BeginCall(n, f, k, w));
    FreshIsNowhere(prog, l, c, k);
    assert Pending(d.chan.refs, f, k);
    assert forall g :: Pending(d.chan.refs, g, k) ==> g == f || Pending(c.chan.refs, g, k);
    PendingChanged(prog, l, c, d, k, Waiting);
  }

  lemma SettledDiscard<M, A, C, R>(prog: Program<M, A, C, R>, l: Local<A, C>, c: Cell<M, A, C, R>, h: RefId)
    requires Calls(prog, l, c) && Can(prog, c, Discard(h))
    ensures OnePlace(Next(prog, c, Discard(h))) && Settled(prog, l, Next(prog, c, Discard(h)))
  {
    var d := Next(prog, c, Discard(h));
    if c.chan.refs[h].SendFut? && c.chan.refs[h].reply.Some? {
      OnlyThere(c, d, h, c.chan.refs[h].reply.value);
      PendingChanged(prog, l, c, d, c.chan.refs[h].reply.value, Canceled);
    } else {
      Untouched(prog, l, c, d);
    }
  }

  lemma SettledLeave<M, A, C, R>(prog: Program<M, A, C, R>, l: Local<A, C>, c: Cell<M, A, C, R>)
    requires Calls(prog, l, c) && Can(prog, c, Leave)
    ensures OnePlace(Next(prog, c, Leave)) && Settled(prog, l, Next(prog, c, Leave))
  {
    var d, q, n := Next(prog, c, Leave), c.chan.queue, |c.handled|;
    assert c.chan.accepted == PayloadsOf(c.handled) + q;
    forall i, k | HasReply(c.chan.accepted, i, k) ensures k in RepliesIn(q) <==> i >= n {
      if i >= n {
        assert q[i - n] == c.chan.accepted[i];
      } else if k in RepliesIn(q) {
        var j :| 0 <= j < |q| && ReplyOf(q[j]) == Some(k);
        assert HasReply(c.chan.accepted, n + j, k);
      }
    }
    forall i, k | HasReply(d.chan.accepted, i, k) ensures k in d.calls && d.calls[k] == Verdict(prog, l, d, i) {
      assert HasReply(c.chan.accepted, i, k);
    }
    forall f, k | Pending(d.chan.refs, f, k) ensures k in d.calls && d.calls[k] == Waiting {
      assert Pending(c.chan.refs, f, k);
      if k in RepliesIn(q) {
        var j :| 0 <= j < |q| && ReplyOf(q[j]) == Some(k);
        assert HasReply(c.chan.accepted, n + j, k);
      }
    }
  }

  lemma SettledDispatch<M, A, C, R>(prog: Program<M, A, C, R>, l: Local<A, C>, c: Cell<M, A, C, R>, e: Event<M>)
    requires Calls(prog, l, c) && Can(prog, c, e) && (e.Complete? || e.Expire? || (e.Abort? && c.phase.Busy?))
    ensures OnePlace(Next(prog, c, e)) && Settled(prog, l, Next(prog, c, e))
  {
    Dispatched(prog, l, c, Next(prog, c, e));
  }

  lemma SettledStep<M, A, C, R>(prog: Program<M, A, C, R>, l: Local<A, C>, c: Cell<M, A, C, R>, e: Event<M>)
    requires Calls(prog, l, c) && Can(prog, c, e)
    ensures OnePlace(Next(prog, c, e)) && Settled(prog, l, Next(prog, c, e))
  {
    if e.Force? {
      SettledForce(prog, l, c, e.payload);
    } else if e.PollSend? {
      SettledPoll(prog, l, c, e.f);
    } else if e.BeginCall? {
      SettledBegin(prog, l, c, e.n, e.f, e.call, e.work);
    } else if e.Discard? {
      SettledDiscard(prog, l, c, e.h);
    } else if e.Leave? {
      SettledLeave(prog, l, c);
    } else if e.Complete? || e.Expire? || (e.Abort? && c.phase.Busy?) {
      SettledDispatch(prog, l, c, e);
    } else {
      SettledQuiet(prog, l, c, e);
    }
  }

  lemma SettledQuiet<M, A, C, R>(prog: Program<M, A, C, R>, l: Local<A, C>, c: Cell<M, A, C, R>, e: Event<M>)
    requires Calls(prog, l, c) && Can(prog, c, e)
    requires !e.Force? && !e.PollSend? && !e.BeginCall? && !e.Discard? && !e.Leave? && !e.Complete? && !e.Expire?
    requires e.Abort? ==> !c.phase.Busy?
    ensures OnePlace(Next(prog, c, e)) && Settled(prog, l, Next(prog, c, e))
  {
    FlowStep(prog, c, e);
    if e.OfLoop() {
      LoopLeavesCallsAlone(prog, c, e);
    } else if e.Acquires() {
      NewRefLeavesCallsAlone(prog, c, e);
    }
    Untouched(prog, l, c, Next(prog, c, e));
  }

  lemma LoopLeavesCallsAlone<M, A, C, R>(prog: Program<M, A, C, R>, c: Cell<M, A, C, R>, e: Event<M>)
    requires Can(prog, c, e) && e.OfLoop() && !e.Leave? && !e.Complete? && !e.Expire? && (e.Abort? ==> !c.phase.Busy?)
    ensures LeavesCallsAlone(c, Next(prog, c, e))
  {
    assert Next(prog, c, e).chan.refs == c.chan.refs;
  }

  lemma NewRefLeavesCallsAlone<M, A, C, R>(prog: Program<M, A, C, R>, c: Cell<M, A, C, R>, e: Event<M>)
    requires Can(prog, c, e) && e.Acquires() && !e.BeginCall?
    ensures LeavesCallsAlone(c, Next(prog, c, e))
  {
    var d := Next(prog, c, e);
    assert d.handled == c.handled && d.calls == c.calls && d.phase == c.phase && d.chan.accepted == c.chan.accepted;
    forall f, k ensures Pending(d.chan.refs, f, k) <==> Pending(c.chan.refs, f, k) {}
  }
}
