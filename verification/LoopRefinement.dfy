/** The interleaved machine runs the loop of the source: whatever the clients do meanwhile, what the
    actor went through is what `CreateLoop` does on the mailbox it turned out to accept. */
module LoopRefinement {
  import opened Messages
  import opened Sequential
  import opened Handles
  import opened Actors
  import opened ActorTheorems
  import opened EventLoop

  // The delays that cut what was cut.
  function DelaysOf<M>(es: seq<Entry<M>>): Delays {
    (i: nat) => if i < |es| && es[i].fate.CutAt? then Some(es[i].fate.pc) else None
  }

  // No entry says Aborted unless the run ended there.
  lemma NoAbortBefore<M, A, C, R>(prog: Program<M, A, C, R>, l: Local<A, C>, c: Cell<M, A, C, R>, i: nat)
    requires Fates(prog, l, c) && i < |c.handled| && Folded(prog, l, c).status != Failed(Aborted)
    ensures !c.handled[i].fate.AbortedAt?
  {
    var s := Begin(prog, l);
    assert c.handled[..i + 1][..i] == c.handled[..i];
    assert i + 1 == |c.handled| ==> c.handled[..i + 1] == c.handled;
  }

  lemma SameEntry<M, A, C, R>(prog: Program<M, A, C, R>, l: Local<A, C>, c: Cell<M, A, C, R>, i: nat)
    requires Fates(prog, l, c) && PayloadsOf(c.handled) <= c.chan.accepted && i < |c.handled|
    requires Folded(prog, l, c).status != Failed(Aborted)
    ensures Entry(c.chan.accepted[i], FateOf(prog, c.chan.accepted[i], DelaysOf(c.handled)(i))) == c.handled[i]
  {
    assert c.chan.accepted[i] == PayloadsOf(c.handled)[i];
    assert !c.handled[i].fate.AbortedAt? by { NoAbortBefore(prog, l, c, i); }
  }

  lemma SameEntries<M, A, C, R>(prog: Program<M, A, C, R>, l: Local<A, C>, c: Cell<M, A, C, R>, k: nat)
    requires Fates(prog, l, c) && PayloadsOf(c.handled) <= c.chan.accepted && k <= |c.handled|
    requires Folded(prog, l, c).status != Failed(Aborted)
    ensures Entries(prog, c.chan.accepted[..k], DelaysOf(c.handled)) == c.handled[..k]
  {
    var es := Entries(prog, c.chan.accepted[..k], DelaysOf(c.handled));
    forall i | 0 <= i < k ensures es[i] == c.handled[i] {
      SameEntry(prog, l, c, i);
    }
  }

  // What the loop's future returned.
  function ReturnValue<M, A, C, R>(c: Cell<M, A, C, R>): Result<A, Failure>
    requires c.phase.Gone?
  {
    if c.phase.exit == Clean then Ok(c.local.actor) else Err(c.phase.exit.failure)
  }

  lemma SameDispatch<M, A, C, R>(prog: Program<M, A, C, R>, l: Local<A, C>, c: Cell<M, A, C, R>)
    requires Fates(prog, l, c) && PayloadsOf(c.handled) <= c.chan.accepted
             && Folded(prog, l, c).status != Failed(Aborted)
    ensures |c.handled| <= |c.chan.accepted|
    ensures Dispatched(prog, l, c.chan.accepted, |c.handled|, DelaysOf(c.handled)) == Folded(prog, l, c)
    ensures |c.handled| > 0 ==>
              Dispatched(prog, l, c.chan.accepted, |c.handled| - 1, DelaysOf(c.handled)).status == Live
  {
    var n := |c.handled|;
    SameEntries(prog, l, c, n);
    assert c.handled[..n] == c.handled;
    if n > 0 { SameEntries(prog, l, c, n - 1); }
  }

  // How the machine stands at an exit that was not cut short.
  lemma ExitState<M, A, C, R>(prog: Program<M, A, C, R>, l: Local<A, C>, c: Cell<M, A, C, R>)
    requires Tracks(prog, l, c) && c.phase.Gone? && c.phase.exit != Error(Aborted)
    ensures var s, r := Folded(prog, l, c), ReturnValue(c);
            && State(Local(if r.Ok? then r.value else s.local.actor, c.local.ctx), c.trace, s.status) == Close(prog, s)
            && (if r.Ok? then s.status in {Live, Broke} else s.status == Failed(r.error))
            && (s.status == Live ==> c.chan.accepted == PayloadsOf(c.handled)) && s.status != Failed(Aborted)
  {
  }

  // Every interleaving that is not cut short from outside ends exactly as the sequential loop does
  // on the accepted mailbox: same consumed prefix, same hooks, same context, same result.
  lemma MachineRunsLoop<M, A, C, R>(prog: Program<M, A, C, R>, l: Local<A, C>, es: seq<Event<M>>, c: Cell<M, A, C, R>)
    requires Reaches(prog, l, es, c) && c.phase.Gone? && c.phase.exit != Error(Aborted)
    ensures |c.handled| <= |c.chan.accepted|
    ensures RunEnds(prog, l, c.chan.accepted, DelaysOf(c.handled), |c.handled|, c.chan.accepted[|c.handled|..],
                    ReturnValue(c), c.local.ctx, c.trace)
  {
    ReachedLoop(prog, l, es, c);
    ExitState(prog, l, c);
    SameDispatch(prog, l, c);
  }

  // ---------------------------------------------------------------- and the loop of the source is one of its runs

  lemma {:induction false} RunMore<M, A, C, R>(
      prog: Program<M, A, C, R>, c: Cell<M, A, C, R>, es: seq<Event<M>>, d: Cell<M, A, C, R>, e: Event<M>)
    requires Run(prog, c, es, d) && Can(prog, d, e)
    ensures Run(prog, c, es + [e], Next(prog, d, e))
    decreases |es|
  {
    if es == [] {
      assert es + [e] == [e] && [e][1..] == [];
    } else {
      assert (es + [e])[1..] == es[1..] + [e];
      RunMore(prog, Next(prog, c, es[0]), es[1..], d, e);
    }
  }

  lemma Goes<M, A, C, R>(
      prog: Program<M, A, C, R>, l: Local<A, C>, es: seq<Event<M>>, c: Cell<M, A, C, R>, e: Event<M>)
    returns (fs: seq<Event<M>>, d: Cell<M, A, C, R>)
    requires Reaches(prog, l, es, c) && Can(prog, c, e)
    ensures Reaches(prog, l, fs, d) && d == Next(prog, c, e)
  {
    RunMore(prog, NewCell(l), es, c, e);
    fs, d := es + [e], Next(prog, c, e);
  }

  // No two payloads answer the same call.
  ghost predicate OneReplyEach<M>(ps: seq<Payload<M>>) {
    forall i, j :: 0 <= i < j < |ps| && ReplyOf(ps[i]).Some? ==> ReplyOf(ps[i]) != ReplyOf(ps[j])
  }

  // A client that holds the first Addr sends everything before the loop starts.
  ghost predicate SentSoFar<M, A, C, R>(l: Local<A, C>, mailbox: seq<Payload<M>>, c: Cell<M, A, C, R>) {
    && c.phase == Starting && c.handled == [] && c.chan.queue == mailbox && c.chan.accepted == mailbox && c.chan.open
    && c.chan.refs == map[0 := Addr(false)] && c.chan.tx == 1 && c.chan.force == 1 && c.chan.mpsc == 2
    && forall k :: k in c.calls ==> exists i :: 0 <= i < |mailbox| && ReplyOf(mailbox[i]) == Some(k)
  }

  lemma {:induction false} AcceptAll<M, A, C, R>(prog: Program<M, A, C, R>, l: Local<A, C>, mailbox: seq<Payload<M>>)
    returns (es: seq<Event<M>>, c: Cell<M, A, C, R>)
    requires OneReplyEach(mailbox)
    ensures Reaches(prog, l, es, c) && SentSoFar(l, mailbox, c)
    decreases |mailbox|
  {
    if mailbox == [] {
      es, c := [], NewCell(l);
    } else {
      var n := |mailbox| - 1;
      es, c := AcceptAll(prog, l, mailbox[..n]);
      FreshReply(l, mailbox, c);
      es, c := Goes(prog, l, es, c, Force(mailbox[n]));
      assert mailbox[..n] + [mailbox[n]] == mailbox;
      forall k | k in c.calls ensures exists i :: 0 <= i < |mailbox| && ReplyOf(mailbox[i]) == Some(k) {
        if ReplyOf(mailbox[n]) != Some(k) {
          var i :| 0 <= i < n && ReplyOf(mailbox[..n][i]) == Some(k);
          assert ReplyOf(mailbox[i]) == Some(k);
        }
      }
    }
  }

  lemma FreshReply<M, A, C, R>(l: Local<A, C>, mailbox: seq<Payload<M>>, c: Cell<M, A, C, R>)
    requires mailbox != [] && OneReplyEach(mailbox) && SentSoFar(l, mailbox[..|mailbox| - 1], c)
    ensures var p := mailbox[|mailbox| - 1]; ReplyOf(p).Some? ==> ReplyOf(p).value !in c.calls
  {
    var n := |mailbox| - 1;
    forall k | k in c.calls ensures ReplyOf(mailbox[n]) != Some(k) {
      var i :| 0 <= i < n && ReplyOf(mailbox[..n][i]) == Some(k);
      assert ReplyOf(mailbox[i]) == Some(k);
    }
    if ReplyOf(mailbox[n]).Some? { assert Some(ReplyOf(mailbox[n]).value) == ReplyOf(mailbox[n]); }
  }

  // The loop has handled k payloads as the delays have it, and nobody can send any more.
  ghost predicate HandledBy<M, A, C, R>(
      prog: Program<M, A, C, R>, mailbox: seq<Payload<M>>, delays: Delays, k: nat, c: Cell<M, A, C, R>)
  {
    && k <= |mailbox| && c.handled == Entries(prog, mailbox[..k], delays)
    && c.chan.queue == mailbox[k..] && c.chan.mpsc == 0 && c.chan.accepted == mailbox
  }

  lemma {:induction false} AdvanceTo<M, A, C, R>(
      prog: Program<M, A, C, R>, l: Local<A, C>, es: seq<Event<M>>, c: Cell<M, A, C, R>, w: Work<M>,
      reply: Option<CallId>, pc: nat)
    returns (fs: seq<Event<M>>, d: Cell<M, A, C, R>)
    requires Reaches(prog, l, es, c) && c.phase == Busy(w, reply, 0) && pc <= Awaits(prog, w)
    ensures Reaches(prog, l, fs, d) && d.phase == Busy(w, reply, pc) && d.chan == c.chan && d.handled == c.handled
    decreases pc
  {
    fs, d := es, c;
    if pc > 0 {
      fs, d := AdvanceTo(prog, l, es, c, w, reply, pc - 1);
      fs, d := Goes(prog, l, fs, d, Advance);
    }
  }

  // The task that was popped runs until its delay fires or to its end.
  lemma HandleTask<M, A, C, R>(
      prog: Program<M, A, C, R>, l: Local<A, C>, es: seq<Event<M>>, c: Cell<M, A, C, R>, p: Payload<M>,
      delay: Option<nat>)
    returns (fs: seq<Event<M>>, d: Cell<M, A, C, R>)
    requires Reaches(prog, l, es, c) && p.Task? && c.phase == Busy(p.work, p.reply, 0)
    ensures Reaches(prog, l, fs, d) && d.chan == c.chan
    ensures d.handled == c.handled + [Entry(p, FateOf(prog, p, delay))] && d.phase in {Idle, Failing(TimedOut)}
  {
    var fate := FateOf(prog, p, delay);
    fs, d := AdvanceTo(prog, l, es, c, p.work, p.reply, if fate.CutAt? then fate.pc else Awaits(prog, p.work));
    fs, d := Goes(prog, l, fs, d, if fate.CutAt? then Expire else Complete);
  }

  lemma HandleNext<M, A, C, R>(
      prog: Program<M, A, C, R>, l: Local<A, C>, es: seq<Event<M>>, c: Cell<M, A, C, R>, mailbox: seq<Payload<M>>,
      delays: Delays, k: nat)
    returns (fs: seq<Event<M>>, d: Cell<M, A, C, R>)
    requires Reaches(prog, l, es, c) && c.phase == Idle && HandledBy(prog, mailbox, delays, k, c) && k < |mailbox|
    ensures Reaches(prog, l, fs, d) && HandledBy(prog, mailbox, delays, k + 1, d)
    ensures d.phase in {Idle, Stopping, Failing(TimedOut), Failing(RestartFailed)}
  {
    var p := mailbox[k];
    EntriesSnoc(prog, mailbox, k, delays);
    fs, d := Goes(prog, l, es, c, Pop);
    match p
    case Task(_, _) => fs, d := HandleTask(prog, l, fs, d, p, delays(k));
    case Restart => fs, d := Goes(prog, l, fs, d, Event.Refresh);
    case Stop =>
  }

  // What follows the `while`, or the error.
  lemma LeaveLoop<M, A, C, R>(prog: Program<M, A, C, R>, l: Local<A, C>, es: seq<Event<M>>, c: Cell<M, A, C, R>)
    returns (fs: seq<Event<M>>, d: Cell<M, A, C, R>)
    requires Reaches(prog, l, es, c) && (c.phase == Stopping || (c.phase.Failing? && c.phase.failure != Aborted))
    ensures Reaches(prog, l, fs, d) && d.phase.Gone? && d.phase.exit != Error(Aborted)
    ensures d.handled == c.handled && d.chan.accepted == c.chan.accepted
  {
    fs, d := es, c;
    if c.phase == Stopping {
      fs, d := Goes(prog, l, fs, d, RunStopped);
      fs, d := Goes(prog, l, fs, d, Notify);
    }
    fs, d := Goes(prog, l, fs, d, Leave);
  }

  lemma {:induction false} HandleAll<M, A, C, R>(
      prog: Program<M, A, C, R>, l: Local<A, C>, es: seq<Event<M>>, c: Cell<M, A, C, R>, mailbox: seq<Payload<M>>,
      delays: Delays, k: nat)
    returns (fs: seq<Event<M>>, d: Cell<M, A, C, R>)
    requires Reaches(prog, l, es, c) && c.phase == Idle && HandledBy(prog, mailbox, delays, k, c)
    ensures Reaches(prog, l, fs, d) && d.phase.Gone? && d.phase.exit != Error(Aborted)
    ensures |d.handled| <= |mailbox| && d.handled == Entries(prog, mailbox[..|d.handled|], delays)
    ensures d.chan.accepted == mailbox
    decreases |mailbox| - k
  {
    if k == |mailbox| {
      fs, d := Goes(prog, l, es, c, NoMore);
      fs, d := LeaveLoop(prog, l, fs, d);
    } else {
      fs, d := HandleNext(prog, l, es, c, mailbox, delays, k);
      if d.phase == Idle {
        fs, d := HandleAll(prog, l, fs, d, mailbox, delays, k + 1);
      } else {
        fs, d := LeaveLoop(prog, l, fs, d);
      }
    }
  }

  // Whatever mailbox the loop of the source is given, and whenever its delays fire: some interleaving of clients
  // and loop accepts just that mailbox and ends as that loop does.
  lemma LoopRunsOnMachine<M, A, C, R>(
      prog: Program<M, A, C, R>, l: Local<A, C>, mailbox: seq<Payload<M>>, delays: Delays)
    returns (es: seq<Event<M>>, c: Cell<M, A, C, R>)
    requires OneReplyEach(mailbox)
    ensures Reaches(prog, l, es, c) && c.phase.Gone? && c.chan.accepted == mailbox && |c.handled| <= |mailbox|
    ensures RunEnds(prog, l, mailbox, delays, |c.handled|, mailbox[|c.handled|..], ReturnValue(c), c.local.ctx, c.trace)
  {
    es, c := AcceptAll(prog, l, mailbox);
    es, c := Goes(prog, l, es, c, Discard(0));
    es, c := Goes(prog, l, es, c, Start);
    assert Entries(prog, mailbox[..0], delays) == [];
    if c.phase == Idle {
      es, c := HandleAll(prog, l, es, c, mailbox, delays, 0);
    } else {
      es, c := LeaveLoop(prog, l, es, c);
    }
    EndsAsLoop(prog, l, es, c, mailbox, delays);
  }

  lemma EndsAsLoop<M, A, C, R>(
      prog: Program<M, A, C, R>, l: Local<A, C>, es: seq<Event<M>>, c: Cell<M, A, C, R>, mailbox: seq<Payload<M>>,
      delays: Delays)
    requires Reaches(prog, l, es, c) && c.phase.Gone? && c.phase.exit != Error(Aborted) && c.chan.accepted == mailbox
    requires |c.handled| <= |mailbox| && c.handled == Entries(prog, mailbox[..|c.handled|], delays)
    ensures RunEnds(prog, l, mailbox, delays, |c.handled|, mailbox[|c.handled|..], ReturnValue(c), c.local.ctx, c.trace)
  {
    ReachedLoop(prog, l, es, c);
    ExitState(prog, l, c);
    var n := |c.handled|;
    if n > 0 {
      assert c.handled[..n - 1] == Entries(prog, mailbox[..n - 1], delays);
      assert Fold(prog, Begin(prog, l), c.handled[..n - 1]).status == Live;
    }
  }
}
