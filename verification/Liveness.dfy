/** Nothing accepted starves: in every fair run an actor that nobody stops and that meets no error gets
    round to each message it has accepted, however many arrive behind it (src/environment.rs). */
module Liveness {
  import opened Messages
  import opened Sequential
  import opened Handles
  import opened Actors
  import opened ActorInvariant
  import opened ActorTheorems
  import opened Children

  // The n-th message is accepted and not yet handled.
  ghost predicate Awaited<M, A, C, R>(c: Cell<M, A, C, R>, n: nat) {
    |c.handled| <= n < |c.chan.accepted|
  }

  // How many payloads of the queue are before the n-th message, itself included.
  function Ahead<M, A, C, R>(c: Cell<M, A, C, R>, n: nat): int {
    n + 1 - |c.handled| - |InFlight(c.phase)|
  }

  // An upper bound on the steps the loop takes before it has handled the n-th message.
  function Distance<M, A, C, R>(prog: Program<M, A, C, R>, c: Cell<M, A, C, R>, n: nat): nat {
    var k := Ahead(c, n);
    var before := if 0 <= k <= |c.chan.queue| then QueueCost(prog, c.chan.queue[..k]) else 0;
    match c.phase
    case Starting => before + 4
    case Idle => before + 3
    case Busy(w, _, pc) => before + 4 + if pc <= Awaits(prog, w) then Awaits(prog, w) - pc else 0
    case Refreshing => before + 4
    case Failing(_) => 2
    case _ => 1
  }

  // Where the loop stands while the n-th message is awaited by an actor left alone.
  ghost predicate OnTheWay<M, A, C, R>(c: Cell<M, A, C, R>, n: nat) {
    && (c.phase.Starting? || c.phase.Idle? || c.phase.Busy? || c.phase.Refreshing? || c.phase.Failing?)
    && (!c.phase.Failing? ==> 0 <= Ahead(c, n) <= |c.chan.queue|)
    && (c.phase.Idle? ==> Ahead(c, n) > 0)
  }

  lemma EndedHandledAll<M, A, C, R>(prog: Program<M, A, C, R>, l: Local<A, C>, c: Cell<M, A, C, R>)
    requires Inv(prog, l, c) && Stop !in c.chan.accepted
    ensures c.phase in {Stopping, Quiet, Notified, Gone(Clean)} ==> |c.handled| == |c.chan.accepted|
  {
    if c.phase in {Stopping, Quiet, Notified, Gone(Clean)} { CleanlyExhausted(prog, l, c); }
  }

  lemma StillOnTheWay<M, A, C, R>(prog: Program<M, A, C, R>, l: Local<A, C>, c: Cell<M, A, C, R>, n: nat)
    requires Inv(prog, l, c) && Awaited(c, n) && Stop !in c.chan.accepted && (c.phase.Gone? ==> c.phase.exit == Clean)
    ensures OnTheWay(c, n) && Sane(prog, c)
  {
    EndedHandledAll(prog, l, c);
    assert !c.phase.Gone?;
    AcceptedParts(c);
  }

  lemma AcceptedParts<M, A, C, R>(c: Cell<M, A, C, R>)
    requires Flow(c) && !c.phase.Gone?
    ensures |c.chan.accepted| == |c.handled| + |InFlight(c.phase)| + |c.chan.queue|
  {
  }

  // Clients do not push the n-th message away: what they send queues up behind it.
  lemma ClientsLeaveDistance<M, A, C, R>(prog: Program<M, A, C, R>, c: Cell<M, A, C, R>, e: Event<M>, n: nat)
    requires Can(prog, c, e) && !e.OfLoop() && OnTheWay(c, n)
    ensures Distance(prog, Next(prog, c, e), n) == Distance(prog, c, n)
  {
    var d := Next(prog, c, e);
    ClientsQueue(prog, c, e);
    if !c.phase.Failing? { assert d.chan.queue[..Ahead(c, n)] == c.chan.queue[..Ahead(c, n)]; }
  }

  lemma ClientsQueue<M, A, C, R>(prog: Program<M, A, C, R>, c: Cell<M, A, C, R>, e: Event<M>)
    requires Can(prog, c, e) && !e.OfLoop()
    ensures var d := Next(prog, c, e); c.chan.queue <= d.chan.queue && d.phase == c.phase && d.handled == c.handled
  {
  }

  lemma PopNearer<M, A, C, R>(prog: Program<M, A, C, R>, c: Cell<M, A, C, R>, n: nat)
    requires Can(prog, c, Pop) && OnTheWay(c, n) && c.chan.queue[0] != Stop
    ensures Distance(prog, Next(prog, c, Pop), n) < Distance(prog, c, n)
  {
    var d, q, k := Next(prog, c, Pop), c.chan.queue, Ahead(c, n);
    assert d.handled == c.handled && |InFlight(d.phase)| == 1 && Ahead(d, n) == k - 1;
    assert q[..k][0] == q[0] && q[..k][1..] == q[1..][..k - 1];
    assert QueueCost(prog, q[..k]) == Cost(prog, q[0]) + QueueCost(prog, d.chan.queue[..k - 1]);
  }

  // Any other step of the loop brings it nearer or past it.
  lemma LoopNearer<M, A, C, R>(prog: Program<M, A, C, R>, c: Cell<M, A, C, R>, e: Event<M>, n: nat)
    requires Can(prog, c, e) && e.OfLoop() && !e.Pop? && OnTheWay(c, n) && Sane(prog, c)
    requires var d := Next(prog, c, e); Awaited(d, n) && OnTheWay(d, n)
    ensures Distance(prog, Next(prog, c, e), n) < Distance(prog, c, n)
  {
    var d := Next(prog, c, e);
    if !e.Leave? { assert d.chan == c.chan; }
  }

  lemma OnlyMore<M, A, C, R>(prog: Program<M, A, C, R>, c: Cell<M, A, C, R>, e: Event<M>)
    requires Can(prog, c, e)
    ensures var d := Next(prog, c, e); c.chan.accepted <= d.chan.accepted && c.handled <= d.handled
  {
  }

  // It waits for nobody on the way.
  lemma ReadyOnTheWay<M, A, C, R>(prog: Program<M, A, C, R>, c: Cell<M, A, C, R>, n: nat)
    requires OnTheWay(c, n) && Sane(prog, c)
    ensures LoopReady(prog, c)
  {
  }

  // ---------------------------------------------------------------- one actor over time

  // The n-th message is handled at time u, or still on the way and no farther than `bound`.
  ghost predicate Within<M, A, C, R>(f: Family<M, A, C, R>, i: nat, u: nat, n: nat, bound: nat) {
    var c := f.at(u, i);
    n < |c.chan.accepted| && (|c.handled| <= n ==> Distance(f.progs(i), c, n) <= bound)
  }

  lemma WayAt<M, A, C, R>(f: Family<M, A, C, R>, i: nat, u: nat, n: nat)
    requires f.IsRun() && f.Begun() && i < f.size && LeftAlone(f, i)
    ensures Awaited(f.at(u, i), n) ==> OnTheWay(f.at(u, i), n) && Sane(f.progs(i), f.at(u, i))
  {
    if Awaited(f.at(u, i), n) {
      InvAlways(f, i, u);
      StillOnTheWay(f.progs(i), f.locals(i), f.at(u, i), n);
    }
  }

  lemma NextWithin<M, A, C, R>(f: Family<M, A, C, R>, i: nat, v: nat, n: nat)
    requires f.StepOf(i, v) && n < |f.at(v, i).chan.accepted|
    requires forall u: nat :: u == v || u == v + 1 ==>
               (Awaited(f.at(u, i), n) ==> OnTheWay(f.at(u, i), n) && Sane(f.progs(i), f.at(u, i)))
    ensures Within(f, i, v + 1, n, Distance(f.progs(i), f.at(v, i), n))
    ensures |f.at(v, i).handled| > n ==> |f.at(v + 1, i).handled| > n
    ensures f.LoopTurn(i, v) && |f.at(v + 1, i).handled| <= n ==>
              Distance(f.progs(i), f.at(v + 1, i), n) < Distance(f.progs(i), f.at(v, i), n)
  {
    var c, d := f.at(v, i), f.at(v + 1, i);
    if f.act(v).Some? && f.act(v).value.who == i {
      StepWithin(f.progs(i), c, f.act(v).value.event, n);
    } else if f.act(v).Some? && f.Orphans(f.act(v).value, i, c) {
      StepWithin(f.progs(i), c, Discard(f.handle(i)), n);
    }
  }

  lemma StepWithin<M, A, C, R>(prog: Program<M, A, C, R>, c: Cell<M, A, C, R>, e: Event<M>, n: nat)
    requires Can(prog, c, e) && n < |c.chan.accepted|
    requires Awaited(c, n) ==> OnTheWay(c, n) && Sane(prog, c)
    requires var d := Next(prog, c, e); Awaited(d, n) ==> OnTheWay(d, n) && Sane(prog, d)
    ensures var d := Next(prog, c, e);
            && n < |d.chan.accepted| && |c.handled| <= |d.handled|
            && (|d.handled| <= n ==> Distance(prog, d, n) <= Distance(prog, c, n))
            && (|d.handled| <= n && e.OfLoop() ==> Distance(prog, d, n) < Distance(prog, c, n))
  {
    OnlyMore(prog, c, e);
    if |Next(prog, c, e).handled| <= n {
      if e.Pop? {
        NoStopNext(prog, c, n);
        PopNearer(prog, c, n);
      } else if e.OfLoop() {
        LoopNearer(prog, c, e, n);
      } else {
        ClientsLeaveDistance(prog, c, e, n);
      }
    }
  }

  lemma NoStopNext<M, A, C, R>(prog: Program<M, A, C, R>, c: Cell<M, A, C, R>, n: nat)
    requires Can(prog, c, Pop) && Awaited(Next(prog, c, Pop), n) && OnTheWay(Next(prog, c, Pop), n)
    ensures c.chan.queue[0] != Stop
  {
  }

  lemma {:induction false} StaysWithin<M, A, C, R>(f: Family<M, A, C, R>, i: nat, t: nat, u: nat, n: nat)
    requires f.IsRun() && f.Begun() && i < f.size && LeftAlone(f, i) && t <= u && n < |f.at(t, i).chan.accepted|
    ensures Within(f, i, u, n, Distance(f.progs(i), f.at(t, i), n))
    decreases u
  {
    if t < u {
      var v := u - 1;
      StaysWithin(f, i, t, v, n);
      assert Within(f, i, v + 1, n, Distance(f.progs(i), f.at(t, i), n)) by {
        WithinOnce(f, i, v, n, Distance(f.progs(i), f.at(t, i), n));
      }
      assert f.at(v + 1, i) == f.at(u, i);
    }
  }

  lemma WithinOnce<M, A, C, R>(f: Family<M, A, C, R>, i: nat, v: nat, n: nat, bound: nat)
    requires f.IsRun() && f.Begun() && i < f.size && LeftAlone(f, i) && Within(f, i, v, n, bound)
    ensures Within(f, i, v + 1, n, bound)
  {
    WayAt(f, i, v, n);
    WayAt(f, i, v + 1, n);
    assert f.StepOf(i, v);
    NextWithin(f, i, v, n);
  }

  // Every message an actor has accepted by time t is handled one day.
  lemma {:induction false} HandledOneDay<M, A, C, R>(f: Family<M, A, C, R>, i: nat, t: nat, n: nat) returns (u: nat)
    requires f.IsRun() && f.Begun() && f.FairLoops() && i < f.size && LeftAlone(f, i) && n < |f.at(t, i).chan.accepted|
    ensures t <= u && |f.at(u, i).handled| > n
    decreases Distance(f.progs(i), f.at(t, i), n)
  {
    if |f.at(t, i).handled| > n {
      u := t;
    } else {
      var w := NextTurn(f, i, t, n);
      if |f.at(w, i).handled| > n { u := w; } else { u := HandledOneDay(f, i, w, n); }
    }
  }

  // The loop's next turn: after it the message is handled, or nearer.
  lemma NextTurn<M, A, C, R>(f: Family<M, A, C, R>, i: nat, t: nat, n: nat) returns (w: nat)
    requires f.IsRun() && f.Begun() && f.FairLoops() && i < f.size && LeftAlone(f, i) && n < |f.at(t, i).chan.accepted|
    ensures t <= w && n < |f.at(w, i).chan.accepted|
    ensures |f.at(w, i).handled| <= n ==> Distance(f.progs(i), f.at(w, i), n) < Distance(f.progs(i), f.at(t, i), n)
  {
    assert f.ServedAfter(i, t);
    var v: nat :| t <= v && f.Served(i, v);
    StaysWithin(f, i, t, v, n);
    if |f.at(v, i).handled| > n {
      w := v;
    } else {
      TurnNearer(f, i, v, n);
      w := v + 1;
    }
  }

  lemma TurnNearer<M, A, C, R>(f: Family<M, A, C, R>, i: nat, v: nat, n: nat)
    requires f.IsRun() && f.Begun() && i < f.size && LeftAlone(f, i) && f.Served(i, v) && Awaited(f.at(v, i), n)
    ensures n < |f.at(v + 1, i).chan.accepted|
    ensures |f.at(v + 1, i).handled| <= n ==>
              Distance(f.progs(i), f.at(v + 1, i), n) < Distance(f.progs(i), f.at(v, i), n)
  {
    WayAt(f, i, v, n);
    WayAt(f, i, v + 1, n);
    ReadyOnTheWay(f.progs(i), f.at(v, i), n);
    assert f.StepOf(i, v);
    NextWithin(f, i, v, n);
  }

  // So every call it has accepted is settled one day: answered, or canceled by a timeout.
  lemma AnsweredOneDay<M, A, C, R>(f: Family<M, A, C, R>, i: nat, t: nat, n: nat, k: CallId) returns (u: nat)
    requires f.IsRun() && f.Begun() && f.FairLoops() && i < f.size && LeftAlone(f, i)
    requires HasReply(f.at(t, i).chan.accepted, n, k)
    ensures t <= u && k in f.at(u, i).calls && (f.at(u, i).calls[k].Replied? || f.at(u, i).calls[k] == Canceled)
  {
    u := HandledOneDay(f, i, t, n);
    StaysAccepted(f, i, t, u, n);
    InvAlways(f, i, u);
    assert HasReply(f.at(u, i).chan.accepted, n, k);
  }

  lemma {:induction false} StaysAccepted<M, A, C, R>(f: Family<M, A, C, R>, i: nat, t: nat, u: nat, n: nat)
    requires f.IsRun() && i < f.size && t <= u && n < |f.at(t, i).chan.accepted|
    ensures n < |f.at(u, i).chan.accepted| && f.at(u, i).chan.accepted[n] == f.at(t, i).chan.accepted[n]
    decreases u
  {
    if t < u {
      var v := u - 1;
      StaysAccepted(f, i, t, v, n);
      assert f.StepOf(i, v) && f.at(v + 1, i) == f.at(u, i);
      var c := f.at(v, i);
      if f.act(v).Some? {
        if f.act(v).value.who == i { OnlyMore(f.progs(i), c, f.act(v).value.event); }
        else if f.Orphans(f.act(v).value, i, c) { OnlyMore(f.progs(i), c, Discard(f.handle(i))); }
      }
    }
  }
}
