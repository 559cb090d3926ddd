/** A parent's end brings down its whole family (src/context.rs, src/environment.rs, src/addr/sender.rs):
    a liveness result over infinite fair runs of a forest of actors. */
module Children {
  import opened Messages
  import opened Sequential
  import opened Handles
  import opened Actors
  import opened ActorInvariant
  import opened ActorTheorems

  // One actor takes one step.
  datatype Act<M> = Act(who: nat, event: Event<M>)

  // A run of a finite forest that grows as it goes: actor i is spawned at time born(i) and may at any
  // moment be added to the context of parent(i), which then holds the strong Sender handle(i) to it.
  // At time t actor i is at(t, i), and act(t) happens, if anything does.
  datatype Family<!M, !A, !C, !R> = Family(
    size: nat,
    parent: nat -> Option<nat>,
    handle: nat -> RefId,
    born: nat -> nat,
    progs: nat -> Program<M, A, C, R>,
    locals: nat -> Local<A, C>,
    at: (nat, nat) -> Cell<M, A, C, R>,
    act: nat -> Option<Act<M>>)
  {
    ghost predicate Gone(i: nat, t: nat) { at(t, i).phase.Gone? }

    ghost function Refs(i: nat, t: nat): set<RefId> { at(t, i).chan.refs.Keys }

    // Only a parent that still lives adds a child, and only its context gives the sender back.
    ghost predicate MayName(i: nat, t: nat, n: RefId) {
      parent(i).Some? && n == handle(i) ==> !Gone(parent(i).value, t)
    }

    ghost predicate Allowed(i: nat, t: nat, e: Event<M>) {
      match e
      case Discard(h) => parent(i).Some? ==> h != handle(i)
      case Clone(_, n) => MayName(i, t, n)
      case Derive(_, n, _) => MayName(i, t, n)
      case Upgrade(n, _) => MayName(i, t, n)
      case BeginSend(f, _) => MayName(i, t, f)
      case BeginCall(n, f, _, _) => MayName(i, t, n) && MayName(i, t, f)
      case _ => true
    }

    // The loop of i ends: its context is dropped and with it the sender to its child j.
    ghost predicate Orphans(a: Act<M>, j: nat, c: Cell<M, A, C, R>) {
      a.event.Leave? && parent(j) == Some(a.who) && handle(j) in c.chan.refs
    }

    // What act(t), if it happens, does to actor j.
    ghost predicate StepOf(j: nat, t: nat) {
      var c, d := at(t, j), at(t + 1, j);
      match act(t)
      case None => d == c
      case Some(a) =>
        if a.who == j then born(j) <= t && Can(progs(j), c, a.event) && Allowed(j, t, a.event)
              && d == Next(progs(j), c, a.event)
        else if Orphans(a, j, c) then d == Next(progs(j), c, Discard(handle(j)))
        else d == c
    }

    ghost predicate IsRun() {
      && (forall i: nat :: i < size && parent(i).Some? ==> parent(i).value < i)
      && (forall i: nat :: i < size ==> Sane(progs(i), at(0, i)) && !Gone(i, 0))
      && (forall i: nat, t: nat :: i < size ==> StepOf(i, t))
    }

    // At the start every actor is in a state that actors reach.
    ghost predicate Begun() {
      forall i: nat :: i < size ==> Inv(progs(i), locals(i), at(0, i))
    }

    // From time u on, i is gone, and if it ended cleanly it had drained its mailbox.
    ghost predicate DrainedFrom(i: nat, u: nat) {
      forall v: nat :: u <= v ==> Gone(i, v) && (at(v, i).phase.exit == Clean ==> Exhausted(at(v, i)))
    }

    ghost predicate LoopTurn(i: nat, t: nat) {
      act(t).Some? && act(t).value.who == i && act(t).value.event.OfLoop()
    }

    ghost predicate Served(i: nat, t: nat) {
      born(i) <= t && (LoopTurn(i, t) || !LoopReady(progs(i), at(t, i)))
    }

    ghost predicate ServedAfter(i: nat, t: nat) { exists u: nat :: t <= u && Served(i, u) }

    // Weak fairness: a loop that can go on gets its turn.
    ghost predicate FairLoops() {
      forall i: nat, t: nat :: i < size ==> ServedAfter(i, t)
    }

    ghost predicate Descends(i: nat, p: nat)
      requires IsRun()
      decreases i
    {
      i < size && (i == p || (parent(i).Some? && Descends(parent(i).value, p)))
    }

    ghost predicate DescendsProperly(i: nat, p: nat)
      requires IsRun()
    {
      i != p && Descends(i, p)
    }

    // Every handle or pending send of a descendant except its parent's sender is temporary.
    ghost predicate TemporaryRefs(p: nat)
      requires IsRun()
    {
      forall i: nat, t: nat, r: RefId ::
        DescendsProperly(i, p) && r in Refs(i, t) && r != handle(i) ==> exists u: nat :: t <= u && r !in Refs(i, u)
    }

    // From time q on nobody makes new ones.
    ghost predicate QuietFrom(q: nat, p: nat)
      requires IsRun()
    {
      forall t: nat :: q <= t && act(t).Some? && DescendsProperly(act(t).value.who, p) ==>
            !act(t).value.event.Acquires()
    }
  }

  ghost predicate Sane<M, A, C, R>(prog: Program<M, A, C, R>, c: Cell<M, A, C, R>) {
    Counted(c.chan) && (c.phase.Busy? ==> c.phase.pc <= Awaits(prog, c.phase.work))
  }

  lemma SaneStep<M, A, C, R>(prog: Program<M, A, C, R>, c: Cell<M, A, C, R>, e: Event<M>)
    requires Sane(prog, c) && Can(prog, c, e)
    ensures Sane(prog, Next(prog, c, e))
  {
    CountedStep(prog, c, e);
  }

  // The step the loop is about to take.
  function LoopEvent<M, A, C, R>(prog: Program<M, A, C, R>, c: Cell<M, A, C, R>): Event<M> {
    match c.phase
    case Starting => Start
    case Idle => if c.chan.queue != [] then Pop else NoMore
    case Busy(w, _, pc) => if pc < Awaits(prog, w) then Advance else Complete
    case Refreshing => Refresh
    case Stopping => RunStopped
    case Quiet => Notify
    case _ => Leave
  }

  // It waits only in `next()`, for a message or for the last sender to go.
  ghost predicate LoopReady<M, A, C, R>(prog: Program<M, A, C, R>, c: Cell<M, A, C, R>) {
    Can(prog, c, LoopEvent(prog, c))
  }

  // ---------------------------------------------------------------- one actor drains

  function Cost<M, A, C, R>(prog: Program<M, A, C, R>, p: Payload<M>): nat {
    if p.Task? then 3 + Awaits(prog, p.work) else 3
  }

  function QueueCost<M, A, C, R>(prog: Program<M, A, C, R>, q: seq<Payload<M>>): nat {
    if q == [] then 0 else Cost(prog, q[0]) + QueueCost(prog, q[1..])
  }

  // An upper bound on the steps a loop still takes if nothing more is enqueued.
  function Measure<M, A, C, R>(prog: Program<M, A, C, R>, c: Cell<M, A, C, R>): nat {
    match c.phase
    case Gone(_) => 0
    case Failing(_) => 1
    case Notified => 1
    case Quiet => 2
    case Stopping => 3
    case Idle => 4 + QueueCost(prog, c.chan.queue)
    case Starting => 5 + QueueCost(prog, c.chan.queue)
    case Refreshing => 5 + QueueCost(prog, c.chan.queue)
    case Busy(w, _, pc) =>
      var left := Awaits(prog, w) - pc;
      5 + QueueCost(prog, c.chan.queue) + if left >= 0 then left else 0
  }

  lemma MeasureDrops<M, A, C, R>(prog: Program<M, A, C, R>, c: Cell<M, A, C, R>, e: Event<M>)
    requires Sane(prog, c) && Can(prog, c, e) && e.OfLoop()
    ensures Measure(prog, Next(prog, c, e)) < Measure(prog, c)
  {
    if e.Pop? {
      PopDrops(prog, c);
    } else if e.Advance? || e.Complete? || e.Expire? {
      BusyDrops(prog, c, e);
    } else {
      OtherDrops(prog, c, e);
    }
  }

  lemma PopDrops<M, A, C, R>(prog: Program<M, A, C, R>, c: Cell<M, A, C, R>)
    requires Can(prog, c, Pop)
    ensures Measure(prog, Next(prog, c, Pop)) < Measure(prog, c)
  {
    assert QueueCost(prog, c.chan.queue) == Cost(prog, c.chan.queue[0]) + QueueCost(prog, c.chan.queue[1..]);
  }

  lemma BusyDrops<M, A, C, R>(prog: Program<M, A, C, R>, c: Cell<M, A, C, R>, e: Event<M>)
    requires Sane(prog, c) && Can(prog, c, e) && (e.Advance? || e.Complete? || e.Expire?)
    ensures Measure(prog, Next(prog, c, e)) < Measure(prog, c)
  {
    assert Next(prog, c, e).chan == c.chan;
  }

  lemma OtherDrops<M, A, C, R>(prog: Program<M, A, C, R>, c: Cell<M, A, C, R>, e: Event<M>)
    requires Can(prog, c, e) && e.OfLoop() && !e.Pop? && !e.Advance? && !e.Complete? && !e.Expire?
    ensures Measure(prog, Next(prog, c, e)) < Measure(prog, c)
  {
    assert !e.Leave? ==> Next(prog, c, e).chan == c.chan;
  }

  // With no handle and no pending send left, only the loop can change anything that matters, and it
  // can always go on until it is gone.
  lemma Deserted<M, A, C, R>(prog: Program<M, A, C, R>, c: Cell<M, A, C, R>)
    requires Sane(prog, c) && c.chan.refs == map[]
    ensures c.chan.mpsc == 0 && c.chan.force == 0 && c.chan.tx == 0
    ensures c.phase.Gone? || LoopReady(prog, c)
  {
    assert Where(c.chan.refs, HoldsTx) == {} && Where(c.chan.refs, HoldsForce) == {}
           && Where(c.chan.refs, HoldsMpsc) == {};
  }

  // An actor with nothing left to do can go on to its end if and only if no handle and no pending send
  // is left.
  lemma DrainedEndsIffDeserted<M, A, C, R>(prog: Program<M, A, C, R>, c: Cell<M, A, C, R>)
    requires Sane(prog, c) && c.phase == Idle && c.chan.queue == []
    ensures LoopReady(prog, c) <==> c.chan.refs == map[]
  {
    if c.chan.refs == map[] {
      Deserted(prog, c);
    } else {
      var n :| n in c.chan.refs;
      Held(c.chan, n);
    }
  }

  lemma DesertedStep<M, A, C, R>(prog: Program<M, A, C, R>, c: Cell<M, A, C, R>, e: Event<M>)
    requires Sane(prog, c) && c.chan.refs == map[] && Can(prog, c, e)
    ensures Next(prog, c, e).chan.refs == map[] && Measure(prog, Next(prog, c, e)) <= Measure(prog, c)
  {
    Deserted(prog, c);
    if e.OfLoop() { MeasureDrops(prog, c, e); }
  }

  // ---------------------------------------------------------------- the family over time

  lemma {:induction false} SaneAlways<M, A, C, R>(f: Family<M, A, C, R>, i: nat, t: nat)
    requires f.IsRun() && i < f.size
    ensures Sane(f.progs(i), f.at(t, i))
    decreases t
  {
    if t > 0 {
      SaneAlways(f, i, t - 1);
      assert f.StepOf(i, t - 1);
      var c := f.at(t - 1, i);
      match f.act(t - 1)
      case None =>
      case Some(a) =>
        if a.who == i { SaneStep(f.progs(i), c, a.event); }
        else if f.Orphans(a, i, c) { SaneStep(f.progs(i), c, Discard(f.handle(i))); }
    }
  }

  lemma InvOnce<M, A, C, R>(f: Family<M, A, C, R>, i: nat, t: nat)
    requires Inv(f.progs(i), f.locals(i), f.at(t, i)) && f.StepOf(i, t)
    ensures Inv(f.progs(i), f.locals(i), f.at(t + 1, i))
  {
    var c := f.at(t, i);
    if f.act(t).Some? {
      var a := f.act(t).value;
      if a.who == i { InvStep(f.progs(i), f.locals(i), c, a.event); }
      else if f.Orphans(a, i, c) { InvStep(f.progs(i), f.locals(i), c, Discard(f.handle(i))); }
    }
  }

  lemma {:induction false} InvAlways<M, A, C, R>(f: Family<M, A, C, R>, i: nat, t: nat)
    requires f.IsRun() && f.Begun() && i < f.size
    ensures Inv(f.progs(i), f.locals(i), f.at(t, i))
    decreases t
  {
    if t > 0 {
      var v := t - 1;
      InvAlways(f, i, v);
      assert f.StepOf(i, v);
      InvOnce(f, i, v);
      assert f.at(v + 1, i) == f.at(t, i);
    }
  }

  lemma {:induction false} GoneStays<M, A, C, R>(f: Family<M, A, C, R>, i: nat, t: nat, u: nat)
    requires f.IsRun() && i < f.size && t <= u && f.Gone(i, t)
    ensures f.Gone(i, u)
    decreases u
  {
    if t < u {
      GoneStays(f, i, t, u - 1);
      assert f.StepOf(i, u - 1);
    }
  }

  lemma HandleStaysDropped<M, A, C, R>(f: Family<M, A, C, R>, i: nat, t: nat)
    requires f.StepOf(i, t) && f.parent(i).Some? && f.Gone(f.parent(i).value, t) && f.handle(i) !in f.Refs(i, t)
    ensures f.handle(i) !in f.Refs(i, t + 1)
  {
    if f.act(t).Some? && f.act(t).value.who == i { NotReacquired(f, i, t, f.act(t).value.event); }
  }

  // The moment a loop is gone, so is its sender to each child.
  lemma HandleDropsNow<M, A, C, R>(f: Family<M, A, C, R>, i: nat, p: nat, t: nat)
    requires f.StepOf(i, t) && f.StepOf(p, t) && f.parent(i) == Some(p) && p < i
    requires !f.Gone(p, t) && f.Gone(p, t + 1)
    ensures f.handle(i) !in f.Refs(i, t + 1)
  {
    assert f.act(t).Some? && f.act(t).value.who == p && f.act(t).value.event == Leave;
  }

  // A parent that is gone holds nothing: its sender to the child was dropped with its context.
  lemma {:induction false} HandleDropped<M, A, C, R>(f: Family<M, A, C, R>, i: nat, t: nat)
    requires f.IsRun() && i < f.size && f.parent(i).Some? && f.Gone(f.parent(i).value, t)
    ensures f.handle(i) !in f.Refs(i, t)
    decreases t
  {
    var p := f.parent(i).value;
    assert t > 0;
    var v := t - 1;
    assert f.at(v + 1, i) == f.at(t, i) && f.at(v + 1, p) == f.at(t, p);
    assert f.StepOf(i, v) && f.StepOf(p, v);
    if f.Gone(p, v) {
      HandleDropped(f, i, v);
      HandleStaysDropped(f, i, v);
    } else {
      HandleDropsNow(f, i, p, v);
    }
  }

  lemma NotReacquired<M, A, C, R>(f: Family<M, A, C, R>, i: nat, t: nat, e: Event<M>)
    requires f.parent(i).Some? && f.Gone(f.parent(i).value, t) && f.handle(i) !in f.Refs(i, t)
    requires Can(f.progs(i), f.at(t, i), e) && f.Allowed(i, t, e)
    ensures f.handle(i) !in Next(f.progs(i), f.at(t, i), e).chan.refs
  {
    NewNames(f.progs(i), f.at(t, i), e);
  }

  // A child that was added stays so over every restart of its parent, until the parent is gone.
  lemma {:induction false} HandleHeld<M, A, C, R>(f: Family<M, A, C, R>, i: nat, t: nat, u: nat)
    requires f.IsRun() && i < f.size && f.parent(i).Some? && t <= u && !f.Gone(f.parent(i).value, u)
    requires f.handle(i) in f.Refs(i, t) && f.at(t, i).chan.refs[f.handle(i)] == Sender
    ensures f.handle(i) in f.Refs(i, u) && f.at(u, i).chan.refs[f.handle(i)] == Sender
    decreases u
  {
    if t < u {
      var v, p := u - 1, f.parent(i).value;
      assert f.at(v + 1, i) == f.at(u, i) && f.at(v + 1, p) == f.at(u, p);
      assert f.StepOf(i, v) && f.StepOf(p, v);
      if f.Gone(p, v) { GoneStays(f, p, v, u); }
      HandleHeld(f, i, t, v);
      HeldOnce(f, i, p, v);
    }
  }

  lemma HeldOnce<M, A, C, R>(f: Family<M, A, C, R>, i: nat, p: nat, v: nat)
    requires f.StepOf(i, v) && f.StepOf(p, v) && f.parent(i) == Some(p) && p < i && !f.Gone(p, v + 1)
    requires f.handle(i) in f.Refs(i, v) && f.at(v, i).chan.refs[f.handle(i)] == Sender
    ensures f.handle(i) in f.Refs(i, v + 1) && f.at(v + 1, i).chan.refs[f.handle(i)] == Sender
  {
    if f.act(v).Some? && f.act(v).value.who == i { RefStays(f.progs(i), f.at(v, i), f.act(v).value.event); }
  }

  function NamesOf<M>(e: Event<M>): set<RefId> {
    match e
    case Clone(_, n) => {n}
    case Derive(_, n, _) => {n}
    case Upgrade(n, _) => {n}
    case BeginSend(f, _) => {f}
    case BeginCall(n, f, _, _) => {n, f}
    case _ => {}
  }

  // A step gives a name to no other refs than those it says.
  lemma NewNames<M, A, C, R>(prog: Program<M, A, C, R>, c: Cell<M, A, C, R>, e: Event<M>)
    requires Can(prog, c, e)
    ensures Next(prog, c, e).chan.refs.Keys <= c.chan.refs.Keys + NamesOf(e)
  {
    if e.OfLoop() { assert Next(prog, c, e).chan.refs == c.chan.refs; }
  }

  // In quiet times refs only go.
  lemma {:induction false} RefsShrink<M, A, C, R>(f: Family<M, A, C, R>, q: nat, p: nat, i: nat, t: nat, u: nat)
    requires f.IsRun() && f.QuietFrom(q, p) && f.DescendsProperly(i, p) && q <= t <= u
    ensures f.Refs(i, u) <= f.Refs(i, t)
    decreases u
  {
    if t < u {
      RefsShrink(f, q, p, i, t, u - 1);
      assert f.StepOf(i, u - 1);
      match f.act(u - 1)
      case None =>
      case Some(a) => if a.who == i { NothingAcquired(f.progs(i), f.at(u - 1, i), a.event); }
    }
  }

  lemma NothingAcquired<M, A, C, R>(prog: Program<M, A, C, R>, c: Cell<M, A, C, R>, e: Event<M>)
    requires Can(prog, c, e) && !e.Acquires()
    ensures Next(prog, c, e).chan.refs.Keys <= c.chan.refs.Keys
  {
    NewNames(prog, c, e);
  }

  // So an actor whose parent is gone is deserted some day.
  lemma {:induction false} EventuallyDeserted<M, A, C, R>(
      f: Family<M, A, C, R>, q: nat, p: nat, i: nat, t: nat) returns (u: nat)
    requires f.IsRun() && f.TemporaryRefs(p) && f.QuietFrom(q, p) && q <= t
    requires f.DescendsProperly(i, p) && f.parent(i).Some? && f.Gone(f.parent(i).value, t)
    ensures t <= u && f.Refs(i, u) == {}
    decreases |f.Refs(i, t)|
  {
    if f.Refs(i, t) == {} {
      u := t;
    } else {
      var r :| r in f.Refs(i, t);
      HandleDropped(f, i, t);
      var v: nat :| t <= v && r !in f.Refs(i, v);
      RefsShrink(f, q, p, i, t, v);
      GoneStays(f, f.parent(i).value, t, v);
      Smaller(f.Refs(i, v), f.Refs(i, t), r);
      u := EventuallyDeserted(f, q, p, i, v);
    }
  }

  lemma Smaller<T>(a: set<T>, b: set<T>, r: T)
    requires a <= b && r in b && r !in a
    ensures |a| < |b|
  {
    SubsetCard(a, b - {r});
  }

  lemma DesertedOnce<M, A, C, R>(f: Family<M, A, C, R>, i: nat, t: nat)
    requires f.StepOf(i, t) && Sane(f.progs(i), f.at(t, i)) && f.Refs(i, t) == {}
    ensures f.Refs(i, t + 1) == {} && Measure(f.progs(i), f.at(t + 1, i)) <= Measure(f.progs(i), f.at(t, i))
  {
    assert f.at(t, i).chan.refs == map[];
    if f.act(t).Some? && f.act(t).value.who == i { DesertedStep(f.progs(i), f.at(t, i), f.act(t).value.event); }
  }

  ghost predicate DesertedBelow<M, A, C, R>(f: Family<M, A, C, R>, i: nat, u: nat, bound: nat) {
    f.Refs(i, u) == {} && Measure(f.progs(i), f.at(u, i)) <= bound
  }

  lemma {:induction false} StaysDeserted<M, A, C, R>(f: Family<M, A, C, R>, i: nat, t: nat, u: nat)
    requires f.IsRun() && i < f.size && t <= u && f.Refs(i, t) == {}
    ensures DesertedBelow(f, i, u, Measure(f.progs(i), f.at(t, i)))
    decreases u
  {
    if t < u {
      var v := u - 1;
      StaysDeserted(f, i, t, v);
      SaneAlways(f, i, v);
      assert f.StepOf(i, v);
      DesertedOnce(f, i, v);
      assert f.at(v + 1, i) == f.at(u, i);
    }
  }

  // The turn of a deserted loop brings it nearer to its end.
  lemma TurnTaken<M, A, C, R>(f: Family<M, A, C, R>, i: nat, v: nat)
    requires f.IsRun() && i < f.size && f.Refs(i, v) == {} && !f.Gone(i, v) && f.Served(i, v)
    ensures Measure(f.progs(i), f.at(v + 1, i)) < Measure(f.progs(i), f.at(v, i))
  {
    SaneAlways(f, i, v);
    assert f.at(v, i).chan.refs == map[];
    Deserted(f.progs(i), f.at(v, i));
    assert f.StepOf(i, v);
    MeasureDrops(f.progs(i), f.at(v, i), f.act(v).value.event);
  }

  // A deserted actor drains its mailbox and ends.
  lemma {:induction false} DesertedEnds<M, A, C, R>(f: Family<M, A, C, R>, i: nat, t: nat) returns (u: nat)
    requires f.IsRun() && f.FairLoops() && i < f.size && f.Refs(i, t) == {}
    ensures t <= u && f.Gone(i, u)
    decreases Measure(f.progs(i), f.at(t, i))
  {
    if f.Gone(i, t) {
      u := t;
    } else {
      assert f.ServedAfter(i, t);
      var v: nat :| t <= v && f.Served(i, v);
      StaysDeserted(f, i, t, v);
      if f.Gone(i, v) {
        u := v;
      } else {
        TurnTaken(f, i, v);
        StaysDeserted(f, i, v, v + 1);
        u := DesertedEnds(f, i, v + 1);
      }
    }
  }

  // Nobody stops actor i and it runs into no error.
  ghost predicate LeftAlone<M, A, C, R>(f: Family<M, A, C, R>, i: nat) {
    forall t: nat {:trigger f.at(t, i)} ::
      Stop !in f.at(t, i).chan.accepted && (f.Gone(i, t) ==> f.at(t, i).phase.exit == Clean)
  }

  // An actor that ended of itself had nobody left to send to it.
  lemma EndedDeserted<M, A, C, R>(f: Family<M, A, C, R>, i: nat, u: nat)
    requires f.IsRun() && f.Begun() && i < f.size && LeftAlone(f, i) && f.Gone(i, u)
    ensures f.Refs(i, u) == {}
  {
    DrainedWhenGone(f, i, u);
    SaneAlways(f, i, u);
    var c := f.at(u, i);
    assert Stop !in c.chan.accepted && c.chan.mpsc == 0;
    if n :| n in c.chan.refs { Held(c.chan, n); }
  }

  // When an actor nobody stops ends: in a fair run, exactly if one day no Addr, no Sender, no Caller,
  // no call and no send is left. Dropping the last Addr alone is not enough, nor is a parent's end.
  lemma EndsIffDeserted<M, A, C, R>(f: Family<M, A, C, R>, i: nat, t: nat)
    requires f.IsRun() && f.Begun() && f.FairLoops() && i < f.size && LeftAlone(f, i)
    ensures (exists u: nat :: t <= u && f.Gone(i, u)) <==> (exists u: nat :: t <= u && f.Refs(i, u) == {})
  {
    if u: nat :| t <= u && f.Gone(i, u) {
      EndedDeserted(f, i, u);
      assert f.Refs(i, u) == {};
    }
    if u: nat :| t <= u && f.Refs(i, u) == {} {
      var v := DesertedEnds(f, i, u);
      assert f.Gone(i, v);
    }
  }

  // The exact condition for a child to be stopped by the end of its parent: the sender of the parent
  // is gone then and for ever, so the child ends exactly if everybody else lets go of it too.
  lemma ChildEndsIff<M, A, C, R>(f: Family<M, A, C, R>, i: nat, t: nat)
    requires f.IsRun() && f.Begun() && f.FairLoops() && i < f.size && LeftAlone(f, i)
    requires f.parent(i).Some? && f.Gone(f.parent(i).value, t)
    ensures (exists u: nat :: t <= u && f.Gone(i, u))
            <==> (exists u: nat :: t <= u && f.Refs(i, u) - {f.handle(i)} == {})
  {
    EndsIffDeserted(f, i, t);
    forall u: nat | t <= u ensures f.Refs(i, u) - {f.handle(i)} == f.Refs(i, u) {
      GoneStays(f, f.parent(i).value, t, u);
      HandleDropped(f, i, u);
    }
  }

  // Once an actor is gone, on whatever path, every descendant ends too, in every fair run in which
  // nobody but the parents keeps handles of descendants for good.
  lemma {:induction false} ChildCascade<M, A, C, R>(
      f: Family<M, A, C, R>, q: nat, p: nat, t: nat, i: nat) returns (u: nat)
    requires f.IsRun() && f.FairLoops() && f.TemporaryRefs(p) && f.QuietFrom(q, p)
    requires f.Gone(p, t) && f.Descends(i, p)
    ensures t <= u && f.Gone(i, u)
    decreases i
  {
    if i == p {
      u := t;
    } else {
      var a := f.parent(i).value;
      var v := ChildCascade(f, q, p, t, a);
      var w := if v < q then q else v;
      GoneStays(f, a, v, w);
      var d := EventuallyDeserted(f, q, p, i, w);
      u := DesertedEnds(f, i, d);
    }
  }

  // It ends after draining its mailbox, unless a Stop or an error ends it first, and from then on it
  // stays so: nothing that was accepted before its earliest Stop is lost in the cascade.
  lemma CascadeDrains<M, A, C, R>(f: Family<M, A, C, R>, q: nat, p: nat, t: nat, i: nat) returns (u: nat)
    requires f.IsRun() && f.Begun() && f.FairLoops() && f.TemporaryRefs(p) && f.QuietFrom(q, p)
    requires f.Gone(p, t) && f.Descends(i, p)
    ensures t <= u && f.DrainedFrom(i, u)
  {
    u := ChildCascade(f, q, p, t, i);
    forall v: nat | u <= v ensures f.Gone(i, v) && (f.at(v, i).phase.exit == Clean ==> Exhausted(f.at(v, i))) {
      GoneStays(f, i, u, v);
      DrainedWhenGone(f, i, v);
    }
  }

  lemma DrainedWhenGone<M, A, C, R>(f: Family<M, A, C, R>, i: nat, v: nat)
    requires f.IsRun() && f.Begun() && i < f.size && f.Gone(i, v)
    ensures f.at(v, i).phase.exit == Clean ==> Exhausted(f.at(v, i))
  {
    InvAlways(f, i, v);
    if f.at(v, i).phase.exit == Clean { CleanlyExhausted(f.progs(i), f.locals(i), f.at(v, i)); }
  }
}
