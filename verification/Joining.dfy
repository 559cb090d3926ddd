/** The take-once join handle of an owning address (src/actor/spawner/tokio_spawner.rs, src/addr.rs). */
module Joining {
  import opened Messages
  import opened Sequential
  import opened Actors
  import opened ActorTheorems

  type JoinId = nat

  // A future returned by `join()`: not yet polled, holding the task's handle, resolved, or dropped before
  // that, with the handle if it had it.
  datatype Join<A> = Unpolled | Holding | Done(result: Option<A>) | Dropped(had: bool)

  // The shared slot is full until some join future takes the task's handle out of it.
  datatype Owner<A> = Owner(slotFull: bool, joins: map<JoinId, Join<A>>)

  datatype JoinEvent = NewJoin(j: JoinId) | PollJoin(j: JoinId) | DropJoin(j: JoinId)

  ghost predicate CanJoin<A>(o: Owner<A>, e: JoinEvent) {
    match e
    case NewJoin(j) => j !in o.joins
    case PollJoin(j) => j in o.joins && (o.joins[j].Unpolled? || o.joins[j].Holding?)
    case DropJoin(j) => j in o.joins && (o.joins[j].Unpolled? || o.joins[j].Holding?)
  }

  // `.await.ok().and_then(Result::ok)` on the taken handle: pending until the task is over.
  function Await<M, A, C, R>(c: Cell<M, A, C, R>): Join<A> {
    if c.phase.Gone? then Done(c.output) else Holding
  }

  function JoinNext<M, A, C, R>(o: Owner<A>, c: Cell<M, A, C, R>, e: JoinEvent): Owner<A>
    requires CanJoin(o, e)
  {
    match e
    case NewJoin(j) => o.(joins := o.joins[j := Unpolled])
    case DropJoin(j) => o.(joins := o.joins[j := Dropped(o.joins[j].Holding?)])
    case PollJoin(j) =>
      if o.joins[j].Holding? then o.(joins := o.joins[j := Await(c)])
      else if o.slotFull then Owner(false, o.joins[j := Await(c)])
      else o.(joins := o.joins[j := Done(None)])
  }

  // The same, as the source does it: a mutex-guarded slot that polling empties.
  class OwningAddr<A> {
    var slotFull: bool
    var joins: map<JoinId, Join<A>>

    constructor ()
      ensures At() == Owner(true, map[])
    {
      slotFull, joins := true, map[];
    }

    function At(): Owner<A>
      reads this
    {
      Owner(slotFull, joins)
    }

    method NewJoinFuture(j: JoinId)
      requires CanJoin(At(), NewJoin(j))
      modifies this
      ensures slotFull == old(slotFull) && joins == old(joins)[j := Unpolled]
    {
      joins := joins[j := Unpolled];
    }

    method Poll<M, C, R>(j: JoinId, c: Cell<M, A, C, R>)
      requires CanJoin(At(), PollJoin(j))
      modifies this
      ensures At() == JoinNext(old(At()), c, PollJoin(j))
      ensures slotFull == (old(slotFull) && old(joins)[j].Holding?)
      // whoever has the handle, or finds it, waits for the task and gets what it returned; nobody else does
      ensures var mine := old(slotFull) || old(joins)[j].Holding?;
              joins == old(joins)[j := if !mine then Done(None) else if c.phase.Gone? then Done(c.output) else Holding]
    {
      var held := joins[j].Holding?;
      if !held {
        held := slotFull;
        slotFull := false;
      }
      joins := joins[j := if held then Await(c) else Done(None)];
    }
  }

  // A run of an actor and its owner's joins, in any order.
  datatype Step<M> = OfActor(event: Event<M>) | OfOwner(join: JoinEvent)

  ghost predicate Both<M, A, C, R>(
      prog: Program<M, A, C, R>, c: Cell<M, A, C, R>, o: Owner<A>, steps: seq<Step<M>>, d: Cell<M, A, C, R>,
      p: Owner<A>)
    decreases |steps|
  {
    if steps == [] then c == d && o == p else
      match steps[0]
      case OfActor(e) => Can(prog, c, e) && Both(prog, Next(prog, c, e), o, steps[1..], d, p)
      case OfOwner(e) => CanJoin(o, e) && Both(prog, c, JoinNext(o, c, e), steps[1..], d, p)
  }

  // While the slot is full nobody has the handle; afterwards at most one join has it or had it, and
  // whatever a join yields is the output of the finished task.
  ghost predicate TakenOnce<M, A, C, R>(o: Owner<A>, c: Cell<M, A, C, R>) {
    && (forall j, k :: Took(o, j) && Took(o, k) ==> j == k)
    && (o.slotFull ==> forall j :: !Took(o, j))
    && (forall j :: j in o.joins && o.joins[j].Done? && o.joins[j].result.Some? ==>
          c.phase.Gone? && o.joins[j].result == c.output)
  }

  ghost predicate Took<A>(o: Owner<A>, j: JoinId) {
    j in o.joins && (o.joins[j].Holding? || (o.joins[j].Done? && o.joins[j].result.Some?))
  }

  lemma TakenOnceStep<M, A, C, R>(o: Owner<A>, c: Cell<M, A, C, R>, e: JoinEvent)
    requires TakenOnce(o, c) && CanJoin(o, e)
    ensures TakenOnce(JoinNext(o, c, e), c)
  {
    var p := JoinNext(o, c, e);
    if e.PollJoin? && (o.slotFull || o.joins[e.j].Holding?) {
      assert o.joins[e.j].Holding? ==> Took(o, e.j);
      assert forall j :: Took(p, j) ==> j == e.j || Took(o, j);
    } else {
      assert forall j :: Took(p, j) ==> Took(o, j);
    }
  }

  // The handle is in the slot, or with a join that waits, or went down with one; or a join has had it and
  // has got the task's output.
  ghost predicate NotLost<M, A, C, R>(o: Owner<A>, c: Cell<M, A, C, R>) {
    o.slotFull || exists j :: Has(o, c, j)
  }

  ghost predicate Has<M, A, C, R>(o: Owner<A>, c: Cell<M, A, C, R>, j: JoinId) {
    && j in o.joins
    && (o.joins[j].Holding? || o.joins[j] == Dropped(true) || (c.phase.Gone? && o.joins[j] == Done(c.output)))
  }

  lemma NotLostStep<M, A, C, R>(o: Owner<A>, c: Cell<M, A, C, R>, e: JoinEvent)
    requires NotLost(o, c) && CanJoin(o, e)
    ensures NotLost(JoinNext(o, c, e), c)
  {
    var p := JoinNext(o, c, e);
    if !o.slotFull {
      var j :| Has(o, c, j);
      assert Has(p, c, j);
    } else if !p.slotFull {
      assert Has(p, c, e.j);
    }
  }

  lemma StillHas<M, A, C, R>(prog: Program<M, A, C, R>, o: Owner<A>, c: Cell<M, A, C, R>, e: Event<M>)
    requires NotLost(o, c) && Can(prog, c, e)
    ensures NotLost(o, Next(prog, c, e))
  {
    if !o.slotFull {
      var j :| Has(o, c, j);
      if c.phase.Gone? { OutputFinal(prog, c, e); }
      assert Has(o, Next(prog, c, e), j);
    }
  }

  // Once the task is over its output stays what it is.
  lemma OutputFinal<M, A, C, R>(prog: Program<M, A, C, R>, c: Cell<M, A, C, R>, e: Event<M>)
    requires Can(prog, c, e) && c.phase.Gone?
    ensures Next(prog, c, e).phase == c.phase && Next(prog, c, e).output == c.output
  {
  }

  lemma {:induction false} JoinRun<M, A, C, R>(
      prog: Program<M, A, C, R>, l: Local<A, C>, c: Cell<M, A, C, R>, o: Owner<A>, steps: seq<Step<M>>,
      d: Cell<M, A, C, R>, p: Owner<A>)
    requires Inv(prog, l, c) && TakenOnce(o, c) && NotLost(o, c) && Both(prog, c, o, steps, d, p)
    ensures Inv(prog, l, d) && TakenOnce(p, d) && NotLost(p, d)
    decreases |steps|
  {
    if steps != [] {
      match steps[0]
      case OfActor(e) =>
        InvStep(prog, l, c, e);
        if c.phase.Gone? { OutputFinal(prog, c, e); }
        StillHas(prog, o, c, e);
        JoinRun(prog, l, Next(prog, c, e), o, steps[1..], d, p);
      case OfOwner(e) =>
        TakenOnceStep(o, c, e);
        NotLostStep(o, c, e);
        JoinRun(prog, l, c, JoinNext(o, c, e), steps[1..], d, p);
    }
  }

  // Over any sequence of joins, overlapping or abandoned, at most one yields the actor; what it
  // yields is the actor that the sequential run over the handled messages leaves after its final
  // `stopped`, of a loop that ended cleanly. Every other join that completes yields None.
  lemma ActorReturnedOnce<M, A, C, R>(
      prog: Program<M, A, C, R>, l: Local<A, C>, steps: seq<Step<M>>, c: Cell<M, A, C, R>, o: Owner<A>, j: JoinId,
      k: JoinId)
    requires Both(prog, NewCell(l), Owner(true, map[]), steps, c, o)
    requires j in o.joins && o.joins[j].Done? && o.joins[j].result.Some?
    ensures c.phase == Gone(Clean) && o.joins[j].result == Some(Close(prog, Folded(prog, l, c)).local.actor)
    ensures k in o.joins && o.joins[k].Done? && k != j ==> o.joins[k].result == None
  {
    InvInit(prog, l);
    JoinRun(prog, l, NewCell(l), Owner(true, map[]), steps, c, o);
    assert Took(o, j);
    assert k in o.joins && o.joins[k].Done? && o.joins[k].result.Some? ==> Took(o, k);
  }

  // And the actor is not lost: once the loop has ended cleanly, the first join that was polled yields it, unless
  // it is still to be polled again or was dropped on the way.
  lemma ActorNotLost<M, A, C, R>(
      prog: Program<M, A, C, R>, l: Local<A, C>, steps: seq<Step<M>>, c: Cell<M, A, C, R>, o: Owner<A>)
    requires Both(prog, NewCell(l), Owner(true, map[]), steps, c, o) && c.phase == Gone(Clean)
    requires !o.slotFull && forall j :: j in o.joins ==> !o.joins[j].Holding? && o.joins[j] != Dropped(true)
    ensures exists j :: j in o.joins && o.joins[j] == Done(Some(Close(prog, Folded(prog, l, c)).local.actor))
  {
    InvInit(prog, l);
    JoinRun(prog, l, NewCell(l), Owner(true, map[]), steps, c, o);
    var j :| Has(o, c, j);
    assert Notifies(c) && Tracks(prog, l, c);
  }
}
