/** Many actors side by side, as the broker meets them. The broker is one of them: its cell holds the
    mailbox, the loop and the handles of the broker, other threads may take any number of steps on any
    actor between two steps of its own (src/broker.rs, src/context.rs, src/actor/service.rs). */
module Network {
  import opened Messages
  import opened Sequential
  import opened Handles
  import opened Actors
  import opened ActorInvariant
  import opened ActorTheorems

  // Ids are handed out by a global counter (src/context.rs), so no two actors share one.
  type ContextId = nat

  // The id of a weak sender is that of the actor's context.
  datatype WeakSender = WeakSender(id: ContextId)

  datatype Request<T> = Publish(topic: T) | Subscribe(sender: WeakSender) | Unsubscribe(sender: WeakSender)

  // What a mailbox receives: copies made by the broker, stamped with the place of the publish in the
  // broker's handling order, messages others send directly, and the broker's own requests. The stamp
  // only serves to tell copies apart.
  datatype Letter<T> = Copy(pos: nat, topic: T) | Direct(topic: T) | ToBroker(request: Request<T>)

  // `subscribes` says which actors call `ctx.subscribe().await?` in `started`.
  datatype Population<!T, !A, !C, !R> = Population(
    progs: ContextId -> Program<Letter<T>, A, C, R>,
    locals: ContextId -> Local<A, C>,
    broker: ContextId,
    subscribes: ContextId -> bool)

  type Cells<T, A, C, R> = map<ContextId, Cell<Letter<T>, A, C, R>>

  // `asks` names, in the broker's channel, the send future of the Subscribe that an actor's `started`
  // is awaiting.
  datatype World<T, A, C, R> = World(cells: Cells<T, A, C, R>, asks: map<ContextId, RefId>)

  // A ref of some actor that the broker holds on its stack.
  type Loan = (ContextId, RefId)

  function RequestOf<T>(p: Payload<Letter<T>>): Option<Request<T>> {
    if p.Task? && p.work.Handle? && p.work.msg.ToBroker? then Some(p.work.msg.request) else None
  }

  predicate IsCopy<T>(p: Payload<Letter<T>>) { p.Task? && p.work.Handle? && p.work.msg.Copy? }

  function CopiesIn<T>(ps: seq<Payload<Letter<T>>>): seq<(nat, T)> {
    if ps == [] then [] else
      var p := ps[|ps| - 1];
      CopiesIn(ps[..|ps| - 1]) + if IsCopy(p) then [(p.work.msg.pos, p.work.msg.topic)] else []
  }

  function Copies<T, A, C, R>(c: Cell<Letter<T>, A, C, R>): seq<(nat, T)> { CopiesIn(c.chan.accepted) }

  predicate Alive<T, A, C, R>(c: Cell<Letter<T>, A, C, R>) { c.chan.tx > 0 && c.chan.force > 0 }

  ghost predicate AllCounted<T, A, C, R>(cells: Cells<T, A, C, R>) {
    forall id {:trigger Counted(cells[id].chan)} :: id in cells ==> Counted(cells[id].chan)
  }

  // ---------------------------------------------------------------- what others leave alone

  // Others cannot touch what the broker holds on its stack, and only the broker makes copies.
  predicate Permitted<T, A, C, R>(held: set<Loan>, id: ContextId, c: Cell<Letter<T>, A, C, R>, e: Event<Letter<T>>) {
    match e
    case Discard(h) => (id, h) !in held
    case AwaitAddr(h) => (id, h) !in held
    case PollSend(f) => (id, f) !in held && f in c.chan.refs && c.chan.refs[f].SendFut?
          && !IsCopy(Task(c.chan.refs[f].work, None))
    case Force(p) => !IsCopy(p)
    case BeginSend(_, w) => !IsCopy(Task(w, None))
    case BeginCall(_, _, _, w) => !IsCopy(Task(w, None))
    case _ => true
  }

  // What any amount of interference leaves true of one actor.
  ghost predicate Drifts<T, A, C, R>(
      held: set<Loan>, id: ContextId, c: Cell<Letter<T>, A, C, R>, d: Cell<Letter<T>, A, C, R>) {
    && (Alive(d) ==> Alive(c))
    && (d.chan.open ==> c.chan.open)
    && Copies(d) == Copies(c)
    && (forall h :: (id, h) in held && h in c.chan.refs ==> h in d.chan.refs && d.chan.refs[h] == c.chan.refs[h])
  }

  // New actors may appear, none disappears from the books.
  ghost predicate Rely<T, A, C, R>(held: set<Loan>, cells: Cells<T, A, C, R>, cells': Cells<T, A, C, R>) {
    && AllCounted(cells')
    && (forall id {:trigger id in cells'} {:trigger Drifts(held, id, cells[id], cells'[id])} ::
          id in cells ==> id in cells' && Drifts(held, id, cells[id], cells'[id]))
    && (forall id {:trigger Copies(cells'[id])} :: id in cells' && id !in cells ==> Copies(cells'[id]) == [])
  }

  lemma CopiesSnoc<T>(ps: seq<Payload<Letter<T>>>, p: Payload<Letter<T>>)
    ensures CopiesIn(ps + [p]) == CopiesIn(ps) + if IsCopy(p) then [(p.work.msg.pos, p.work.msg.topic)] else []
  {
    assert (ps + [p])[..|ps|] == ps;
  }

  lemma AliveStep<T, A, C, R>(prog: Program<Letter<T>, A, C, R>, c: Cell<Letter<T>, A, C, R>, e: Event<Letter<T>>)
    requires Counted(c.chan) && Can(prog, c, e)
    ensures Alive(Next(prog, c, e)) ==> Alive(c)
  {
    ForceBelowTx(c.chan);
    if c.chan.force == 0 { ForceLost(prog, c, e); }
  }

  lemma CopiesStep<T, A, C, R>(
      prog: Program<Letter<T>, A, C, R>, held: set<Loan>, id: ContextId, c: Cell<Letter<T>, A, C, R>,
      e: Event<Letter<T>>)
    requires Can(prog, c, e) && Permitted(held, id, c, e)
    ensures var d := Next(prog, c, e); Copies(d) == Copies(c) && (d.chan.open ==> c.chan.open)
  {
    match e
    case Force(p) => CopiesSnoc(c.chan.accepted, p);
    case PollSend(f) => CopiesSnoc(c.chan.accepted, Task(c.chan.refs[f].work, c.chan.refs[f].reply));
    case _ =>
  }

  lemma LoansStep<T, A, C, R>(
      prog: Program<Letter<T>, A, C, R>, held: set<Loan>, id: ContextId, c: Cell<Letter<T>, A, C, R>,
      e: Event<Letter<T>>)
    requires Can(prog, c, e) && Permitted(held, id, c, e)
    ensures var d := Next(prog, c, e);
            forall h :: (id, h) in held && h in c.chan.refs ==> h in d.chan.refs && d.chan.refs[h] == c.chan.refs[h]
  {
    assert forall h :: (id, h) in held && h in c.chan.refs ==> e != Discard(h) && e != AwaitAddr(h) && e != PollSend(h);
    RefStays(prog, c, e);
  }

  lemma RelyStep<T, A, C, R>(
      pop: Population<T, A, C, R>, held: set<Loan>, cells: Cells<T, A, C, R>, id: ContextId, e: Event<Letter<T>>)
    requires AllCounted(cells) && id in cells && Can(pop.progs(id), cells[id], e) && Permitted(held, id, cells[id], e)
    ensures Rely(held, cells, cells[id := Next(pop.progs(id), cells[id], e)])
  {
    CountedStep(pop.progs(id), cells[id], e);
    AliveStep(pop.progs(id), cells[id], e);
    CopiesStep(pop.progs(id), held, id, cells[id], e);
    LoansStep(pop.progs(id), held, id, cells[id], e);
  }

  lemma RelyTrans<T, A, C, R>(held: set<Loan>, x: Cells<T, A, C, R>, y: Cells<T, A, C, R>, z: Cells<T, A, C, R>)
    requires Rely(held, x, y) && Rely(held, y, z)
    ensures Rely(held, x, z)
  {
    forall id | id in x ensures id in z && Drifts(held, id, x[id], z[id]) {
      assert Drifts(held, id, x[id], y[id]) && Drifts(held, id, y[id], z[id]);
    }
    forall id | id in z && id !in x ensures Copies(z[id]) == [] {
      if id in y { assert Drifts(held, id, y[id], z[id]); }
    }
  }

  lemma RelyRefl<T, A, C, R>(held: set<Loan>, x: Cells<T, A, C, R>)
    requires AllCounted(x)
    ensures Rely(held, x, x)
  {
  }

  // ---------------------------------------------------------------- what every moment is like

  // Weak senders name actors that exist; the broker itself takes no topics.
  predicate Named<T, A, C, R>(pop: Population<T, A, C, R>, cells: Cells<T, A, C, R>, p: Payload<Letter<T>>) {
    match RequestOf(p)
    case Some(Subscribe(s)) => s.id in cells && s.id != pop.broker
    case _ => true
  }

  function SubscribeFut<T>(id: ContextId): Ref<Letter<T>> {
    SendFut(Handle(ToBroker(Subscribe(WeakSender(id)))), None)
  }

  // The p-th message the broker accepted asks it to subscribe id.
  ghost predicate AsksFor<T>(accepted: seq<Payload<Letter<T>>>, p: int, id: ContextId) {
    0 <= p < |accepted| && RequestOf(accepted[p]) == Some(Subscribe(WeakSender(id)))
  }

  ghost predicate Asked<T>(accepted: seq<Payload<Letter<T>>>, id: ContextId) {
    exists p :: AsksFor(accepted, p, id)
  }

  // The registry keeps the broker's Addr; nobody stops or replaces it, its type rules out restarts
  // and its configuration timeouts.
  ghost predicate BrokerUp<T, A, C, R>(pop: Population<T, A, C, R>, cells: Cells<T, A, C, R>) {
    && pop.broker in cells
    && var c := cells[pop.broker];
    && 0 in c.chan.refs && c.chan.refs[0].Addr?
    && (c.phase.Starting? || c.phase.Idle? || c.phase.Busy?)
    && (forall i :: 0 <= i < |c.chan.accepted| ==> c.chan.accepted[i].Task? && Named(pop, cells, c.chan.accepted[i]))
  }

  // A Subscribe awaited by somebody's `started` is still pending or stands in the broker's mailbox.
  ghost predicate AskKept<T, A, C, R>(pop: Population<T, A, C, R>, w: World<T, A, C, R>, id: ContextId)
    requires pop.broker in w.cells && id in w.asks
  {
    var c, f := w.cells[pop.broker], w.asks[id];
    && id in w.cells && id != pop.broker && f != 0 && f in c.chan.refs
    && (c.chan.refs[f] == SubscribeFut(id) || (c.chan.refs[f] == Flush && Asked(c.chan.accepted, id)))
  }

  ghost predicate AsksKept<T, A, C, R>(pop: Population<T, A, C, R>, w: World<T, A, C, R>)
    requires pop.broker in w.cells
  {
    && (forall id {:trigger AskKept(pop, w, id)} {:trigger w.asks[id]} :: id in w.asks ==> AskKept(pop, w, id))
    && (forall i, j {:trigger w.asks[i], w.asks[j]} :: i in w.asks && j in w.asks && w.asks[i] == w.asks[j] ==> i == j)
  }

  predicate HasStarted<T, A, C, R>(c: Cell<Letter<T>, A, C, R>) { c.trace != [] && c.trace[0] == StartHook(true) }

  // Whoever subscribes in `started` and is past it is known to the broker's mailbox.
  ghost predicate StartedAsked<T, A, C, R>(pop: Population<T, A, C, R>, cells: Cells<T, A, C, R>)
    requires pop.broker in cells
  {
    forall id {:trigger HasStarted(cells[id])} ::
      id in cells && id != pop.broker && pop.subscribes(id) && HasStarted(cells[id]) ==>
            Asked(cells[pop.broker].chan.accepted, id)
  }

  ghost predicate AllProper<T, A, C, R>(pop: Population<T, A, C, R>, cells: Cells<T, A, C, R>) {
    forall id {:trigger Proper(pop, id, cells[id])} :: id in cells ==> Proper(pop, id, cells[id])
  }

  ghost predicate Proper<T, A, C, R>(pop: Population<T, A, C, R>, id: ContextId, c: Cell<Letter<T>, A, C, R>) {
    Inv(pop.progs(id), pop.locals(id), c)
  }

  ghost predicate Sound<T, A, C, R>(pop: Population<T, A, C, R>, w: World<T, A, C, R>) {
    AllProper(pop, w.cells) && BrokerUp(pop, w.cells) && AsksKept(pop, w) && StartedAsked(pop, w.cells)
  }

  // What only ever grows or shrinks from one moment to the next.
  ghost predicate Grows<T, A, C, R>(x: Cells<T, A, C, R>, z: Cells<T, A, C, R>) {
    forall id {:trigger id in z} {:trigger z[id]} :: id in x ==>
      id in z && x[id].chan.accepted <= z[id].chan.accepted && (Alive(z[id]) ==> Alive(x[id]))
  }

  // All moments of a run, in their order.
  ghost predicate History<T, A, C, R>(pop: Population<T, A, C, R>, ms: seq<World<T, A, C, R>>) {
    && (forall i {:trigger Sound(pop, ms[i])} :: 0 <= i < |ms| ==> Sound(pop, ms[i]))
    && (forall i, j {:trigger Grows(ms[i].cells, ms[j].cells)} :: 0 <= i <= j < |ms| ==>
          Grows(ms[i].cells, ms[j].cells))
  }

  // ---------------------------------------------------------------- what may happen

  // What anybody may do to an actor from outside its loop, and any loop but the broker's may do. An
  // actor that subscribes in `started` gets past it only with its Subscribe sent.
  predicate Lawful<T, A, C, R>(pop: Population<T, A, C, R>, w: World<T, A, C, R>, id: ContextId, e: Event<Letter<T>>)
    requires id in w.cells
  {
    if id != pop.broker then
      e.Start? && pop.subscribes(id) && pop.progs(id).startOk(w.cells[id].local) ==>
        pop.broker in w.cells && id in w.asks && w.asks[id] in w.cells[pop.broker].chan.refs
        && w.cells[pop.broker].chan.refs[w.asks[id]] == Flush
    else
      match e
      case Force(p) => p.Task? && Named(pop, w.cells, p)
      case PollSend(f) =>
        f !in w.asks.Values && f in w.cells[id].chan.refs && w.cells[id].chan.refs[f].SendFut?
        && Named(pop, w.cells, Task(w.cells[id].chan.refs[f].work, None))
      case Discard(h) => h != 0 && h !in w.asks.Values
      case _ => !e.OfLoop()
  }

  // The broker's own loop: it is not timed out, aborted or stopped.
  predicate OwnTurn<T, A, C, R>(
      pop: Population<T, A, C, R>, cells: Cells<T, A, C, R>, id: ContextId, e: Event<Letter<T>>)
    requires id in cells
  {
    id == pop.broker && (e.Pop? || e.Complete? || (e.Start? && pop.progs(id).startOk(cells[id].local)))
  }

  lemma AcceptedStep<M, A, C, R>(prog: Program<M, A, C, R>, c: Cell<M, A, C, R>, e: Event<M>)
    requires Can(prog, c, e)
    ensures var d := Next(prog, c, e);
            && c.chan.accepted <= d.chan.accepted
            && (!e.Force? && !e.PollSend? ==> d.chan.accepted == c.chan.accepted)
            && (e.Force? ==> d.chan.accepted == c.chan.accepted + if c.chan.open then [e.payload] else [])
            && (e.PollSend? ==>
                  var SendFut(w, k) := c.chan.refs[e.f];
                  d.chan.accepted == c.chan.accepted + if c.chan.open then [Task(w, k)] else [])
  {
  }

  lemma PhaseStep<M, A, C, R>(prog: Program<M, A, C, R>, c: Cell<M, A, C, R>, e: Event<M>)
    requires Can(prog, c, e) && !e.OfLoop()
    ensures var d := Next(prog, c, e); d.phase == c.phase && d.handled == c.handled && d.trace == c.trace
  {
  }

  // Only the first `started` puts a start at the head of the trace.
  lemma HeadStep<M, A, C, R>(prog: Program<M, A, C, R>, c: Cell<M, A, C, R>, e: Event<M>)
    requires Can(prog, c, e) && Next(prog, c, e).trace != [] && Next(prog, c, e).trace[0] == StartHook(true)
    requires c.trace == [] || c.trace[0] != StartHook(true)
    ensures c.trace == [] && e == Start && prog.startOk(c.local)
  {
  }

  lemma AskedMore<T>(a: seq<Payload<Letter<T>>>, b: seq<Payload<Letter<T>>>, id: ContextId)
    requires a <= b && Asked(a, id)
    ensures Asked(b, id)
  {
    var p :| AsksFor(a, p, id);
    assert AsksFor(b, p, id);
  }

  // ---------------------------------------------------------------- every moment stays sound

  function Moved<T, A, C, R>(
      pop: Population<T, A, C, R>, w: World<T, A, C, R>, id: ContextId, e: Event<Letter<T>>): World<T, A, C, R>
    requires id in w.cells && Can(pop.progs(id), w.cells[id], e)
  {
    w.(cells := w.cells[id := Next(pop.progs(id), w.cells[id], e)])
  }

  lemma ProperStep<T, A, C, R>(pop: Population<T, A, C, R>, w: World<T, A, C, R>, id: ContextId, e: Event<Letter<T>>)
    requires AllProper(pop, w.cells) && id in w.cells && Can(pop.progs(id), w.cells[id], e)
    ensures AllProper(pop, Moved(pop, w, id, e).cells)
  {
    assert Proper(pop, id, w.cells[id]);
    InvStep(pop.progs(id), pop.locals(id), w.cells[id], e);
    var z := Moved(pop, w, id, e).cells;
    forall k | k in z ensures Proper(pop, k, z[k]) {
      if k != id { assert Proper(pop, k, w.cells[k]); }
    }
  }

  lemma GrowsStep<T, A, C, R>(pop: Population<T, A, C, R>, w: World<T, A, C, R>, id: ContextId, e: Event<Letter<T>>)
    requires AllProper(pop, w.cells) && id in w.cells && Can(pop.progs(id), w.cells[id], e)
    ensures Grows(w.cells, Moved(pop, w, id, e).cells)
  {
    assert Counted(w.cells[id].chan) by { assert Proper(pop, id, w.cells[id]); }
    CellGrows(pop.progs(id), w.cells[id], e, Next(pop.progs(id), w.cells[id], e));
  }

  lemma CellGrows<T, A, C, R>(
      prog: Program<Letter<T>, A, C, R>, c: Cell<Letter<T>, A, C, R>, e: Event<Letter<T>>, d: Cell<Letter<T>, A, C, R>)
    requires Counted(c.chan) && Can(prog, c, e) && d == Next(prog, c, e)
    ensures c.chan.accepted <= d.chan.accepted && (Alive(d) ==> Alive(c))
  {
    AcceptedStep(prog, c, e);
    AliveStep(prog, c, e);
  }

  // The broker's cell under an event that leaves the registry's Addr alone.
  lemma BrokerUpStep<T, A, C, R>(pop: Population<T, A, C, R>, w: World<T, A, C, R>, e: Event<Letter<T>>)
    requires BrokerUp(pop, w.cells) && AllProper(pop, w.cells) && Can(pop.progs(pop.broker), w.cells[pop.broker], e)
    requires OwnTurn(pop, w.cells, pop.broker, e) || !e.OfLoop()
    requires e != Discard(0) && (e.Force? ==> e.payload.Task? && Named(pop, w.cells, e.payload))
    requires e.PollSend? ==> Named(pop, w.cells, Task(w.cells[pop.broker].chan.refs[e.f].work, None))
    ensures BrokerUp(pop, Moved(pop, w, pop.broker, e).cells)
  {
    assert Proper(pop, pop.broker, w.cells[pop.broker]);
    RegistryKeeps(pop.progs(pop.broker), w.cells[pop.broker], e);
    BrokerPhase(pop, w, e);
    AcceptedNamed(pop, w, e);
  }

  lemma RegistryKeeps<M, A, C, R>(prog: Program<M, A, C, R>, c: Cell<M, A, C, R>, e: Event<M>)
    requires 0 in c.chan.refs && c.chan.refs[0].Addr? && Can(prog, c, e) && e != Discard(0)
    ensures var d := Next(prog, c, e); 0 in d.chan.refs && d.chan.refs[0].Addr?
  {
    RefStays(prog, c, e);
  }

  lemma BrokerPhase<T, A, C, R>(pop: Population<T, A, C, R>, w: World<T, A, C, R>, e: Event<Letter<T>>)
    requires BrokerUp(pop, w.cells) && Can(pop.progs(pop.broker), w.cells[pop.broker], e) && Flow(w.cells[pop.broker])
    requires OwnTurn(pop, w.cells, pop.broker, e) || !e.OfLoop()
    ensures var ph := Next(pop.progs(pop.broker), w.cells[pop.broker], e).phase; ph.Starting? || ph.Idle? || ph.Busy?
  {
    var c := w.cells[pop.broker];
    if !e.OfLoop() {
      PhaseStep(pop.progs(pop.broker), c, e);
    } else if e.Pop? {
      assert c.chan.accepted[|c.handled|] == c.chan.queue[0];
    }
  }

  lemma AcceptedNamed<T, A, C, R>(pop: Population<T, A, C, R>, w: World<T, A, C, R>, e: Event<Letter<T>>)
    requires BrokerUp(pop, w.cells) && Can(pop.progs(pop.broker), w.cells[pop.broker], e)
    requires e.Force? ==> e.payload.Task? && Named(pop, w.cells, e.payload)
    requires e.PollSend? ==> Named(pop, w.cells, Task(w.cells[pop.broker].chan.refs[e.f].work, None))
    ensures var z := Moved(pop, w, pop.broker, e).cells;
            forall i :: 0 <= i < |z[pop.broker].chan.accepted| ==>
              z[pop.broker].chan.accepted[i].Task? && Named(pop, z, z[pop.broker].chan.accepted[i])
  {
    var c, z := w.cells[pop.broker], Moved(pop, w, pop.broker, e).cells;
    AcceptedStep(pop.progs(pop.broker), c, e);
    assert z.Keys == w.cells.Keys;
    var d := z[pop.broker];
    forall i | 0 <= i < |d.chan.accepted| ensures d.chan.accepted[i].Task? && Named(pop, z, d.chan.accepted[i]) {
      if i < |c.chan.accepted| { assert d.chan.accepted[i] == c.chan.accepted[i]; }
    }
  }

  lemma AsksKeptStep<T, A, C, R>(pop: Population<T, A, C, R>, w: World<T, A, C, R>, e: Event<Letter<T>>)
    requires pop.broker in w.cells && AsksKept(pop, w) && Can(pop.progs(pop.broker), w.cells[pop.broker], e)
    requires forall f :: f in w.asks.Values ==> e != Discard(f) && e != PollSend(f)
    ensures AsksKept(pop, Moved(pop, w, pop.broker, e))
  {
    var c, v := w.cells[pop.broker], Moved(pop, w, pop.broker, e);
    RefStays(pop.progs(pop.broker), c, e);
    AcceptedStep(pop.progs(pop.broker), c, e);
    forall id | id in w.asks ensures AskKept(pop, v, id) {
      assert AskKept(pop, w, id) && w.asks[id] in w.asks.Values;
      if c.chan.refs[w.asks[id]] == Flush { AskedMore(c.chan.accepted, v.cells[pop.broker].chan.accepted, id); }
    }
  }

  lemma StartedAskedStep<T, A, C, R>(
      pop: Population<T, A, C, R>, w: World<T, A, C, R>, id: ContextId, e: Event<Letter<T>>)
    requires pop.broker in w.cells && StartedAsked(pop, w.cells) && id in w.cells && Can(pop.progs(id), w.cells[id], e)
    requires id != pop.broker && e == Start && pop.subscribes(id) && pop.progs(id).startOk(w.cells[id].local) ==>
               Asked(w.cells[pop.broker].chan.accepted, id)
    ensures StartedAsked(pop, Moved(pop, w, id, e).cells)
  {
    var z := Moved(pop, w, id, e).cells;
    if id == pop.broker { AcceptedStep(pop.progs(id), w.cells[id], e); }
    forall k | k in z && k != pop.broker && pop.subscribes(k) && HasStarted(z[k])
      ensures Asked(z[pop.broker].chan.accepted, k)
    {
      if k == id && !HasStarted(w.cells[k]) { HeadStep(pop.progs(k), w.cells[k], e); }
      else { assert HasStarted(w.cells[k]); }
      AskedMore(w.cells[pop.broker].chan.accepted, z[pop.broker].chan.accepted, k);
    }
  }

  lemma SoundStep<T, A, C, R>(pop: Population<T, A, C, R>, w: World<T, A, C, R>, id: ContextId, e: Event<Letter<T>>)
    requires Sound(pop, w) && id in w.cells && Can(pop.progs(id), w.cells[id], e)
    requires Lawful(pop, w, id, e) || OwnTurn(pop, w.cells, id, e)
    ensures Sound(pop, Moved(pop, w, id, e)) && Grows(w.cells, Moved(pop, w, id, e).cells)
  {
    var v := Moved(pop, w, id, e);
    assert AllProper(pop, v.cells) by { ProperStep(pop, w, id, e); }
    assert Grows(w.cells, v.cells) by { GrowsStep(pop, w, id, e); }
    assert BrokerUp(pop, v.cells) && AsksKept(pop, v) by { BrokerStep(pop, w, id, e); }
    assert StartedAsked(pop, v.cells) by {
      StartsLawfully(pop, w, id, e);
      StartedAskedStep(pop, w, id, e);
    }
  }

  lemma BrokerStep<T, A, C, R>(pop: Population<T, A, C, R>, w: World<T, A, C, R>, id: ContextId, e: Event<Letter<T>>)
    requires AllProper(pop, w.cells) && BrokerUp(pop, w.cells) && AsksKept(pop, w)
    requires id in w.cells && Can(pop.progs(id), w.cells[id], e)
    requires Lawful(pop, w, id, e) || OwnTurn(pop, w.cells, id, e)
    ensures BrokerUp(pop, Moved(pop, w, id, e).cells) && AsksKept(pop, Moved(pop, w, id, e))
  {
    if id == pop.broker {
      BrokerStepHere(pop, w, e);
    } else {
      SoundElsewhere(pop, w, Moved(pop, w, id, e));
    }
  }

  lemma BrokerStepHere<T, A, C, R>(pop: Population<T, A, C, R>, w: World<T, A, C, R>, e: Event<Letter<T>>)
    requires AllProper(pop, w.cells) && BrokerUp(pop, w.cells) && AsksKept(pop, w)
    requires Can(pop.progs(pop.broker), w.cells[pop.broker], e)
    requires Lawful(pop, w, pop.broker, e) || OwnTurn(pop, w.cells, pop.broker, e)
    ensures BrokerUp(pop, Moved(pop, w, pop.broker, e).cells) && AsksKept(pop, Moved(pop, w, pop.broker, e))
  {
    assert BrokerUp(pop, Moved(pop, w, pop.broker, e).cells) by { BrokerUpStep(pop, w, e); }
    assert AsksKept(pop, Moved(pop, w, pop.broker, e)) by { AsksKeptStep(pop, w, e); }
  }

  lemma StartsLawfully<T, A, C, R>(
      pop: Population<T, A, C, R>, w: World<T, A, C, R>, id: ContextId, e: Event<Letter<T>>)
    requires BrokerUp(pop, w.cells) && AsksKept(pop, w) && id in w.cells
             && (Lawful(pop, w, id, e) || OwnTurn(pop, w.cells, id, e))
    ensures id != pop.broker && e == Start && pop.subscribes(id) && pop.progs(id).startOk(w.cells[id].local) ==>
              Asked(w.cells[pop.broker].chan.accepted, id)
  {
    if id in w.asks { assert AskKept(pop, w, id); }
  }

  // The broker's part of the picture does not depend on how other actors fare.
  lemma SoundElsewhere<T, A, C, R>(pop: Population<T, A, C, R>, w: World<T, A, C, R>, v: World<T, A, C, R>)
    requires BrokerUp(pop, w.cells) && AsksKept(pop, w) && v.asks == w.asks && w.cells.Keys <= v.cells.Keys
    requires pop.broker in v.cells && v.cells[pop.broker] == w.cells[pop.broker]
    ensures BrokerUp(pop, v.cells) && AsksKept(pop, v)
  {
    forall id | id in v.asks ensures AskKept(pop, v, id) { assert AskKept(pop, w, id); }
    var c := v.cells[pop.broker];
    forall i | 0 <= i < |c.chan.accepted| ensures c.chan.accepted[i].Task? && Named(pop, v.cells, c.chan.accepted[i]) {
      assert Named(pop, w.cells, c.chan.accepted[i]);
    }
  }

  lemma SpawnSound<T, A, C, R>(pop: Population<T, A, C, R>, w: World<T, A, C, R>, id: ContextId)
    requires Sound(pop, w) && id !in w.cells
    ensures var v := w.(cells := w.cells[id := NewCell(pop.locals(id))]); Sound(pop, v) && Grows(w.cells, v.cells)
  {
    var v := w.(cells := w.cells[id := NewCell(pop.locals(id))]);
    assert AllProper(pop, v.cells) by {
      InvInit(pop.progs(id), pop.locals(id));
      forall k | k in v.cells ensures Proper(pop, k, v.cells[k]) {
        if k != id { assert Proper(pop, k, w.cells[k]); }
      }
    }
    assert BrokerUp(pop, v.cells) && AsksKept(pop, v) by { SoundElsewhere(pop, w, v); }
    forall k | k in v.cells && k != pop.broker && pop.subscribes(k) && HasStarted(v.cells[k])
      ensures Asked(v.cells[pop.broker].chan.accepted, k)
    {
      assert HasStarted(w.cells[k]);
    }
  }

  // ---------------------------------------------------------------- `ctx.subscribe().await?` in `started`

  // Creating the send future.
  lemma AskSound<T, A, C, R>(pop: Population<T, A, C, R>, w: World<T, A, C, R>, id: ContextId, f: RefId)
    requires Sound(pop, w) && id in w.cells && id != pop.broker && id !in w.asks && f != 0
    requires Can(pop.progs(pop.broker), w.cells[pop.broker], BeginSend(f, SubscribeFut<T>(id).work))
    ensures var v := Moved(pop, w, pop.broker, BeginSend(f, SubscribeFut<T>(id).work)).(asks := w.asks[id := f]);
            Sound(pop, v) && Grows(w.cells, v.cells)
  {
    var e: Event<Letter<T>> := BeginSend(f, SubscribeFut<T>(id).work);
    var u := Moved(pop, w, pop.broker, e);
    assert Sound(pop, u) && Grows(w.cells, u.cells) by { SoundStep(pop, w, pop.broker, e); }
    NewAsk(pop, w, u, id, f);
  }

  lemma NewAsk<T, A, C, R>(
      pop: Population<T, A, C, R>, w: World<T, A, C, R>, u: World<T, A, C, R>, id: ContextId, f: RefId)
    requires pop.broker in w.cells && pop.broker in u.cells && AsksKept(pop, w) && AsksKept(pop, u) && u.asks == w.asks
    requires id in u.cells && id != pop.broker && id !in w.asks && f != 0 && f !in w.cells[pop.broker].chan.refs
    requires f in u.cells[pop.broker].chan.refs && u.cells[pop.broker].chan.refs[f] == SubscribeFut(id)
    ensures AsksKept(pop, u.(asks := w.asks[id := f]))
  {
    var v := u.(asks := w.asks[id := f]);
    forall k | k in w.asks ensures w.asks[k] != f { assert AskKept(pop, w, k); }
    forall k | k in v.asks ensures AskKept(pop, v, k) {
      if k != id { assert AskKept(pop, u, k); }
    }
  }

  // Polling it.
  lemma PollAskSound<T, A, C, R>(pop: Population<T, A, C, R>, w: World<T, A, C, R>, id: ContextId)
    requires Sound(pop, w) && id in w.asks && Can(pop.progs(pop.broker), w.cells[pop.broker], PollSend(w.asks[id]))
    ensures var v := Moved(pop, w, pop.broker, PollSend(w.asks[id])); Sound(pop, v) && Grows(w.cells, v.cells)
    ensures Permitted({}, pop.broker, w.cells[pop.broker], PollSend(w.asks[id]))
  {
    var e: Event<Letter<T>> := PollSend(w.asks[id]);
    var v := Moved(pop, w, pop.broker, e);
    assert AskKept(pop, w, id);
    assert w.cells[pop.broker].chan.refs[w.asks[id]] == SubscribeFut(id);
    assert AllProper(pop, v.cells) by { ProperStep(pop, w, pop.broker, e); }
    assert Grows(w.cells, v.cells) by { GrowsStep(pop, w, pop.broker, e); }
    assert StartedAsked(pop, v.cells) by { StartedAskedStep(pop, w, pop.broker, e); }
    assert BrokerUp(pop, v.cells) by { BrokerUpStep(pop, w, e); }
    PolledAsk(pop, w, id);
  }

  lemma PolledAsk<T, A, C, R>(pop: Population<T, A, C, R>, w: World<T, A, C, R>, id: ContextId)
    requires BrokerUp(pop, w.cells) && AllProper(pop, w.cells) && AsksKept(pop, w) && id in w.asks
    requires Can(pop.progs(pop.broker), w.cells[pop.broker], PollSend(w.asks[id]))
    ensures AsksKept(pop, Moved(pop, w, pop.broker, PollSend(w.asks[id])))
  {
    var f, c := w.asks[id], w.cells[pop.broker];
    var v := Moved(pop, w, pop.broker, PollSend(f));
    assert AskKept(pop, w, id) && c.chan.refs[f] == SubscribeFut(id);
    assert c.chan.open by { assert Proper(pop, pop.broker, c); }
    AcceptedStep(pop.progs(pop.broker), c, PollSend(f));
    RefStays(pop.progs(pop.broker), c, PollSend(f));
    assert AsksFor(v.cells[pop.broker].chan.accepted, |c.chan.accepted|, id);
    forall k | k in v.asks ensures AskKept(pop, v, k) {
      assert AskKept(pop, w, k);
      if k != id && c.chan.refs[w.asks[k]] == Flush {
        AskedMore(c.chan.accepted, v.cells[pop.broker].chan.accepted, k);
      }
    }
  }

  // Done with it, one way or the other: `started` has returned, or was dropped with its loop.
  lemma EndAskSound<T, A, C, R>(pop: Population<T, A, C, R>, w: World<T, A, C, R>, id: ContextId)
    requires Sound(pop, w) && id in w.asks
    ensures Can(pop.progs(pop.broker), w.cells[pop.broker], Discard(w.asks[id]))
    ensures var v := Moved(pop, w, pop.broker, Discard(w.asks[id])).(asks := w.asks - {id});
            Sound(pop, v) && Grows(w.cells, v.cells)
  {
    var u := w.(asks := w.asks - {id});
    assert AskKept(pop, w, id);
    forall k | k in u.asks ensures AskKept(pop, u, k) && u.asks[k] != w.asks[id] {
      assert AskKept(pop, w, k) && w.asks[k] == u.asks[k];
    }
    assert Sound(pop, u);
    SoundStep(pop, u, pop.broker, Discard(w.asks[id]));
  }

  // ---------------------------------------------------------------- the actors and their history

  lemma GrowsTrans<T, A, C, R>(x: Cells<T, A, C, R>, y: Cells<T, A, C, R>, z: Cells<T, A, C, R>)
    requires Grows(x, y) && Grows(y, z)
    ensures Grows(x, z)
  {
    forall id | id in x
      ensures id in z && x[id].chan.accepted <= z[id].chan.accepted && (Alive(z[id]) ==> Alive(x[id]))
    {
      assert id in y && id in z;
    }
  }

  lemma HistorySnoc<T, A, C, R>(pop: Population<T, A, C, R>, ms: seq<World<T, A, C, R>>, v: World<T, A, C, R>)
    requires History(pop, ms) && ms != [] && Sound(pop, v) && Grows(ms[|ms| - 1].cells, v.cells)
    ensures History(pop, ms + [v])
  {
    var ns := ms + [v];
    forall i | 0 <= i < |ns| ensures Sound(pop, ns[i]) {
      if i < |ms| { assert Sound(pop, ms[i]); }
    }
    forall i, j | 0 <= i <= j < |ns| ensures Grows(ns[i].cells, ns[j].cells) {
      if j < |ms| {
        assert Grows(ms[i].cells, ms[j].cells);
      } else if i < |ms| {
        assert Grows(ms[i].cells, ms[|ms| - 1].cells);
        GrowsTrans(ms[i].cells, ms[|ms| - 1].cells, v.cells);
      }
    }
  }

  lemma SoundCounted<T, A, C, R>(pop: Population<T, A, C, R>, w: World<T, A, C, R>)
    requires Sound(pop, w)
    ensures AllCounted(w.cells)
  {
    forall id | id in w.cells ensures Counted(w.cells[id].chan) { assert Proper(pop, id, w.cells[id]); }
  }

  // The same, for a history that goes on.
  ghost predicate GoesOn<T, A, C, R>(pop: Population<T, A, C, R>, ms: seq<World<T, A, C, R>>, v: World<T, A, C, R>) {
    History(pop, ms + [v]) && pop.broker in v.cells && AllCounted(v.cells)
  }

  lemma SoundGoesOn<T, A, C, R>(pop: Population<T, A, C, R>, ms: seq<World<T, A, C, R>>, v: World<T, A, C, R>)
    requires History(pop, ms) && ms != [] && Sound(pop, v) && Grows(ms[|ms| - 1].cells, v.cells)
    ensures GoesOn(pop, ms, v)
  {
    HistorySnoc(pop, ms, v);
    SoundCounted(pop, v);
  }

  lemma StepGoesOn<T, A, C, R>(
      pop: Population<T, A, C, R>, ms: seq<World<T, A, C, R>>, w: World<T, A, C, R>, id: ContextId, e: Event<Letter<T>>)
    requires History(pop, ms) && ms != [] && w == ms[|ms| - 1] && id in w.cells && Can(pop.progs(id), w.cells[id], e)
    requires Lawful(pop, w, id, e) || OwnTurn(pop, w.cells, id, e)
    ensures GoesOn(pop, ms, Moved(pop, w, id, e))
  {
    assert Sound(pop, ms[|ms| - 1]);
    SoundStep(pop, w, id, e);
    SoundGoesOn(pop, ms, Moved(pop, w, id, e));
  }

  // Only its own turns move the broker's loop.
  lemma LawfulStands<T, A, C, R>(pop: Population<T, A, C, R>, w: World<T, A, C, R>, id: ContextId, e: Event<Letter<T>>)
    requires pop.broker in w.cells && id in w.cells && Can(pop.progs(id), w.cells[id], e)
             && (Lawful(pop, w, id, e) || OwnTurn(pop, w.cells, id, e))
    ensures var c, d := w.cells[pop.broker], Moved(pop, w, id, e).cells[pop.broker];
            OwnTurn(pop, w.cells, id, e) || (d.phase == c.phase && d.handled == c.handled)
  {
    if id == pop.broker && !e.OfLoop() { PhaseStep(pop.progs(id), w.cells[id], e); }
  }

  lemma SpawnGoesOn<T, A, C, R>(
      pop: Population<T, A, C, R>, ms: seq<World<T, A, C, R>>, w: World<T, A, C, R>, id: ContextId)
    requires History(pop, ms) && ms != [] && w == ms[|ms| - 1] && id !in w.cells
    ensures GoesOn(pop, ms, w.(cells := w.cells[id := NewCell(pop.locals(id))]))
  {
    assert Sound(pop, ms[|ms| - 1]);
    SpawnSound(pop, w, id);
    SoundGoesOn(pop, ms, w.(cells := w.cells[id := NewCell(pop.locals(id))]));
  }

  // A step in the broker's channel that may touch the asks.
  function Committed<T, A, C, R>(
      pop: Population<T, A, C, R>, w: World<T, A, C, R>, e: Event<Letter<T>>, asks: map<ContextId, RefId>): World<T,
            A, C, R>
    requires pop.broker in w.cells && Can(pop.progs(pop.broker), w.cells[pop.broker], e)
  {
    Moved(pop, w, pop.broker, e).(asks := asks)
  }

  lemma AskGoesOn<T, A, C, R>(
      pop: Population<T, A, C, R>, ms: seq<World<T, A, C, R>>, w: World<T, A, C, R>, id: ContextId, f: RefId)
    requires History(pop, ms) && ms != [] && w == ms[|ms| - 1] && id in w.cells && id != pop.broker
             && id !in w.asks && f != 0
    requires pop.broker in w.cells && Can(pop.progs(pop.broker), w.cells[pop.broker],
          BeginSend(f, SubscribeFut<T>(id).work))
    ensures GoesOn(pop, ms, Committed(pop, w, BeginSend(f, SubscribeFut<T>(id).work), w.asks[id := f]))
  {
    assert Sound(pop, ms[|ms| - 1]);
    AskSound(pop, w, id, f);
    SoundGoesOn(pop, ms, Committed(pop, w, BeginSend(f, SubscribeFut<T>(id).work), w.asks[id := f]));
  }

  lemma PollAskGoesOn<T, A, C, R>(
      pop: Population<T, A, C, R>, ms: seq<World<T, A, C, R>>, w: World<T, A, C, R>, id: ContextId)
    requires History(pop, ms) && ms != [] && w == ms[|ms| - 1] && id in w.asks
    requires pop.broker in w.cells && Can(pop.progs(pop.broker), w.cells[pop.broker], PollSend(w.asks[id]))
    ensures GoesOn(pop, ms, Committed(pop, w, PollSend(w.asks[id]), w.asks))
    ensures Permitted({}, pop.broker, w.cells[pop.broker], PollSend(w.asks[id]))
  {
    assert Sound(pop, ms[|ms| - 1]);
    PollAskSound(pop, w, id);
    SoundGoesOn(pop, ms, Committed(pop, w, PollSend(w.asks[id]), w.asks));
  }

  lemma EndAskGoesOn<T, A, C, R>(
      pop: Population<T, A, C, R>, ms: seq<World<T, A, C, R>>, w: World<T, A, C, R>, id: ContextId)
    requires History(pop, ms) && ms != [] && w == ms[|ms| - 1] && id in w.asks && pop.broker in w.cells
    ensures Can(pop.progs(pop.broker), w.cells[pop.broker], Discard(w.asks[id]))
    ensures GoesOn(pop, ms, Committed(pop, w, Discard(w.asks[id]), w.asks - {id}))
  {
    assert Sound(pop, ms[|ms| - 1]);
    EndAskSound(pop, w, id);
    SoundGoesOn(pop, ms, Committed(pop, w, Discard(w.asks[id]), w.asks - {id}));
  }

  datatype Move<T> =
    | Spawn(id: ContextId)
    | Do(id: ContextId, event: Event<Letter<T>>)
    | Ask(id: ContextId, f: RefId)
    | PollAsk(id: ContextId)
    | EndAsk(id: ContextId)

  // What comes of a move: the step it names, if its actor can take it, it is nobody's loan and it is lawful.
  function After<T, A, C, R>(
      pop: Population<T, A, C, R>, held: set<Loan>, w: World<T, A, C, R>, move: Move<T>): World<T, A, C, R>
    requires pop.broker in w.cells
  {
    var b, prog := w.cells[pop.broker], pop.progs(pop.broker);
    match move
    case Spawn(id) => if id in w.cells then w else w.(cells := w.cells[id := NewCell(pop.locals(id))])
    case Do(id, e) =>
      if id in w.cells && Can(pop.progs(id), w.cells[id], e) && Permitted(held, id, w.cells[id], e)
         && Lawful(pop, w, id, e)
      then Moved(pop, w, id, e) else w
    case Ask(id, f) =>
      if id in w.cells && id != pop.broker && id !in w.asks && w.cells[id].phase.Starting? && f != 0
         && Can(prog, b, BeginSend(f, SubscribeFut<T>(id).work))
      then Committed(pop, w, BeginSend(f, SubscribeFut<T>(id).work), w.asks[id := f]) else w
    case PollAsk(id) =>
      if id in w.asks && (pop.broker, w.asks[id]) !in held && Can(prog, b, PollSend(w.asks[id]))
      then Committed(pop, w, PollSend(w.asks[id]), w.asks) else w
    case EndAsk(id) =>
      if id in w.asks && id in w.cells && !w.cells[id].phase.Starting? && (pop.broker, w.asks[id]) !in held
         && Can(prog, b, Discard(w.asks[id]))
      then Committed(pop, w, Discard(w.asks[id]), w.asks - {id}) else w
  }

  lemma AfterKeepsBroker<T, A, C, R>(
      pop: Population<T, A, C, R>, held: set<Loan>, w: World<T, A, C, R>, move: Move<T>)
    requires pop.broker in w.cells
    ensures pop.broker in After(pop, held, w, move).cells
  {
  }

  // A whole schedule, one move after the other.
  function PlayedOut<T, A, C, R>(
      pop: Population<T, A, C, R>, held: set<Loan>, w: World<T, A, C, R>, schedule: seq<Move<T>>):
      (v: World<T, A, C, R>)
    requires pop.broker in w.cells
    ensures pop.broker in v.cells
  {
    if schedule == [] then w else
      var u := PlayedOut(pop, held, w, schedule[..|schedule| - 1]);
      AfterKeepsBroker(pop, held, u, schedule[|schedule| - 1]);
      After(pop, held, u, schedule[|schedule| - 1])
  }

  // A client's `send(..).await` on a handle of the broker: its request stands in the mailbox behind all others.
  lemma RequestArrives<T, A, C, R>(
      pop: Population<T, A, C, R>, held: set<Loan>, w: World<T, A, C, R>, r: Request<T>, f: RefId)
    requires pop.broker in w.cells && w.cells[pop.broker].chan.open && w.cells[pop.broker].chan.tx > 0
    requires f !in w.cells[pop.broker].chan.refs && f !in w.asks.Values && (pop.broker, f) !in held
    requires r.Subscribe? ==> r.sender.id in w.cells && r.sender.id != pop.broker
    ensures var p, c := Task(Handle(ToBroker(r)), None), w.cells[pop.broker];
            var d := PlayedOut(pop, held, w, [Do(pop.broker, BeginSend(f, p.work)), Do(pop.broker, PollSend(f))])
                     .cells[pop.broker];
            && d.chan.accepted == c.chan.accepted + [p] && d.chan.queue == c.chan.queue + [p]
            && d.phase == c.phase && d.handled == c.handled
  {
    var work: Work<Letter<T>> := Handle(ToBroker(r));
    var begin, poll := Do(pop.broker, BeginSend(f, work)), Do(pop.broker, PollSend(f));
    assert [begin, poll][..1] == [begin] && [begin][..0] == [];
    var u := After(pop, held, w, begin);
    SendBegins(pop, held, w, work, f);
    assert PlayedOut(pop, held, w, [begin]) == u;
    SendPolled(pop, held, u, work, f);
    assert PlayedOut(pop, held, w, [begin, poll]) == After(pop, held, u, poll);
  }

  // So does a call, a ping or a force send, at once.
  lemma CallArrives<T, A, C, R>(
      pop: Population<T, A, C, R>, held: set<Loan>, w: World<T, A, C, R>, p: Payload<Letter<T>>)
    requires pop.broker in w.cells && w.cells[pop.broker].chan.open && w.cells[pop.broker].chan.force > 0
    requires p.Task? && !IsCopy(p) && Named(pop, w.cells, p)
    requires p.reply.Some? ==> p.reply.value !in w.cells[pop.broker].calls
    ensures var c, d := w.cells[pop.broker], After(pop, held, w, Do(pop.broker, Force(p))).cells[pop.broker];
            && d.chan.accepted == c.chan.accepted + [p] && d.chan.queue == c.chan.queue + [p]
            && d.phase == c.phase && d.handled == c.handled
  {
  }

  lemma SendBegins<T, A, C, R>(
      pop: Population<T, A, C, R>, held: set<Loan>, w: World<T, A, C, R>, work: Work<Letter<T>>, f: RefId)
    requires pop.broker in w.cells && w.cells[pop.broker].chan.tx > 0 && f !in w.cells[pop.broker].chan.refs
    requires work.Handle? && !IsCopy(Task(work, None))
    ensures var u := After(pop, held, w, Do(pop.broker, BeginSend(f, work)));
            var c, d := w.cells[pop.broker], u.cells[pop.broker];
            && d.chan.refs == c.chan.refs[f := SendFut(work, None)] && u.asks == w.asks
            && (forall id :: id in w.cells ==> id in u.cells) && d.chan.open == c.chan.open
            && d.chan.accepted == c.chan.accepted && d.chan.queue == c.chan.queue
            && d.phase == c.phase && d.handled == c.handled
  {
  }

  lemma SendPolled<T, A, C, R>(
      pop: Population<T, A, C, R>, held: set<Loan>, w: World<T, A, C, R>, work: Work<Letter<T>>, f: RefId)
    requires pop.broker in w.cells && w.cells[pop.broker].chan.open && f in w.cells[pop.broker].chan.refs
    requires w.cells[pop.broker].chan.refs[f] == SendFut(work, None) && f !in w.asks.Values && (pop.broker, f) !in held
    requires work.Handle? && !IsCopy(Task(work, None)) && Named(pop, w.cells, Task(work, None))
    ensures var c, d := w.cells[pop.broker], After(pop, held, w, Do(pop.broker, PollSend(f))).cells[pop.broker];
            && d.chan.accepted == c.chan.accepted + [Task(work, None)]
            && d.chan.queue == c.chan.queue + [Task(work, None)] && d.phase == c.phase && d.handled == c.handled
  {
  }

  // Where the broker's own loop stands: only the loop itself changes that.
  datatype Turn<T> = Turn(phase: Phase<Letter<T>>, handled: seq<Entry<Letter<T>>>)

  class Net<T, A, C, R> {
    const pop: Population<T, A, C, R>
    var cells: Cells<T, A, C, R>
    var asks: map<ContextId, RefId>
    ghost var past: seq<World<T, A, C, R>>

    // The registry has spawned the broker, nothing else is there yet.
    constructor (pop: Population<T, A, C, R>)
      ensures this.pop == pop && cells == map[pop.broker := NewCell(pop.locals(pop.broker))] && asks == map[]
      ensures Valid() && past == [At()]
    {
      this.pop := pop;
      cells := map[pop.broker := NewCell(pop.locals(pop.broker))];
      asks := map[];
      past := [World(map[pop.broker := NewCell(pop.locals(pop.broker))], map[])];
      new;
      InvInit(pop.progs(pop.broker), pop.locals(pop.broker));
      assert forall id :: id in cells ==> Proper(pop, id, cells[id]);
      SoundCounted(pop, At());
    }

    ghost function At(): World<T, A, C, R>
      reads this
    {
      World(cells, asks)
    }

    ghost predicate Valid()
      reads this
    {
      past != [] && past[|past| - 1] == At() && History(pop, past) && pop.broker in cells && AllCounted(cells)
    }

    lemma NowSound()
      requires Valid()
      ensures Sound(pop, At())
    {
      assert Sound(pop, past[|past| - 1]);
    }

    ghost function Standing(): Turn<T>
      requires pop.broker in cells
      reads this
    {
      Turn(cells[pop.broker].phase, cells[pop.broker].handled)
    }

    // Time went on from `was`, and the broker's loop did not.
    ghost predicate Since(was: seq<World<T, A, C, R>>, turn: Turn<T>)
      reads this
    {
      Valid() && was <= past && Standing() == turn
    }

    predicate Allows(id: ContextId, e: Event<Letter<T>>)
      reads this
    {
      id in cells && Can(pop.progs(id), cells[id], e)
    }

    method Perform(id: ContextId, e: Event<Letter<T>>)
      requires Valid() && Allows(id, e) && (Lawful(pop, At(), id, e) || OwnTurn(pop, cells, id, e))
      modifies this
      ensures Valid() && At() == Moved(pop, old(At()), id, e) && past == old(past) + [At()]
      ensures OwnTurn(pop, old(cells), id, e) || Standing() == old(Standing())
    {
      StepGoesOn(pop, past, At(), id, e);
      LawfulStands(pop, At(), id, e);
      cells := cells[id := Next(pop.progs(id), cells[id], e)];
      past := past + [At()];
    }

    // What happens between two steps of the broker: whatever of the schedule is possible when its
    // turn comes and leaves the broker's own refs alone.
    method Interfere(held: set<Loan>, schedule: seq<Move<T>>)
      requires Valid()
      modifies this
      ensures Since(old(past), old(Standing())) && Rely(held, old(cells), cells)
      ensures At() == PlayedOut(pop, held, old(At()), schedule)
    {
      RelyRefl(held, cells);
      for i := 0 to |schedule|
        invariant Since(old(past), old(Standing())) && Rely(held, old(cells), cells)
        invariant At() == PlayedOut(pop, held, old(At()), schedule[..i])
      {
        ghost var before := cells;
        assert schedule[..i + 1][..i] == schedule[..i];
        MoveOnce(held, schedule[i]);
        RelyTrans(held, old(cells), before, cells);
      }
      assert schedule[..|schedule|] == schedule;
    }

    method MoveOnce(held: set<Loan>, move: Move<T>)
      requires Valid()
      modifies this
      ensures Since(old(past), old(Standing())) && Rely(held, old(cells), cells)
      ensures At() == After(pop, held, old(At()), move)
    {
      RelyRefl(held, cells);
      match move {
        case Spawn(id) =>
          if id !in cells { SpawnOne(held, id); }
        case Do(id, e) =>
          if Allows(id, e) && Permitted(held, id, cells[id], e) && Lawful(pop, World(cells, asks), id, e) {
            RelyStep(pop, held, cells, id, e);
            NotOwn(pop, At(), id, e);
            Perform(id, e);
          }
        case Ask(id, f) =>
          if id in cells && id != pop.broker && id !in asks && cells[id].phase.Starting? && f != 0
             && Allows(pop.broker, BeginSend(f, SubscribeFut<T>(id).work))
          {
            BeginAsk(held, id, f);
          }
        case PollAsk(id) =>
          if id in asks && (pop.broker, asks[id]) !in held && Allows(pop.broker, PollSend(asks[id])) {
            PollOneAsk(held, id);
          }
        case EndAsk(id) =>
          if id in asks && id in cells && !cells[id].phase.Starting? && (pop.broker, asks[id]) !in held {
            DropAsk(held, id);
          }
      }
    }

    method SpawnOne(held: set<Loan>, id: ContextId)
      requires Valid() && id !in cells
      modifies this
      ensures At() == old(At()).(cells := old(cells)[id := NewCell(pop.locals(id))])
      ensures Since(old(past), old(Standing())) && Rely(held, old(cells), cells)
    {
      SpawnGoesOn(pop, past, At(), id);
      cells := cells[id := NewCell(pop.locals(id))];
      past := past + [At()];
    }

    method Commit(held: set<Loan>, e: Event<Letter<T>>, asks': map<ContextId, RefId>)
      requires Valid() && Allows(pop.broker, e) && !e.OfLoop() && Permitted(held, pop.broker, cells[pop.broker], e)
      requires GoesOn(pop, past, Committed(pop, At(), e, asks'))
      modifies this
      ensures At() == Committed(pop, old(At()), e, asks')
      ensures Since(old(past), old(Standing())) && Rely(held, old(cells), cells)
    {
      RelyStep(pop, held, cells, pop.broker, e);
      PhaseStep(pop.progs(pop.broker), cells[pop.broker], e);
      cells, asks := cells[pop.broker := Next(pop.progs(pop.broker), cells[pop.broker], e)], asks';
      past := past + [At()];
    }

    method BeginAsk(held: set<Loan>, id: ContextId, f: RefId)
      requires Valid() && id in cells && id != pop.broker && id !in asks && f != 0
      requires Allows(pop.broker, BeginSend(f, SubscribeFut<T>(id).work))
      modifies this
      ensures Since(old(past), old(Standing())) && Rely(held, old(cells), cells)
      ensures At() == Committed(pop, old(At()), BeginSend(f, SubscribeFut<T>(id).work), old(asks)[id := f])
    {
      AskGoesOn(pop, past, At(), id, f);
      Commit(held, BeginSend(f, SubscribeFut<T>(id).work), asks[id := f]);
    }

    method PollOneAsk(held: set<Loan>, id: ContextId)
      requires Valid() && id in asks && (pop.broker, asks[id]) !in held && Allows(pop.broker, PollSend(asks[id]))
      modifies this
      ensures Since(old(past), old(Standing())) && Rely(held, old(cells), cells)
      ensures At() == Committed(pop, old(At()), PollSend(old(asks)[id]), old(asks))
    {
      PollAskGoesOn(pop, past, At(), id);
      Commit(held, PollSend(asks[id]), asks);
    }

    method DropAsk(held: set<Loan>, id: ContextId)
      requires Valid() && id in asks && (pop.broker, asks[id]) !in held
      modifies this
      ensures Since(old(past), old(Standing())) && Rely(held, old(cells), cells)
      ensures Can(pop.progs(pop.broker), old(cells)[pop.broker], Discard(old(asks)[id]))
              && At() == Committed(pop, old(At()), Discard(old(asks)[id]), old(asks) - {id})
    {
      EndAskGoesOn(pop, past, At(), id);
      Commit(held, Discard(asks[id]), asks - {id});
    }
  }

  // What others lawfully do is not the broker's own turn.
  lemma NotOwn<T, A, C, R>(pop: Population<T, A, C, R>, w: World<T, A, C, R>, id: ContextId, e: Event<Letter<T>>)
    requires id in w.cells && Lawful(pop, w, id, e)
    ensures !OwnTurn(pop, w.cells, id, e)
  {
  }
}
