/** The broker's handlers (src/broker.rs), run while other threads interfere at every step. */
module Broker {
  import opened Messages
  import opened Sequential
  import opened Handles
  import opened Actors
  import opened ActorInvariant
  import opened Network

  type Subscribers = map<ContextId, WeakSender>

  // Like Rely, but each actor in `got` was offered one copy: it has it unless its mailbox closed.
  ghost predicate Progress<T, A, C, R>(
      held: set<Loan>, got: set<ContextId>, pos: nat, topic: T, x: Cells<T, A, C, R>, z: Cells<T, A, C, R>)
  {
    && AllCounted(z)
    && (forall id {:trigger id in z} {:trigger Offered(held, got, id, pos, topic, x[id], z[id])} ::
          id in x ==> id in z && Offered(held, got, id, pos, topic, x[id], z[id]))
    && (forall id {:trigger Copies(z[id])} :: id in z && id !in x ==> Copies(z[id]) == [])
  }

  ghost predicate Offered<T, A, C, R>(
      held: set<Loan>, got: set<ContextId>, id: ContextId, pos: nat, topic: T, c: Cell<Letter<T>, A, C, R>,
      d: Cell<Letter<T>, A, C, R>)
  {
    && (Alive(d) ==> Alive(c))
    && (d.chan.open ==> c.chan.open)
    && (forall h :: (id, h) in held && h in c.chan.refs ==> h in d.chan.refs && d.chan.refs[h] == c.chan.refs[h])
    && ((Copies(d) == Copies(c) && (id in got ==> !d.chan.open))
        || (id in got && c.chan.open && Copies(d) == Copies(c) + [(pos, topic)]))
  }

  lemma ProgressThenRely<T, A, C, R>(
      held: set<Loan>, got: set<ContextId>, pos: nat, topic: T, x: Cells<T, A, C, R>, y: Cells<T, A, C, R>,
      z: Cells<T, A, C, R>)
    requires Progress(held, got, pos, topic, x, y) && Rely(held, y, z) && got <= x.Keys
    ensures Progress(held, got, pos, topic, x, z)
  {
    forall id | id in x ensures id in z && Offered(held, got, id, pos, topic, x[id], z[id]) {
      assert Drifts(held, id, y[id], z[id]);
    }
    forall id | id in z && id !in x ensures Copies(z[id]) == [] {
      if id in y { assert Drifts(held, id, y[id], z[id]); }
    }
  }

  lemma OfferedTwice<T, A, C, R>(
      held: set<Loan>, g: set<ContextId>, h: set<ContextId>, id: ContextId, pos: nat, topic: T,
      c: Cell<Letter<T>, A, C, R>, d: Cell<Letter<T>, A, C, R>, e: Cell<Letter<T>, A, C, R>)
    requires Offered(held, g, id, pos, topic, c, d) && Offered(held, h, id, pos, topic, d, e) && !(id in g && id in h)
    ensures Offered(held, g + h, id, pos, topic, c, e)
  {
  }

  lemma ProgressMore<T, A, C, R>(
      held: set<Loan>, got: set<ContextId>, id: ContextId, pos: nat, topic: T,
      x: Cells<T, A, C, R>, y: Cells<T, A, C, R>, z: Cells<T, A, C, R>)
    requires Progress(held, got, pos, topic, x, y) && Progress(held, {id}, pos, topic, y, z)
    requires id in x && id !in got
    ensures Progress(held, got + {id}, pos, topic, x, z)
  {
    forall k | k in x ensures k in z && Offered(held, got + {id}, k, pos, topic, x[k], z[k]) {
      OfferedTwice(held, got, {id}, k, pos, topic, x[k], y[k], z[k]);
    }
    forall k | k in z && k !in x ensures Copies(z[k]) == [] {
      if k in y { assert Offered(held, {id}, k, pos, topic, y[k], z[k]); }
    }
  }

  method FreshRef(keys: set<RefId>) returns (n: RefId)
    ensures n !in keys
  {
    n := 0;
    var rest := keys;
    while n in rest
      invariant forall k :: k in keys ==> k < n || k in rest
      decreases |rest|
    {
      assert |rest - {n}| < |rest|;
      rest, n := rest - {n}, n + 1;
    }
  }

  // `WeakSender::upgrade`.
  method Upgrade<T, A, C, R>(net: Net<T, A, C, R>, id: ContextId, ghost held: set<Loan>) returns (s: Option<RefId>)
    requires net.Valid() && id in net.cells && id != net.pop.broker
    modifies net
    ensures net.Since(old(net.past), old(net.Standing())) && Rely(held, old(net.cells), net.cells)
    ensures s.Some? == Alive(old(net.cells)[id]) == Alive(net.cells[id])
    ensures s.Some? ==> Lent(net.cells[id], s.value) && s.value !in old(net.cells)[id].chan.refs
  {
    var n := FreshRef(net.cells[id].chan.refs.Keys);
    RelyRefl(held, net.cells);
    if UpgradeBoth(net.cells[id].chan, n, Sender).None? {
      return None;
    }
    RelyStep(net.pop, held, net.cells, id, Event.Upgrade(n, Sender));
    net.Perform(id, Event.Upgrade(n, Sender));
    return Some(n);
  }

  // A held sender keeps its actor alive.
  lemma LoanKeepsAlive<T, A, C, R>(c: Cell<Letter<T>, A, C, R>, s: RefId)
    requires Counted(c.chan) && s in c.chan.refs && c.chan.refs[s] == Sender
    ensures Alive(c)
  {
    Held(c.chan, s);
  }

  // The collected strong senders, by the id of their actor.
  type Senders = map<ContextId, RefId>

  function Loans(live: Senders): set<Loan> { set id | id in live :: (id, live[id]) }

  ghost predicate OnLoan<T, A, C, R>(live: Senders, cells: Cells<T, A, C, R>) {
    forall id :: id in live ==> id in cells && Lent(cells[id], live[id])
  }

  ghost predicate Lent<T, A, C, R>(c: Cell<Letter<T>, A, C, R>, s: RefId) {
    s in c.chan.refs && c.chan.refs[s] == Sender
  }

  lemma LoansStay<T, A, C, R>(live: Senders, held: set<Loan>, x: Cells<T, A, C, R>, z: Cells<T, A, C, R>)
    requires OnLoan(live, x) && Rely(held, x, z) && Loans(live) <= held
    ensures OnLoan(live, z)
  {
    forall id | id in live ensures id in z && Lent(z[id], live[id]) {
      assert (id, live[id]) in Loans(live);
      assert Drifts(held, id, x[id], z[id]);
    }
  }

  // Holding more than one has to is no harm.
  lemma RelyLess<T, A, C, R>(held: set<Loan>, less: set<Loan>, x: Cells<T, A, C, R>, z: Cells<T, A, C, R>)
    requires Rely(held, x, z) && less <= held
    ensures Rely(less, x, z)
  {
    forall id | id in x ensures id in z && Drifts(less, id, x[id], z[id]) {
      assert Drifts(held, id, x[id], z[id]);
    }
  }

  lemma LoanMore<T, A, C, R>(live: Senders, id: ContextId, s: Option<RefId>, z: Cells<T, A, C, R>)
    requires OnLoan(live, z) && id in z && (s.Some? ==> Lent(z[id], s.value))
    ensures OnLoan(if s.Some? then live[id := s.value] else live, z)
  {
  }

  // Where collecting stands: the ids in `done` have been tried since the actors were as in x.
  ghost predicate Collected<T, A, C, R>(
      done: set<ContextId>, live: Senders, x: Cells<T, A, C, R>, z: Cells<T, A, C, R>) {
    && Rely({}, x, z) && OnLoan(live, z)
    && (forall id :: id in live ==> id in done)
    && (forall id :: id in done ==> id in x && if id in live then Alive(x[id]) else !Alive(z[id]))
  }

  lemma CollectedDrifts<T, A, C, R>(
      done: set<ContextId>, live: Senders, x: Cells<T, A, C, R>, y: Cells<T, A, C, R>, z: Cells<T, A, C, R>)
    requires Collected(done, live, x, y) && Rely(Loans(live), y, z)
    ensures Collected(done, live, x, z)
  {
    LoansStay(live, Loans(live), y, z);
    RelyLess(Loans(live), {}, y, z);
    RelyTrans({}, x, y, z);
    forall id | id in done ensures if id in live then Alive(x[id]) else !Alive(z[id]) {
      assert Drifts({}, id, y[id], z[id]);
    }
  }

  lemma CollectedMore<T, A, C, R>(
      done: set<ContextId>, live: Senders, id: ContextId, s: Option<RefId>, x: Cells<T, A, C, R>, z: Cells<T, A, C, R>)
    requires Collected(done, live, x, z) && id in x && id !in done && s.Some? == Alive(z[id])
    requires s.Some? ==> Lent(z[id], s.value)
    ensures Collected(done + {id}, WithSender(live, id, s), x, z)
  {
    var more := WithSender(live, id, s);
    LoanMore(live, id, s, z);
    assert Drifts({}, id, x[id], z[id]);
    forall k | k in done + {id} ensures if k in more then Alive(x[k]) else !Alive(z[k]) {
      assert k in done || k == id;
    }
  }

  // Working through a set, one element at a time.
  lemma MoveOver(all: set<ContextId>, todo: set<ContextId>, id: ContextId)
    requires todo <= all && id in todo
    ensures all - (todo - {id}) == (all - todo) + {id} && |todo - {id}| < |todo|
  {
  }

  lemma AllAndNothing(all: set<ContextId>)
    ensures all - all == {} && all - {} == all
  {
  }

  // At some moment since `from`, id was tried: it is in `live` exactly if it could then be upgraded.
  ghost predicate TriedAt<T, A, C, R>(
      ms: seq<World<T, A, C, R>>, m: int, from: int, id: ContextId, live: set<ContextId>) {
    from <= m < |ms| && 0 <= m && id in ms[m].cells && (Alive(ms[m].cells[id]) <==> id in live)
  }

  ghost predicate Tried<T, A, C, R>(ms: seq<World<T, A, C, R>>, from: int, ids: set<ContextId>, live: set<ContextId>) {
    forall id :: id in ids ==> exists m :: TriedAt(ms, m, from, id, live)
  }

  lemma TriedStays<T, A, C, R>(
      ms: seq<World<T, A, C, R>>, ns: seq<World<T, A, C, R>>, from: int, ids: set<ContextId>, live: set<ContextId>,
      more: set<ContextId>)
    requires Tried(ms, from, ids, live) && ms <= ns && forall id :: id in ids ==> (id in live <==> id in more)
    ensures Tried(ns, from, ids, more)
  {
    forall id | id in ids ensures exists m :: TriedAt(ns, m, from, id, more) {
      var m :| TriedAt(ms, m, from, id, live);
      assert TriedAt(ns, m, from, id, more);
    }
  }

  lemma TriedMore<T, A, C, R>(
      ms: seq<World<T, A, C, R>>, ns: seq<World<T, A, C, R>>, from: int, ids: set<ContextId>, live: set<ContextId>,
      id: ContextId, up: bool)
    requires Tried(ms, from, ids, live) && ms <= ns && ms != [] && from <= |ms| - 1 && live <= ids && id !in ids
    requires id in ms[|ms| - 1].cells && (up <==> Alive(ms[|ms| - 1].cells[id]))
    ensures Tried(ns, from, ids + {id}, if up then live + {id} else live)
  {
    var more := if up then live + {id} else live;
    TriedStays(ms, ns, from, ids, live, more);
    assert TriedAt(ns, |ms| - 1, from, id, more);
  }

  // Between two upgrades others may act.
  method PauseCollecting<T, A, C, R>(net: Net<T, A, C, R>, live: Senders, id: ContextId, others: seq<Move<T>>,
                                     ghost x: Cells<T, A, C, R>, ghost done: set<ContextId>, ghost from: int)
    requires net.Valid() && id in x && Collected(done, live, x, net.cells) && Tried(net.past, from, done, live.Keys)
    modifies net
    ensures net.Since(old(net.past), old(net.Standing()))
    ensures Collected(done, live, x, net.cells) && Tried(net.past, from, done, live.Keys) && id in net.cells
  {
    ghost var y, ms := net.cells, net.past;
    net.Interfere(Loans(live), others);
    CollectPaused(done, live, id, x, y, net.cells, ms, net.past, from);
  }

  method CollectOne<T, A, C, R>(net: Net<T, A, C, R>, live: Senders, id: ContextId,
                                ghost x: Cells<T, A, C, R>, ghost done: set<ContextId>, ghost from: int)
    returns (more: Senders)
    requires net.Valid() && id in x && id in net.cells && id !in done && id != net.pop.broker && from <= |net.past| - 1
    requires Collected(done, live, x, net.cells) && Tried(net.past, from, done, live.Keys)
    modifies net
    ensures net.Since(old(net.past), old(net.Standing()))
    ensures Collected(done + {id}, more, x, net.cells) && Tried(net.past, from, done + {id}, more.Keys)
  {
    ghost var y, ms := net.cells, net.past;
    var s := Upgrade(net, id, Loans(live));
    CollectedStep(done, live, id, s, x, y, net.cells, ms, net.past, from);
    more := WithSender(live, id, s);
  }

  // Where the `filter_map` stands: what is left of `all` is todo.
  ghost predicate Collecting<T, A, C, R>(
      net: Net<T, A, C, R>, all: set<ContextId>, todo: set<ContextId>, live: Senders, x: Cells<T, A, C, R>, from: int)
    reads net
  {
    todo <= all && Collected(all - todo, live, x, net.cells) && Tried(net.past, from, all - todo, live.Keys)
  }

  // One turn of it.
  method CollectTurn<T, A, C, R>(net: Net<T, A, C, R>, live: Senders, id: ContextId, others: seq<Move<T>>,
                                 ghost x: Cells<T, A, C, R>, ghost all: set<ContextId>, ghost todo: set<ContextId>,
                                 ghost from: int)
    returns (more: Senders)
    requires net.Valid() && id in x && id in todo && id != net.pop.broker && from <= |net.past| - 1
    requires Collecting(net, all, todo, live, x, from)
    modifies net
    ensures net.Since(old(net.past), old(net.Standing()))
    ensures Collecting(net, all, todo - {id}, more, x, from)
  {
    MoveOver(all, todo, id);
    PauseCollecting(net, live, id, others, x, all - todo, from);
    more := CollectOne(net, live, id, x, all - todo, from);
  }

  lemma CollectPaused<T, A, C, R>(
      done: set<ContextId>, live: Senders, id: ContextId, x: Cells<T, A, C, R>, y: Cells<T, A, C, R>,
      z: Cells<T, A, C, R>,
      ms: seq<World<T, A, C, R>>, ns: seq<World<T, A, C, R>>, from: int)
    requires Collected(done, live, x, y) && Rely(Loans(live), y, z) && id in x
    requires Tried(ms, from, done, live.Keys) && ms <= ns
    ensures Collected(done, live, x, z) && Tried(ns, from, done, live.Keys) && id in z
  {
    CollectedDrifts(done, live, x, y, z);
    TriedStays(ms, ns, from, done, live.Keys, live.Keys);
  }

  function WithSender(live: Senders, id: ContextId, s: Option<RefId>): (more: Senders)
    ensures more.Keys == if s.Some? then live.Keys + {id} else live.Keys
  {
    if s.Some? then live[id := s.value] else live
  }

  lemma CollectedStep<T, A, C, R>(
      done: set<ContextId>, live: Senders, id: ContextId, s: Option<RefId>, x: Cells<T, A, C, R>, y: Cells<T, A, C, R>,
      z: Cells<T, A, C, R>, ms: seq<World<T, A, C, R>>, ns: seq<World<T, A, C, R>>, from: int)
    requires Collected(done, live, x, y) && Rely(Loans(live), y, z) && id in x && id !in done && id in y && id in z
    requires s.Some? == Alive(y[id]) == Alive(z[id]) && (s.Some? ==> Lent(z[id], s.value))
    requires Tried(ms, from, done, live.Keys) && ms <= ns && ms != [] && from <= |ms| - 1 && ms[|ms| - 1].cells == y
    ensures Collected(done + {id}, WithSender(live, id, s), x, z)
            && Tried(ns, from, done + {id}, WithSender(live, id, s).Keys)
  {
    CollectedDrifts(done, live, x, y, z);
    CollectedMore(done, live, id, s, x, z);
    assert live.Keys <= done;
    TriedMore(ms, ns, from, done, live.Keys, id, s.Some?);
  }

  // `.values().filter_map(WeakSender::upgrade).collect()`
  method Collect<T, A, C, R>(
      net: Net<T, A, C, R>, subscribers: Subscribers, others: nat -> seq<Move<T>>) returns (live: Senders)
    requires net.Valid() && subscribers.Keys <= net.cells.Keys && net.pop.broker !in subscribers
    modifies net
    ensures net.Since(old(net.past), old(net.Standing()))
    ensures Collected(subscribers.Keys, live, old(net.cells), net.cells)
    ensures Tried(net.past, |old(net.past)| - 1, subscribers.Keys, live.Keys)
  {
    live := map[];
    ghost var x, from := net.cells, |net.past| - 1;
    var todo := subscribers.Keys;
    AllAndNothing(subscribers.Keys);
    RelyRefl({}, x);
    while todo != {}
      invariant net.Since(old(net.past), old(net.Standing())) && Collecting(net, subscribers.Keys, todo, live, x, from)
      decreases |todo|
    {
      var id :| id in todo;
      MoveOver(subscribers.Keys, todo, id);
      live := CollectTurn(net, live, id, others(|todo|), x, subscribers.Keys, todo, from);
      todo := todo - {id};
    }
  }

  lemma ProgressRefl<T, A, C, R>(held: set<Loan>, pos: nat, topic: T, x: Cells<T, A, C, R>)
    requires AllCounted(x)
    ensures Progress(held, {}, pos, topic, x, x)
  {
  }

  // The broker's own steps while it sends a copy: creating the future, then polling it.
  lemma BeginOffer<T, A, C, R>(
      pop: Population<T, A, C, R>, held: set<Loan>, id: ContextId, f: RefId, pos: nat, topic: T, x: Cells<T, A, C, R>)
    requires AllCounted(x) && id in x && Can(pop.progs(id), x[id], BeginSend(f, Handle(Copy(pos, topic))))
    ensures Rely(held, x, x[id := Next(pop.progs(id), x[id], BeginSend(f, Handle(Copy(pos, topic))))])
  {
    var e: Event<Letter<T>> := BeginSend(f, Handle(Copy(pos, topic)));
    CountedStep(pop.progs(id), x[id], e);
    AliveStep(pop.progs(id), x[id], e);
  }

  lemma OneOffer<T, A, C, R>(
      prog: Program<Letter<T>, A, C, R>, held: set<Loan>, id: ContextId, f: RefId, pos: nat, topic: T,
      c: Cell<Letter<T>, A, C, R>)
    requires Counted(c.chan) && (id, f) !in held
    requires f in c.chan.refs && c.chan.refs[f] == SendFut(Handle(Copy(pos, topic)), None)
    ensures Can(prog, c, PollSend(f)) && Counted(Next(prog, c, PollSend(f)).chan)
    ensures Offered(held, {id}, id, pos, topic, c, Next(prog, c, PollSend(f)))
  {
    CountedStep(prog, c, PollSend(f));
    AliveStep(prog, c, PollSend(f));
    CopiesSnoc(c.chan.accepted, Task(Handle(Copy(pos, topic)), None));
  }

  lemma PollOffer<T, A, C, R>(
      pop: Population<T, A, C, R>, held: set<Loan>, id: ContextId, f: RefId, pos: nat, topic: T, x: Cells<T, A, C, R>)
    requires AllCounted(x) && id in x && (id, f) !in held
    requires f in x[id].chan.refs && x[id].chan.refs[f] == SendFut(Handle(Copy(pos, topic)), None)
    ensures Can(pop.progs(id), x[id], PollSend(f))
    ensures Progress(held, {id}, pos, topic, x, x[id := Next(pop.progs(id), x[id], PollSend(f))])
  {
    var d := Next(pop.progs(id), x[id], PollSend(f));
    var z := x[id := d];
    OneOffer(pop.progs(id), held, id, f, pos, topic, x[id]);
    forall k | k in x ensures k in z && Offered(held, {id}, k, pos, topic, x[k], z[k]) {}
  }

  // The future of one copy, pending on the broker's stack.
  ghost predicate Offering<T, A, C, R>(
      live: Senders, id: ContextId, f: RefId, r: Ref<Letter<T>>, cells: Cells<T, A, C, R>) {
    && AllCounted(cells) && id in cells && (id, f) !in Loans(live)
    && f in cells[id].chan.refs && cells[id].chan.refs[f] == r
  }

  lemma OfferingStays<T, A, C, R>(
      live: Senders, id: ContextId, f: RefId, r: Ref<Letter<T>>, x: Cells<T, A, C, R>, z: Cells<T, A, C, R>)
    requires Offering(live, id, f, r, x) && Rely(Loans(live) + {(id, f)}, x, z)
    ensures Offering(live, id, f, r, z) && Rely(Loans(live), x, z)
  {
    RelyLess(Loans(live) + {(id, f)}, Loans(live), x, z);
    assert Drifts(Loans(live) + {(id, f)}, id, x[id], z[id]);
  }

  // `subscriber.send(..)` creates the future; others may act before it is polled.
  method BeginSendTo<T, A, C, R>(
      net: Net<T, A, C, R>, id: ContextId, live: Senders, pos: nat, topic: T, others: seq<Move<T>>)
    returns (f: RefId)
    requires net.Valid() && OnLoan(live, net.cells) && id in live && id != net.pop.broker
    modifies net
    ensures net.Since(old(net.past), old(net.Standing()))
    ensures Rely(Loans(live), old(net.cells), net.cells)
    ensures Offering(live, id, f, SendFut(Handle(Copy(pos, topic)), None), net.cells)
  {
    ghost var x := net.cells;
    f := FreshRef(net.cells[id].chan.refs.Keys);
    LoanKeepsAlive(net.cells[id], live[id]);
    assert (id, f) !in Loans(live);
    BeginOffer(net.pop, Loans(live), id, f, pos, topic, x);
    net.Perform(id, BeginSend(f, Handle(Copy(pos, topic))));
    ghost var y := net.cells;
    net.Interfere(Loans(live) + {(id, f)}, others);
    OfferingStays(live, id, f, SendFut(Handle(Copy(pos, topic)), None), y, net.cells);
    RelyTrans(Loans(live), x, y, net.cells);
  }

  // Polling it enqueues the copy, or fails because the receiver is gone.
  method PollSendTo<T, A, C, R>(
      net: Net<T, A, C, R>, id: ContextId, f: RefId, live: Senders, pos: nat, topic: T, others: seq<Move<T>>)
    returns (accepted: bool)
    requires net.Valid() && id != net.pop.broker
    requires Offering(live, id, f, SendFut(Handle(Copy(pos, topic)), None), net.cells)
    modifies net
    ensures net.Since(old(net.past), old(net.Standing()))
    ensures Progress(Loans(live), {id}, pos, topic, old(net.cells), net.cells)
    ensures accepted ==> Offering(live, id, f, Flush, net.cells)
  {
    ghost var x := net.cells;
    accepted := net.cells[id].chan.open;
    PollOffer(net.pop, Loans(live), id, f, pos, topic, x);
    net.Perform(id, PollSend(f));
    if accepted {
      ghost var y := net.cells;
      net.Interfere(Loans(live) + {(id, f)}, others);
      OfferingStays(live, id, f, Flush, y, net.cells);
      ProgressThenRely(Loans(live), {id}, pos, topic, x, y, net.cells);
    }
  }

  // `subscriber.send(msg.0.clone()).await`, its error ignored.
  method Send<T, A, C, R>(
      net: Net<T, A, C, R>, id: ContextId, live: Senders, pos: nat, topic: T,
      others: (nat, nat) -> seq<Move<T>>, n: nat)
    requires net.Valid() && OnLoan(live, net.cells) && id in live && id != net.pop.broker
    modifies net
    ensures net.Since(old(net.past), old(net.Standing()))
    ensures Progress(Loans(live), {id}, pos, topic, old(net.cells), net.cells)
  {
    ghost var x := net.cells;
    var f := BeginSendTo(net, id, live, pos, topic, others(n, 0));
    ghost var y := net.cells;
    var accepted := PollSendTo(net, id, f, live, pos, topic, others(n, 1));
    RelyThenProgress(Loans(live), {id}, pos, topic, x, y, net.cells);
    if accepted {
      y := net.cells;
      RelyStep(net.pop, Loans(live), y, id, Discard(f));
      net.Perform(id, Discard(f));
      ProgressThenRely(Loans(live), {id}, pos, topic, x, y, net.cells);
    }
  }

  lemma RelyThenProgress<T, A, C, R>(
      held: set<Loan>, got: set<ContextId>, pos: nat, topic: T, x: Cells<T, A, C, R>, y: Cells<T, A, C, R>,
      z: Cells<T, A, C, R>)
    requires Rely(held, x, y) && Progress(held, got, pos, topic, y, z) && got <= x.Keys
    ensures Progress(held, got, pos, topic, x, z)
  {
    forall k | k in x ensures k in z && Offered(held, got, k, pos, topic, x[k], z[k]) {
      assert Drifts(held, k, x[k], y[k]) && Offered(held, got, k, pos, topic, y[k], z[k]);
    }
    forall k | k in z && k !in x ensures Copies(z[k]) == [] {
      if k in y { assert Offered(held, got, k, pos, topic, y[k], z[k]); }
    }
  }

  lemma ProgressLess<T, A, C, R>(
      held: set<Loan>, got: set<ContextId>, pos: nat, topic: T, x: Cells<T, A, C, R>, z: Cells<T, A, C, R>)
    requires Progress(held, got, pos, topic, x, z)
    ensures Progress({}, got, pos, topic, x, z)
  {
    forall k | k in x ensures k in z && Offered({}, got, k, pos, topic, x[k], z[k]) {
      assert Offered(held, got, k, pos, topic, x[k], z[k]);
    }
  }

  lemma LoansOutlastProgress<T, A, C, R>(
      live: Senders, got: set<ContextId>, pos: nat, topic: T, x: Cells<T, A, C, R>, z: Cells<T, A, C, R>)
    requires OnLoan(live, x) && Progress(Loans(live), got, pos, topic, x, z)
    ensures OnLoan(live, z)
  {
    forall id | id in live ensures id in z && Lent(z[id], live[id]) {
      assert (id, live[id]) in Loans(live);
      assert Offered(Loans(live), got, id, pos, topic, x[id], z[id]);
    }
  }

  // One turn of the loop over the collected senders.
  method SendTurn<T, A, C, R>(net: Net<T, A, C, R>, id: ContextId, live: Senders, pos: nat, topic: T,
                              others: (nat, nat) -> seq<Move<T>>, n: nat, ghost x: Cells<T, A, C, R>,
                              ghost done: set<ContextId>)
    requires net.Valid() && OnLoan(live, x) && id in live && id !in done && id != net.pop.broker
    requires Progress(Loans(live), done, pos, topic, x, net.cells)
    modifies net
    ensures net.Since(old(net.past), old(net.Standing()))
    ensures Progress(Loans(live), done + {id}, pos, topic, x, net.cells)
  {
    ghost var y := net.cells;
    LoansOutlastProgress(live, done, pos, topic, x, y);
    Send(net, id, live, pos, topic, others, n);
    ProgressMore(Loans(live), done, id, pos, topic, x, y, net.cells);
  }

  // `for subscriber in &live_subscribers`
  method SendAll<T, A, C, R>(
      net: Net<T, A, C, R>, live: Senders, pos: nat, topic: T, others: (nat, nat) -> seq<Move<T>>)
    requires net.Valid() && OnLoan(live, net.cells) && net.pop.broker !in live
    modifies net
    ensures net.Since(old(net.past), old(net.Standing()))
    ensures Progress(Loans(live), live.Keys, pos, topic, old(net.cells), net.cells)
  {
    ghost var x := net.cells;
    var todo := live.Keys;
    AllAndNothing(live.Keys);
    ProgressRefl(Loans(live), pos, topic, x);
    while todo != {}
      invariant net.Since(old(net.past), old(net.Standing()))
      invariant todo <= live.Keys && Progress(Loans(live), live.Keys - todo, pos, topic, x, net.cells)
      decreases |todo|
    {
      var id :| id in todo;
      MoveOver(live.Keys, todo, id);
      SendTurn(net, id, live, pos, topic, others, |todo|, x, live.Keys - todo);
      todo := todo - {id};
    }
  }

  // What retaining has kept of the ids it has looked at.
  ghost predicate Kept(kept: Subscribers, subscribers: Subscribers, live: Senders, done: set<ContextId>) {
    forall id :: (id in kept <==> id in done && id in live) && (id in kept ==>
          id in subscribers && kept[id] == subscribers[id])
  }

  lemma KeptMore(kept: Subscribers, subscribers: Subscribers, live: Senders, done: set<ContextId>, id: ContextId)
    requires Kept(kept, subscribers, live, done) && id in subscribers
    ensures Kept(if id in live then kept[id := subscribers[id]] else kept, subscribers, live, done + {id})
  {
  }

  // One turn of the `retain`, while the collected senders are still held.
  method RetainOne<T, A, C, R>(
      net: Net<T, A, C, R>, id: ContextId, live: Senders, others: seq<Move<T>>, ghost x: Cells<T, A, C, R>)
    returns (up: bool)
    requires net.Valid() && id in x && id != net.pop.broker && (id !in live ==> !Alive(x[id]))
    requires OnLoan(live, x) && Rely(Loans(live), x, net.cells)
    modifies net
    ensures net.Since(old(net.past), old(net.Standing()))
    ensures Rely(Loans(live), x, net.cells) && up == (id in live)
  {
    ghost var y := net.cells;
    net.Interfere(Loans(live), others);
    RelyTrans(Loans(live), x, y, net.cells);
    StillUpgradeable(live, id, x, net.cells);
    y := net.cells;
    up := UpgradeAndDrop(net, id, Loans(live));
    RelyTrans(Loans(live), x, y, net.cells);
  }

  method RetainTurn<T, A, C, R>(
      net: Net<T, A, C, R>, id: ContextId, subscribers: Subscribers, live: Senders, kept: Subscribers,
                                others: seq<Move<T>>, ghost x: Cells<T, A, C, R>, ghost done: set<ContextId>)
    returns (more: Subscribers)
    requires net.Valid() && id in x && id != net.pop.broker && (id !in live ==> !Alive(x[id]))
    requires OnLoan(live, x) && Rely(Loans(live), x, net.cells) && Kept(kept, subscribers, live, done)
             && id in subscribers
    modifies net
    ensures net.Since(old(net.past), old(net.Standing()))
    ensures Rely(Loans(live), x, net.cells) && Kept(more, subscribers, live, done + {id})
  {
    var up := RetainOne(net, id, live, others, x);
    KeptMore(kept, subscribers, live, done, id);
    more := if up then kept[id := subscribers[id]] else kept;
  }

  // `.retain(|_, sender| sender.upgrade().is_some())`
  method Retain<T, A, C, R>(net: Net<T, A, C, R>, subscribers: Subscribers, live: Senders, others: nat -> seq<Move<T>>)
    returns (kept: Subscribers)
    requires net.Valid() && OnLoan(live, net.cells) && net.pop.broker !in subscribers
             && subscribers.Keys <= net.cells.Keys
    requires forall id :: id in subscribers && id !in live ==> !Alive(net.cells[id])
    modifies net
    ensures net.Since(old(net.past), old(net.Standing()))
    ensures Rely(Loans(live), old(net.cells), net.cells)
    ensures Kept(kept, subscribers, live, subscribers.Keys)
  {
    kept := map[];
    ghost var x := net.cells;
    var todo := subscribers.Keys;
    AllAndNothing(subscribers.Keys);
    RelyRefl(Loans(live), x);
    while todo != {}
      invariant net.Since(old(net.past), old(net.Standing()))
      invariant todo <= subscribers.Keys && Rely(Loans(live), x, net.cells)
      invariant Kept(kept, subscribers, live, subscribers.Keys - todo)
      decreases |todo|
    {
      var id :| id in todo;
      MoveOver(subscribers.Keys, todo, id);
      kept := RetainTurn(net, id, subscribers, live, kept, others(|todo|), x, subscribers.Keys - todo);
      todo := todo - {id};
    }
  }

  lemma StillUpgradeable<T, A, C, R>(live: Senders, id: ContextId, x: Cells<T, A, C, R>, z: Cells<T, A, C, R>)
    requires OnLoan(live, x) && Rely(Loans(live), x, z) && id in x && (id !in live ==> !Alive(x[id]))
    ensures id in z && (Alive(z[id]) <==> id in live)
    ensures forall s :: (id, s) in Loans(live) ==> s in z[id].chan.refs
  {
    LoansStay(live, Loans(live), x, z);
    assert Drifts(Loans(live), id, x[id], z[id]);
    if id in live {
      assert Lent(z[id], live[id]);
      LoanKeepsAlive(z[id], live[id]);
    }
  }

  // `sender.upgrade().is_some()`; the upgraded sender is dropped at once.
  method UpgradeAndDrop<T, A, C, R>(net: Net<T, A, C, R>, id: ContextId, held: set<Loan>) returns (up: bool)
    requires net.Valid() && id in net.cells && id != net.pop.broker
    requires forall s :: (id, s) in held ==> s in net.cells[id].chan.refs
    modifies net
    ensures net.Since(old(net.past), old(net.Standing()))
    ensures Rely(held, old(net.cells), net.cells)
    ensures up == Alive(old(net.cells)[id])
  {
    ghost var x := net.cells;
    var s := Upgrade(net, id, held);
    up := s.Some?;
    if up {
      ghost var y := net.cells;
      RelyStep(net.pop, held, y, id, Discard(s.value));
      net.Perform(id, Discard(s.value));
      RelyTrans(held, x, y, net.cells);
    }
  }

  // Others may act, then one collected sender is dropped.
  method ReleaseOne<T, A, C, R>(net: Net<T, A, C, R>, rest: Senders, id: ContextId, others: seq<Move<T>>)
    requires net.Valid() && OnLoan(rest, net.cells) && id in rest && id != net.pop.broker
    modifies net
    ensures net.Since(old(net.past), old(net.Standing()))
    ensures Rely({}, old(net.cells), net.cells) && OnLoan(rest - {id}, net.cells)
  {
    ghost var x := net.cells;
    Fewer(rest, id);
    net.Interfere(Loans(rest), others);
    LoansStay(rest, Loans(rest), x, net.cells);
    ghost var y := net.cells;
    assert Lent(y[id], rest[id]);
    RelyStep(net.pop, Loans(rest - {id}), y, id, Discard(rest[id]));
    net.Perform(id, Discard(rest[id]));
    LoansStay(rest - {id}, Loans(rest - {id}), y, net.cells);
    RelyLess(Loans(rest), {}, x, y);
    RelyLess(Loans(rest - {id}), {}, y, net.cells);
    RelyTrans({}, x, y, net.cells);
  }

  // The end of the handler drops the collected senders.
  method ReleaseAll<T, A, C, R>(net: Net<T, A, C, R>, live: Senders, others: nat -> seq<Move<T>>)
    requires net.Valid() && OnLoan(live, net.cells) && net.pop.broker !in live
    modifies net
    ensures net.Since(old(net.past), old(net.Standing()))
    ensures Rely({}, old(net.cells), net.cells)
  {
    var rest := live;
    RelyRefl({}, net.cells);
    while rest != map[]
      invariant net.Since(old(net.past), old(net.Standing()))
      invariant Rely({}, old(net.cells), net.cells) && OnLoan(rest, net.cells) && net.pop.broker !in rest
      decreases |rest|
    {
      var id :| id in rest;
      Fewer(rest, id);
      ghost var y := net.cells;
      ReleaseOne(net, rest, id, others(|rest|));
      RelyTrans({}, old(net.cells), y, net.cells);
      rest := rest - {id};
    }
  }

  lemma Fewer(rest: Senders, id: ContextId)
    requires id in rest
    ensures |rest - {id}| < |rest| && forall s :: (id, s) !in Loans(rest - {id})
  {
    assert rest.Keys == (rest - {id}).Keys + {id};
  }

  // What one Publish does, however others interfere. The remaining subscribers are among those that
  // could be upgraded; every other subscriber can never be upgraded again; each remaining one got
  // exactly one copy unless its mailbox closed, nobody else got any.
  ghost predicate Published<T, A, C, R>(
      x: Cells<T, A, C, R>, subs: Subscribers, pos: nat, topic: T, z: Cells<T, A, C, R>, subs': Subscribers)
  {
    && Progress({}, subs'.Keys, pos, topic, x, z)
    && (forall id :: id in subs' ==> id in subs && subs'[id] == subs[id] && id in x && Alive(x[id]))
    && (forall id :: id in subs && id !in subs' ==> id in z && !Alive(z[id]))
  }

  class Broker<T, A, C, R> {
    var subscribers: Subscribers

    constructor ()
      ensures subscribers == map[]
    {
      subscribers := map[];
    }

    method HandleSubscribe(sender: WeakSender)
      modifies this
      ensures subscribers == old(subscribers)[sender.id := sender]
    {
      subscribers := subscribers[sender.id := sender];
    }

    method HandleUnsubscribe(sender: WeakSender)
      modifies this
      ensures subscribers == old(subscribers) - {sender.id}
    {
      subscribers := subscribers - {sender.id};
    }

    // Returns the number of senders it collected, as the handler logs it, and whose they were.
    method HandlePublish(net: Net<T, A, C, R>, pos: nat, topic: T, others: (nat, nat, nat) -> seq<Move<T>>)
      returns (sent: nat, ghost upgraded: set<ContextId>)
      requires net.Valid() && subscribers.Keys <= net.cells.Keys && net.pop.broker !in subscribers
      modifies this, net
      ensures net.Since(old(net.past), old(net.Standing()))
      ensures Published(old(net.cells), old(subscribers), pos, topic, net.cells, subscribers)
      // the key set is that of the subscribers that could be upgraded when they were tried
      ensures Tried(net.past, |old(net.past)| - 1, old(subscribers).Keys, upgraded)
      ensures subscribers.Keys == upgraded && sent == |upgraded|
    {
      ghost var x, from := net.cells, |net.past| - 1;
      var live := Collect(net, subscribers, (i: nat) => others(0, i, 0));
      ghost var y, ms := net.cells, net.past;
      SendAll(net, live, pos, topic, (i: nat, j: nat) => others(1, i, j));
      StillDead(subscribers, live, pos, topic, x, y, net.cells);
      ghost var z := net.cells;
      sent, upgraded := |live|, live.Keys;
      var kept := Prune(net, subscribers, live, others);
      PublishDone(subscribers, live, kept, pos, topic, x, y, z, net.cells);
      TriedStays(ms, net.past, from, subscribers.Keys, live.Keys, live.Keys);
      subscribers := kept;
    }
  }

  // The rest of the handler: pruning, then the drop of the collected senders.
  method Prune<T, A, C, R>(
      net: Net<T, A, C, R>, subscribers: Subscribers, live: Senders, others: (nat, nat, nat) -> seq<Move<T>>)
    returns (kept: Subscribers)
    requires net.Valid() && OnLoan(live, net.cells) && net.pop.broker !in subscribers
             && subscribers.Keys <= net.cells.Keys
    requires live.Keys <= subscribers.Keys
    requires forall id :: id in subscribers && id !in live ==> !Alive(net.cells[id])
    modifies net
    ensures net.Since(old(net.past), old(net.Standing()))
    ensures Rely({}, old(net.cells), net.cells) && Kept(kept, subscribers, live, subscribers.Keys)
  {
    ghost var x := net.cells;
    kept := Retain(net, subscribers, live, (i: nat) => others(2, i, 0));
    ghost var y := net.cells;
    LoansStay(live, Loans(live), x, y);
    RelyLess(Loans(live), {}, x, y);
    ReleaseAll(net, live, (i: nat) => others(3, i, 0));
    RelyTrans({}, x, y, net.cells);
  }

  lemma StillDead<T, A, C, R>(
      subs: Subscribers, live: Senders, pos: nat, topic: T, x: Cells<T, A, C, R>, y: Cells<T, A, C, R>,
      z: Cells<T, A, C, R>)
    requires Collected(subs.Keys, live, x, y) && Progress(Loans(live), live.Keys, pos, topic, y, z)
    ensures OnLoan(live, z) && (forall id :: id in subs ==> id in z)
    ensures forall id :: id in subs && id !in live ==> !Alive(z[id])
  {
    LoansOutlastProgress(live, live.Keys, pos, topic, y, z);
    forall id | id in subs ensures id in z && (id !in live ==> !Alive(z[id])) {
      assert Drifts({}, id, x[id], y[id]);
      assert Offered(Loans(live), live.Keys, id, pos, topic, y[id], z[id]);
    }
  }

  lemma PublishDone<T, A, C, R>(
      subs: Subscribers, live: Senders, kept: Subscribers, pos: nat, topic: T,
      x: Cells<T, A, C, R>, y: Cells<T, A, C, R>, z: Cells<T, A, C, R>, v: Cells<T, A, C, R>)
    requires Collected(subs.Keys, live, x, y) && Progress(Loans(live), live.Keys, pos, topic, y, z)
    requires Rely({}, z, v) && Kept(kept, subs, live, subs.Keys)
    ensures Published(x, subs, pos, topic, v, kept) && kept.Keys == live.Keys
  {
    assert kept.Keys == live.Keys;
    ProgressLess(Loans(live), live.Keys, pos, topic, y, z);
    RelyThenProgress({}, live.Keys, pos, topic, x, y, z);
    ProgressThenRely({}, live.Keys, pos, topic, x, z, v);
    StillDead(subs, live, pos, topic, x, y, z);
    forall id | id in subs && id !in kept ensures id in v && !Alive(v[id]) {
      assert Drifts({}, id, z[id], v[id]);
    }
  }
}
