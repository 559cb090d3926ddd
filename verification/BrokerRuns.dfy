/** Whole runs of a broker that is never replaced or stopped: its loop serves its mailbox while other
    actors and clients do anything around and inside its handlers (src/broker.rs, src/environment.rs). */
module BrokerRuns {
  import opened Messages
  import opened Sequential
  import opened Actors
  import opened ActorTheorems
  import opened Network
  import opened B = Broker

  // A moment outside the broker's handlers.
  datatype Hub<T, A, C, R> = Hub(time: nat, world: World<T, A, C, R>, subscribers: Subscribers)

  type Requests<T> = seq<Option<Request<T>>>

  function RequestsOf<T>(ps: seq<Payload<Letter<T>>>): (rs: Requests<T>)
    ensures |rs| == |ps|
    ensures forall i :: 0 <= i < |ps| ==> rs[i] == RequestOf(ps[i])
  {
    seq(|ps|, i requires 0 <= i < |ps| => RequestOf(ps[i]))
  }

  // What the broker's mailbox has accepted, and what its loop has handled of it.
  function Inbox<T, A, C, R>(pop: Population<T, A, C, R>, w: World<T, A, C, R>): Requests<T>
    requires pop.broker in w.cells
  {
    RequestsOf(w.cells[pop.broker].chan.accepted)
  }

  function Log<T, A, C, R>(pop: Population<T, A, C, R>, w: World<T, A, C, R>): Requests<T>
    requires pop.broker in w.cells
  {
    RequestsOf(PayloadsOf(w.cells[pop.broker].handled))
  }

  // What handling one message does to the actors and to the map.
  ghost predicate Effect<T, A, C, R>(
      r: Option<Request<T>>, pos: nat, x: Cells<T, A, C, R>, subs: Subscribers, z: Cells<T, A, C, R>,
      subs': Subscribers)
  {
    match r
    case Some(Publish(t)) => Published(x, subs, pos, t, z, subs')
    case Some(Subscribe(s)) => Rely({}, x, z) && subs' == subs[s.id := s]
    case Some(Unsubscribe(s)) => Rely({}, x, z) && subs' == subs - {s.id}
    case None => Rely({}, x, z) && subs' == subs
  }

  // Anything but the broker's handlers: actors and clients step, new actors appear, the inbox grows, the
  // broker's loop takes a message out of its mailbox.
  ghost predicate Others<T, A, C, R>(pop: Population<T, A, C, R>, h: Hub<T, A, C, R>, k: Hub<T, A, C, R>) {
    && pop.broker in h.world.cells && pop.broker in k.world.cells
    && Rely({}, h.world.cells, k.world.cells) && k.subscribers == h.subscribers
       && Log(pop, k.world) == Log(pop, h.world)
  }

  // The broker's loop works off the next message it has accepted; others go on meanwhile. A publish
  // keeps exactly the subscribers that could be upgraded at the moment they were tried.
  ghost predicate TakesNext<T, A, C, R>(
      pop: Population<T, A, C, R>, ms: seq<World<T, A, C, R>>, h: Hub<T, A, C, R>, k: Hub<T, A, C, R>)
  {
    && pop.broker in h.world.cells && pop.broker in k.world.cells && h.time <= k.time < |ms|
    && var n := |Log(pop, h.world)|;
    && n < |Inbox(pop, h.world)| && Log(pop, k.world) == Log(pop, h.world) + [Inbox(pop, h.world)[n]]
    && Effect(Inbox(pop, h.world)[n], n, h.world.cells, h.subscribers, k.world.cells, k.subscribers)
    && (IsPublish(Inbox(pop, h.world)[n]) ==> Tried(ms[..k.time + 1], h.time, h.subscribers.Keys, k.subscribers.Keys))
  }

  predicate IsPublish<T>(r: Option<Request<T>>) { r.Some? && r.value.Publish? }

  ghost predicate IsRun<T, A, C, R>(pop: Population<T, A, C, R>, ms: seq<World<T, A, C, R>>, hs: seq<Hub<T, A, C, R>>) {
    && History(pop, ms) && hs != []
    && pop.broker in hs[0].world.cells && hs[0].subscribers == map[] && Log(pop, hs[0].world) == []
    && (forall id :: id in hs[0].world.cells ==> Copies(hs[0].world.cells[id]) == [])
    && (forall i {:trigger Known(ms, hs[i])} :: 0 <= i < |hs| ==> Known(ms, hs[i]))
    && (forall i {:trigger Turns(pop, ms, hs, i)} :: 0 <= i < |hs| - 1 ==> Turns(pop, ms, hs, i))
  }

  ghost predicate Known<T, A, C, R>(ms: seq<World<T, A, C, R>>, h: Hub<T, A, C, R>) {
    h.time < |ms| && h.world == ms[h.time]
  }

  ghost predicate Turns<T, A, C, R>(
      pop: Population<T, A, C, R>, ms: seq<World<T, A, C, R>>, hs: seq<Hub<T, A, C, R>>, i: nat)
    requires i + 1 < |hs|
  {
    hs[i].time <= hs[i + 1].time && (Others(pop, hs[i], hs[i + 1]) || TakesNext(pop, ms, hs[i], hs[i + 1]))
  }

  // Between the hubs u and u + 1 the loop has worked off a message: this one.
  ghost predicate Handling<T, A, C, R>(
      pop: Population<T, A, C, R>, hs: seq<Hub<T, A, C, R>>, u: nat, r: Option<Request<T>>) {
    && u + 1 < |hs| && pop.broker in hs[u].world.cells && pop.broker in hs[u + 1].world.cells
    && Log(pop, hs[u + 1].world) == Log(pop, hs[u].world) + [r]
  }

  lemma HandlingIsTurn<T, A, C, R>(
      pop: Population<T, A, C, R>, ms: seq<World<T, A, C, R>>, hs: seq<Hub<T, A, C, R>>, u: nat, r: Option<Request<T>>)
    requires IsRun(pop, ms, hs) && Handling(pop, hs, u, r)
    ensures TakesNext(pop, ms, hs[u], hs[u + 1]) && Inbox(pop, hs[u].world)[|Log(pop, hs[u].world)|] == r
  {
    assert Turns(pop, ms, hs, u);
    assert !Others(pop, hs[u], hs[u + 1]);
    assert Log(pop, hs[u + 1].world)[|Log(pop, hs[u].world)|] == r;
  }

  // ---------------------------------------------------------------- what a subscriber is owed

  // Whether the requests, in their order, leave id subscribed.
  predicate Subscribed<T>(log: Requests<T>, id: ContextId) {
    if log == [] then false else
      match log[|log| - 1]
      case Some(Subscribe(s)) => s.id == id || Subscribed(log[..|log| - 1], id)
      case Some(Unsubscribe(s)) => s.id != id && Subscribed(log[..|log| - 1], id)
      case _ => Subscribed(log[..|log| - 1], id)
  }

  // One copy of every publish handled while subscribed, in handling order.
  function Owed<T>(log: Requests<T>, id: ContextId): seq<(nat, T)> {
    if log == [] then [] else
      var n := |log| - 1;
      Owed(log[..n], id) + if IsPublish(log[n]) && Subscribed(log[..n], id) then [(n, log[n].value.topic)] else []
  }

  ghost predicate HubInv<T, A, C, R>(pop: Population<T, A, C, R>, h: Hub<T, A, C, R>) {
    && Sound(pop, h.world) && AllCounted(h.world.cells) && pop.broker !in h.subscribers
    && (forall id :: id in h.subscribers ==> id in h.world.cells && Subscribed(Log(pop, h.world), id))
    && (forall id {:trigger Served(pop, h, id)} :: id in h.world.cells ==> Served(pop, h, id))
  }

  ghost predicate Served<T, A, C, R>(pop: Population<T, A, C, R>, h: Hub<T, A, C, R>, id: ContextId)
    requires id in h.world.cells && pop.broker in h.world.cells
  {
    ServedCell(h.world.cells[id], Log(pop, h.world), id, h.subscribers)
  }

  ghost predicate ServedCell<T, A, C, R>(
      c: Cell<Letter<T>, A, C, R>, log: Requests<T>, id: ContextId, subs: Subscribers) {
    && Copies(c) <= Owed(log, id)
    && (Alive(c) && c.chan.open ==> Copies(c) == Owed(log, id))
    && (Alive(c) && Subscribed(log, id) ==> id in subs)
  }

  lemma {:induction false} NeverNamed<T>(log: Requests<T>, id: ContextId)
    requires forall i :: 0 <= i < |log| ==> log[i] != Some(Subscribe(WeakSender(id)))
    ensures !Subscribed(log, id) && Owed(log, id) == []
    decreases |log|
  {
    if log != [] { NeverNamed(log[..|log| - 1], id); }
  }

  // The loop handles what was accepted, in that order, and what it was asked names actors that exist.
  lemma LogOfInbox<T, A, C, R>(pop: Population<T, A, C, R>, w: World<T, A, C, R>)
    requires Sound(pop, w)
    ensures Log(pop, w) <= Inbox(pop, w)
    ensures forall i :: 0 <= i < |Inbox(pop, w)| && Inbox(pop, w)[i].Some? && Inbox(pop, w)[i].value.Subscribe? ==>
              Inbox(pop, w)[i].value.sender.id in w.cells && Inbox(pop, w)[i].value.sender.id != pop.broker
  {
    var c := w.cells[pop.broker];
    assert Proper(pop, pop.broker, c);
    assert PayloadsOf(c.handled) <= c.chan.accepted;
    forall i | 0 <= i < |Inbox(pop, w)| && Inbox(pop, w)[i].Some? && Inbox(pop, w)[i].value.Subscribe?
      ensures Inbox(pop, w)[i].value.sender.id in w.cells && Inbox(pop, w)[i].value.sender.id != pop.broker
    {
      assert Named(pop, w.cells, c.chan.accepted[i]);
    }
  }

  // Whoever is not yet there has not been named and has received nothing.
  lemma NewcomerServed<T, A, C, R>(pop: Population<T, A, C, R>, w: World<T, A, C, R>, log: Requests<T>, id: ContextId,
                                   c: Cell<Letter<T>, A, C, R>, subs: Subscribers)
    requires Sound(pop, w) && id !in w.cells && log <= Inbox(pop, w) && Copies(c) == []
    ensures ServedCell(c, log, id, subs)
  {
    LogOfInbox(pop, w);
    forall i | 0 <= i < |log| ensures log[i] != Some(Subscribe(WeakSender(id))) {
      assert log[i] == Inbox(pop, w)[i];
    }
    NeverNamed(log, id);
  }

  lemma OthersKeep<T, A, C, R>(pop: Population<T, A, C, R>, h: Hub<T, A, C, R>, k: Hub<T, A, C, R>)
    requires HubInv(pop, h) && Others(pop, h, k) && Sound(pop, k.world)
    ensures HubInv(pop, k)
  {
    LogOfInbox(pop, h.world);
    forall id | id in k.world.cells ensures Served(pop, k, id) {
      if id in h.world.cells {
        assert Drifts({}, id, h.world.cells[id], k.world.cells[id]) && Served(pop, h, id);
      } else {
        NewcomerServed(pop, h.world, Log(pop, k.world), id, k.world.cells[id], k.subscribers);
      }
    }
    forall id | id in k.subscribers ensures id in k.world.cells { assert id in h.world.cells; }
  }

  lemma TakesNextKeep<T, A, C, R>(
      pop: Population<T, A, C, R>, ms: seq<World<T, A, C, R>>, h: Hub<T, A, C, R>, k: Hub<T, A, C, R>)
    requires HubInv(pop, h) && TakesNext(pop, ms, h, k) && Sound(pop, k.world)
    ensures HubInv(pop, k)
  {
    LogOfInbox(pop, h.world);
    var log, n := Log(pop, h.world), |Log(pop, h.world)|;
    var r := Inbox(pop, h.world)[n];
    forall id | id in k.world.cells ensures Served(pop, k, id) {
      if id in h.world.cells {
        assert Served(pop, h, id);
        EffectServes(r, log, id, h.world.cells, h.subscribers, k.world.cells, k.subscribers);
      } else {
        assert Copies(k.world.cells[id]) == [];
        NewcomerServed(pop, h.world, log + [r], id, k.world.cells[id], k.subscribers);
      }
    }
    SubscribersNamed(r, log, h.world.cells, h.subscribers, k.world.cells, k.subscribers);
    TakesNextCounted(r, n, h.world.cells, h.subscribers, k.world.cells, k.subscribers);
  }

  lemma TakesNextCounted<T, A, C, R>(
      r: Option<Request<T>>, n: nat, x: Cells<T, A, C, R>, subs: Subscribers, z: Cells<T, A, C, R>, subs': Subscribers)
    requires Effect(r, n, x, subs, z, subs')
    ensures AllCounted(z)
  {
  }

  lemma SubscribersNamed<T, A, C, R>(
      r: Option<Request<T>>, log: Requests<T>, x: Cells<T, A, C, R>, subs: Subscribers, z: Cells<T, A, C, R>,
      subs': Subscribers)
    requires Effect(r, |log|, x, subs, z, subs') && forall id :: id in subs ==> id in x && Subscribed(log, id)
    requires r.Some? && r.value.Subscribe? ==> r.value.sender.id in x
    ensures forall id :: id in subs' ==> id in z && Subscribed(log + [r], id)
  {
    assert (log + [r])[..|log|] == log;
    forall id | id in subs' ensures id in z && Subscribed(log + [r], id) { assert id in x; }
  }

  // Each of the broker's handlers keeps every actor served.
  lemma EffectServes<T, A, C, R>(
      r: Option<Request<T>>, log: Requests<T>, id: ContextId,
      x: Cells<T, A, C, R>, subs: Subscribers, z: Cells<T, A, C, R>, subs': Subscribers)
    requires Effect(r, |log|, x, subs, z, subs') && id in x && id in z
    requires ServedCell(x[id], log, id, subs) && (id in subs ==> Subscribed(log, id))
    ensures ServedCell(z[id], log + [r], id, subs')
  {
    assert (log + [r])[..|log|] == log;
    if IsPublish(r) {
      PublishServes(log, r.value.topic, id, x, subs, z, subs');
    } else {
      assert Drifts({}, id, x[id], z[id]);
      assert Owed(log + [r], id) == Owed(log, id);
    }
  }

  lemma PublishServes<T, A, C, R>(
      log: Requests<T>, t: T, id: ContextId, x: Cells<T, A, C, R>, subs: Subscribers, z: Cells<T, A, C, R>,
      subs': Subscribers)
    requires Published(x, subs, |log|, t, z, subs') && id in x && id in z
    requires ServedCell(x[id], log, id, subs) && (id in subs ==> Subscribed(log, id))
    ensures ServedCell(z[id], log + [Some(Publish(t))], id, subs')
  {
    var more: Requests<T> := log + [Some(Publish(t))];
    assert more[..|log|] == log && more[|log|] == Some(Publish(t));
    assert Owed(more, id) == Owed(log, id) + if Subscribed(log, id) then [(|log|, t)] else [];
    assert Offered({}, subs'.Keys, id, |log|, t, x[id], z[id]);
  }

  lemma {:induction false} RunKeeps<T, A, C, R>(
      pop: Population<T, A, C, R>, ms: seq<World<T, A, C, R>>, hs: seq<Hub<T, A, C, R>>, i: nat)
    requires IsRun(pop, ms, hs) && i < |hs|
    ensures HubInv(pop, hs[i])
    decreases i
  {
    assert Known(ms, hs[i]);
    assert Sound(pop, ms[hs[i].time]);
    if i == 0 {
      SoundCounted(pop, hs[0].world);
    } else {
      RunKeeps(pop, ms, hs, i - 1);
      assert Turns(pop, ms, hs, i - 1);
      if Others(pop, hs[i - 1], hs[i]) {
        OthersKeep(pop, hs[i - 1], hs[i]);
      } else {
        TakesNextKeep(pop, ms, hs[i - 1], hs[i]);
      }
    }
  }

  // ---------------------------------------------------------------- what the run theorem means

  // The order theorem: between any two turns of the loop, what an actor has received from the broker
  // is a beginning of what it is owed, and all of it while it can be upgraded and its mailbox is open.
  lemma BrokerOrder<T, A, C, R>(
      pop: Population<T, A, C, R>, ms: seq<World<T, A, C, R>>, hs: seq<Hub<T, A, C, R>>, i: nat, id: ContextId)
    requires IsRun(pop, ms, hs) && i < |hs| && id in hs[i].world.cells && pop.broker in hs[i].world.cells
    ensures var c, log := hs[i].world.cells[id], Log(pop, hs[i].world);
            Copies(c) <= Owed(log, id) && (Alive(c) && c.chan.open ==> Copies(c) == Owed(log, id))
  {
    RunKeeps(pop, ms, hs, i);
    assert Served(pop, hs[i], id);
  }

  // What is owed, item by item.
  lemma {:induction false} OwedExactly<T>(log: Requests<T>, id: ContextId, p: nat, t: T)
    ensures (p, t) in Owed(log, id) <==> p < |log| && log[p] == Some(Publish(t)) && Subscribed(log[..p], id)
    decreases |log|
  {
    if log != [] {
      var n := |log| - 1;
      OwedExactly(log[..n], id, p, t);
      if p < n { assert log[..n][..p] == log[..p]; }
    }
  }

  lemma {:induction false} OwedIncreases<T>(log: Requests<T>, id: ContextId)
    ensures forall i, j :: 0 <= i < j < |Owed(log, id)| ==> Owed(log, id)[i].0 < Owed(log, id)[j].0
    ensures forall i :: 0 <= i < |Owed(log, id)| ==> Owed(log, id)[i].0 < |log|
    decreases |log|
  {
    if log != [] { OwedIncreases(log[..|log| - 1], id); }
  }

  lemma {:induction false} CopiesPrefix<T>(a: seq<Payload<Letter<T>>>, b: seq<Payload<Letter<T>>>)
    requires a <= b
    ensures CopiesIn(a) <= CopiesIn(b)
    decreases |b|
  {
    if a != b {
      assert a <= b[..|b| - 1];
      CopiesPrefix(a, b[..|b| - 1]);
    }
  }

  // What has been received or accepted stays.
  lemma LaterMoments<T, A, C, R>(pop: Population<T, A, C, R>, ms: seq<World<T, A, C, R>>, i: nat, j: nat, id: ContextId)
    requires History(pop, ms) && i <= j < |ms| && id in ms[i].cells
    ensures id in ms[j].cells && Copies(ms[i].cells[id]) <= Copies(ms[j].cells[id])
    ensures pop.broker in ms[i].cells && pop.broker in ms[j].cells && Inbox(pop, ms[i]) <= Inbox(pop, ms[j])
  {
    assert Grows(ms[i].cells, ms[j].cells) && Sound(pop, ms[i]);
    CopiesPrefix(ms[i].cells[id].chan.accepted, ms[j].cells[id].chan.accepted);
  }

  // At every moment, also inside the broker's handlers, each actor has got each publish at most once
  // and in handling order, whatever it does; so any two see the messages they share in the same order.
  lemma NoDuplicatesOneOrder<T, A, C, R>(
      pop: Population<T, A, C, R>, ms: seq<World<T, A, C, R>>, hs: seq<Hub<T, A, C, R>>, t: nat, id: ContextId)
    requires IsRun(pop, ms, hs) && t <= hs[|hs| - 1].time < |ms| && id in ms[t].cells
    ensures var got := Copies(ms[t].cells[id]); forall i, j :: 0 <= i < j < |got| ==> got[i].0 < got[j].0
  {
    var h := hs[|hs| - 1];
    assert Known(ms, h);
    LaterMoments(pop, ms, t, h.time, id);
    BrokerOrder(pop, ms, hs, |hs| - 1, id);
    OwedIncreases(Log(pop, h.world), id);
  }

  // So any two actors, at any two moments, have what they share in the same order.
  lemma CommonOrder<T, A, C, R>(
      pop: Population<T, A, C, R>, ms: seq<World<T, A, C, R>>, hs: seq<Hub<T, A, C, R>>,
      t: nat, a: ContextId, i: nat, j: nat, v: nat, b: ContextId, k: nat, l: nat)
    requires IsRun(pop, ms, hs) && hs[|hs| - 1].time < |ms|
    requires t <= hs[|hs| - 1].time && a in ms[t].cells && v <= hs[|hs| - 1].time && b in ms[v].cells
    requires i < |Copies(ms[t].cells[a])| && j < |Copies(ms[t].cells[a])|
    requires k < |Copies(ms[v].cells[b])| && l < |Copies(ms[v].cells[b])|
    requires Copies(ms[t].cells[a])[i] == Copies(ms[v].cells[b])[k]
    requires Copies(ms[t].cells[a])[j] == Copies(ms[v].cells[b])[l]
    ensures i < j <==> k < l
  {
    NoDuplicatesOneOrder(pop, ms, hs, t, a);
    NoDuplicatesOneOrder(pop, ms, hs, v, b);
  }

  lemma {:induction false} SubscriptionLasts<T>(log: Requests<T>, id: ContextId, p: nat, q: nat)
    requires p <= q <= |log| && Subscribed(log[..p], id)
    requires forall i :: p <= i < q ==> log[i] != Some(Unsubscribe(WeakSender(id)))
    ensures Subscribed(log[..q], id)
    decreases q
  {
    if p < q {
      SubscriptionLasts(log, id, p, q - 1);
      assert log[..q][..q - 1] == log[..q - 1];
      assert log[..q][q - 1] == log[q - 1];
    }
  }

  // Between two turns, the copies of an actor have no hole.
  lemma ContiguousAtHub<T, A, C, R>(
      pop: Population<T, A, C, R>, ms: seq<World<T, A, C, R>>, hs: seq<Hub<T, A, C, R>>, n: nat, id: ContextId,
      p: nat, q: nat, r: nat, t: T, u: T, w: T)
    requires IsRun(pop, ms, hs) && n < |hs| && id in hs[n].world.cells && pop.broker in hs[n].world.cells && p < q < r
    requires (p, t) in Copies(hs[n].world.cells[id]) && (r, w) in Copies(hs[n].world.cells[id])
    requires var log := Log(pop, hs[n].world);
             && (q < |log| ==> log[q] == Some(Publish(u)))
             && forall i :: p <= i < q && i < |log| ==> log[i] != Some(Unsubscribe(WeakSender(id)))
    ensures (q, u) in Copies(hs[n].world.cells[id])
  {
    var log, got := Log(pop, hs[n].world), Copies(hs[n].world.cells[id]);
    BrokerOrder(pop, ms, hs, n, id);
    OwedExactly(log, id, p, t);
    OwedExactly(log, id, r, w);
    SubscriptionLasts(log, id, p, q);
    OwedExactly(log, id, q, u);
    OwedIncreases(log, id);
    InPrefix(got, Owed(log, id), (q, u), (r, w));
  }

  // At every moment, also inside the handlers: between two publishes an actor has received, it has
  // received every publish unless it unsubscribed in between. n is any later turn.
  lemma Contiguous<T, A, C, R>(
      pop: Population<T, A, C, R>, ms: seq<World<T, A, C, R>>, hs: seq<Hub<T, A, C, R>>, m: nat, n: nat, id: ContextId,
      p: nat, q: nat, r: nat, t: T, u: T, w: T)
    requires IsRun(pop, ms, hs) && n < |hs| && m <= hs[n].time < |ms| && id in ms[m].cells && p < q < r
    requires (p, t) in Copies(ms[m].cells[id]) && (r, w) in Copies(ms[m].cells[id])
    requires pop.broker in hs[n].world.cells
    requires var log := Log(pop, hs[n].world);
             && (q < |log| ==> log[q] == Some(Publish(u)))
             && forall i :: p <= i < q && i < |log| ==> log[i] != Some(Unsubscribe(WeakSender(id)))
    ensures (q, u) in Copies(ms[m].cells[id])
  {
    assert Known(ms, hs[n]);
    LaterMoments(pop, ms, m, hs[n].time, id);
    var got, all := Copies(ms[m].cells[id]), Copies(hs[n].world.cells[id]);
    assert forall x :: x in got ==> x in all;
    ContiguousAtHub(pop, ms, hs, n, id, p, q, r, t, u, w);
    BrokerOrder(pop, ms, hs, n, id);
    OwedIncreases(Log(pop, hs[n].world), id);
    InPrefix(got, all, (q, u), (r, w));
  }

  lemma InPrefix<T>(got: seq<(nat, T)>, owed: seq<(nat, T)>, x: (nat, T), y: (nat, T))
    requires got <= owed && x in owed && y in got && x.0 < y.0
    requires forall i, j :: 0 <= i < j < |owed| ==> owed[i].0 < owed[j].0
    ensures x in got
  {
    var i :| 0 <= i < |owed| && owed[i] == x;
    var j :| 0 <= j < |got| && got[j] == y;
    assert owed[j] == got[j] && i < j;
  }

  // Pruning under interference: a publish keeps a subscriber exactly if it could be upgraded at the
  // moment of the turn at which the broker tried it; what it drops can never be upgraded again.
  lemma KeysAreTheUpgradeable<T, A, C, R>(
      pop: Population<T, A, C, R>, ms: seq<World<T, A, C, R>>, hs: seq<Hub<T, A, C, R>>, u: nat, topic: T,
      id: ContextId)
    returns (tried: nat)
    requires IsRun(pop, ms, hs) && Handling(pop, hs, u, Some(Publish(topic))) && id in hs[u].subscribers
    ensures hs[u].time <= tried <= hs[u + 1].time < |ms| && id in ms[tried].cells
    ensures id in hs[u + 1].subscribers <==> Alive(ms[tried].cells[id])
    ensures id !in hs[u + 1].subscribers ==>
              forall m :: tried <= m < |ms| ==> id in ms[m].cells && !Alive(ms[m].cells[id])
  {
    HandlingIsTurn(pop, ms, hs, u, Some(Publish(topic)));
    tried := TriedInTurn(pop, ms, hs[u], hs[u + 1], id);
    forall m | tried <= m < |ms| ensures id in ms[m].cells && (Alive(ms[m].cells[id]) ==> Alive(ms[tried].cells[id])) {
      assert Grows(ms[tried].cells, ms[m].cells);
    }
  }

  lemma TriedInTurn<T, A, C, R>(
      pop: Population<T, A, C, R>, ms: seq<World<T, A, C, R>>, h: Hub<T, A, C, R>, k: Hub<T, A, C, R>, id: ContextId)
    returns (m: nat)
    requires TakesNext(pop, ms, h, k) && IsPublish(Inbox(pop, h.world)[|Log(pop, h.world)|]) && id in h.subscribers
    ensures h.time <= m <= k.time < |ms| && id in ms[m].cells && (id in k.subscribers <==> Alive(ms[m].cells[id]))
  {
    var now := ms[..k.time + 1];
    m :| TriedAt(now, m, h.time, id, k.subscribers.Keys);
    assert now[m] == ms[m];
  }

  // ---------------------------------------------------------------- causal delivery

  lemma {:induction false} SubscribeCounts<T>(log: Requests<T>, id: ContextId, s: nat, p: nat)
    requires s < p <= |log| && log[s] == Some(Subscribe(WeakSender(id)))
    requires forall i :: s < i < p ==> log[i] != Some(Unsubscribe(WeakSender(id)))
    ensures Subscribed(log[..p], id)
  {
    assert log[..s + 1][s] == log[s];
    SubscriptionLasts(log, id, s + 1, p);
  }

  // A client that has an answer from an actor that subscribes in `started`, if only to a ping, knows
  // that its Subscribe stands in the broker's mailbox.
  lemma AnswerMeansAsked<T, A, C, R>(pop: Population<T, A, C, R>, w: World<T, A, C, R>, id: ContextId, call: CallId)
    returns (asked: nat)
    requires Sound(pop, w) && Answered(pop, w, id, call)
    ensures asked < |Inbox(pop, w)| && Inbox(pop, w)[asked] == Some(Subscribe(WeakSender(id)))
  {
    assert Proper(pop, id, w.cells[id]);
    RepliedStarted(pop.progs(id), pop.locals(id), w.cells[id], call);
    assert HasStarted(w.cells[id]);
    asked :| AsksFor(w.cells[pop.broker].chan.accepted, asked, id);
  }

  // What a turn of the loop on a publish does for an actor that it keeps, or that can still be
  // upgraded at its end.
  lemma TurnDelivers<T, A, C, R>(
      pop: Population<T, A, C, R>, ms: seq<World<T, A, C, R>>, hs: seq<Hub<T, A, C, R>>, u: nat, id: ContextId,
      topic: T)
    requires IsRun(pop, ms, hs) && Handling(pop, hs, u, Some(Publish(topic)))
    requires id in hs[u].world.cells && id in hs[u + 1].world.cells && hs[u + 1].world.cells[id].chan.open
    requires id in hs[u + 1].subscribers
             || (Subscribed(Log(pop, hs[u].world), id) && Alive(hs[u + 1].world.cells[id]))
    ensures (|Log(pop, hs[u].world)|, topic) in Copies(hs[u + 1].world.cells[id])
  {
    var h, k, log := hs[u], hs[u + 1], Log(pop, hs[u].world);
    assert Served(pop, h, id) && (id in h.subscribers ==> Subscribed(log, id)) by { RunKeeps(pop, ms, hs, u); }
    assert Published(h.world.cells, h.subscribers, |log|, topic, k.world.cells, k.subscribers) by {
      HandlingIsTurn(pop, ms, hs, u, Some(Publish(topic)));
    }
    PublishReaches(log, topic, id, h.world.cells, h.subscribers, k.world.cells, k.subscribers);
  }

  lemma PublishReaches<T, A, C, R>(
      log: Requests<T>, t: T, id: ContextId, x: Cells<T, A, C, R>, subs: Subscribers, z: Cells<T, A, C, R>,
      subs': Subscribers)
    requires Published(x, subs, |log|, t, z, subs') && id in x && id in z && z[id].chan.open
    requires ServedCell(x[id], log, id, subs) && (id in subs' || (Subscribed(log, id) && Alive(z[id])))
    ensures (|log|, t) in Copies(z[id])
  {
    assert Offered({}, subs'.Keys, id, |log|, t, x[id], z[id]);
    assert Copies(z[id]) == Copies(x[id]) + [(|log|, t)];
    assert Copies(z[id])[|Copies(x[id])|] == (|log|, t);
  }

  // An actor subscribes in its `started`. At time t, which may be any moment, a client has an answer
  // from it. Every publish accepted after that reaches the actor: if the broker, when its loop takes
  // the publish (turn u), can upgrade its sender and its mailbox stays open, then the copy is there
  // for good (time v), unless the actor was unsubscribed meanwhile.
  lemma CausalDelivery<T, A, C, R>(
      pop: Population<T, A, C, R>, ms: seq<World<T, A, C, R>>, hs: seq<Hub<T, A, C, R>>,
      t: nat, u: nat, v: nat, id: ContextId, call: CallId, topic: T)
    returns (asked: nat)
    requires IsRun(pop, ms, hs) && Handling(pop, hs, u, Some(Publish(topic))) && t < |ms| && hs[u + 1].time <= v < |ms|
    requires Answered(pop, ms[t], id, call) && |Inbox(pop, ms[t])| <= |Log(pop, hs[u].world)|
    requires Reachable(hs[u + 1], id)
    ensures asked < |Inbox(pop, ms[t])| && Inbox(pop, ms[t])[asked] == Some(Subscribe(WeakSender(id)))
    ensures var p := |Log(pop, hs[u].world)|;
            (forall i :: asked < i < p ==> Log(pop, hs[u].world)[i] != Some(Unsubscribe(WeakSender(id)))) ==>
              id in ms[v].cells && (p, topic) in Copies(ms[v].cells[id])
  {
    assert Sound(pop, ms[t]);
    asked := AnswerMeansAsked(pop, ms[t], id, call);
    var log := Log(pop, hs[u].world);
    HandlingIsTurn(pop, ms, hs, u, Some(Publish(topic)));
    AnswerBeforeTurn(pop, ms, hs, t, u, id);
    if forall i :: asked < i < |log| ==> log[i] != Some(Unsubscribe(WeakSender(id))) {
      AskedDelivers(pop, ms, hs, u, v, id, asked, topic);
    }
  }

  // A client has an answer to its call from id, which subscribes in `started`.
  ghost predicate Answered<T, A, C, R>(pop: Population<T, A, C, R>, w: World<T, A, C, R>, id: ContextId, call: CallId) {
    && pop.broker in w.cells && id in w.cells && id != pop.broker && pop.subscribes(id)
    && call in w.cells[id].calls && w.cells[id].calls[call].Replied?
  }

  // At the end of a turn the mailbox of id is open, and the broker has kept it or could upgrade it now.
  ghost predicate Reachable<T, A, C, R>(k: Hub<T, A, C, R>, id: ContextId) {
    id in k.world.cells && k.world.cells[id].chan.open && (id in k.subscribers || Alive(k.world.cells[id]))
  }

  lemma AskedDelivers<T, A, C, R>(
      pop: Population<T, A, C, R>, ms: seq<World<T, A, C, R>>, hs: seq<Hub<T, A, C, R>>, u: nat, v: nat, id: ContextId,
      asked: nat, topic: T)
    requires IsRun(pop, ms, hs) && Handling(pop, hs, u, Some(Publish(topic))) && hs[u + 1].time <= v < |ms|
    requires var log, inbox := Log(pop, hs[u].world), Inbox(pop, hs[u].world);
             && asked < |log| && asked < |inbox| && inbox[asked] == Some(Subscribe(WeakSender(id)))
             && forall i :: asked < i < |log| ==> log[i] != Some(Unsubscribe(WeakSender(id)))
    requires id in hs[u].world.cells && Reachable(hs[u + 1], id)
    ensures id in ms[v].cells && (|Log(pop, hs[u].world)|, topic) in Copies(ms[v].cells[id])
  {
    AskedMeansSubscribed(pop, ms, hs, u, id, asked);
    TurnDelivers(pop, ms, hs, u, id, topic);
    assert Known(ms, hs[u + 1]);
    LaterMoments(pop, ms, hs[u + 1].time, v, id);
  }

  lemma AskedMeansSubscribed<T, A, C, R>(
      pop: Population<T, A, C, R>, ms: seq<World<T, A, C, R>>, hs: seq<Hub<T, A, C, R>>, u: nat, id: ContextId,
      asked: nat)
    requires IsRun(pop, ms, hs) && u < |hs| && pop.broker in hs[u].world.cells
    requires var log, inbox := Log(pop, hs[u].world), Inbox(pop, hs[u].world);
             && asked < |log| && asked < |inbox| && inbox[asked] == Some(Subscribe(WeakSender(id)))
             && forall i :: asked < i < |log| ==> log[i] != Some(Unsubscribe(WeakSender(id)))
    ensures Subscribed(Log(pop, hs[u].world), id)
  {
    var log := Log(pop, hs[u].world);
    assert Known(ms, hs[u]) && Sound(pop, ms[hs[u].time]);
    LogOfInbox(pop, hs[u].world);
    SubscribeCounts(log, id, asked, |log|);
    assert log[..|log|] == log;
  }

  // A message that was not yet accepted at time t but is when the turn begins dates the turn.
  lemma AnswerBeforeTurn<T, A, C, R>(
      pop: Population<T, A, C, R>, ms: seq<World<T, A, C, R>>, hs: seq<Hub<T, A, C, R>>, t: nat, u: nat, id: ContextId)
    requires IsRun(pop, ms, hs) && t < |ms| && u < |hs| && id in ms[t].cells
    requires pop.broker in ms[t].cells && pop.broker in hs[u].world.cells
    requires |Inbox(pop, ms[t])| < |Inbox(pop, hs[u].world)|
    ensures t < hs[u].time && id in hs[u].world.cells && Inbox(pop, ms[t]) <= Inbox(pop, hs[u].world)
  {
    assert Known(ms, hs[u]);
    if hs[u].time <= t { LaterMoments(pop, ms, hs[u].time, t, pop.broker); }
    LaterMoments(pop, ms, t, hs[u].time, id);
  }

  // ---------------------------------------------------------------- the loop that makes such runs

  // The broker's cell stands for its mailbox and its loop; what its handlers do to the map and to
  // others is in class Broker, so the cell's own account of a handler has no await points.
  function NoAwaits<T>(m: Letter<T>): nat { 0 }

  ghost predicate IsBroker<T, A, C, R>(pop: Population<T, A, C, R>) {
    pop.progs(pop.broker).startOk(pop.locals(pop.broker)) && pop.progs(pop.broker).awaits == NoAwaits
  }

  lemma EffectWider<T, A, C, R>(
      r: Option<Request<T>>, n: nat, x: Cells<T, A, C, R>, y: Cells<T, A, C, R>, subs: Subscribers,
      z: Cells<T, A, C, R>, v: Cells<T, A, C, R>, subs': Subscribers)
    requires Rely({}, x, y) && Effect(r, n, y, subs, z, subs') && Rely({}, z, v) && subs.Keys <= x.Keys
    ensures Effect(r, n, x, subs, v, subs')
  {
    if IsPublish(r) {
      PublishedWider(x, y, subs, n, r.value.topic, z, v, subs');
    } else {
      RelyTrans({}, x, y, z);
      RelyTrans({}, x, z, v);
    }
  }

  lemma PublishedWider<T, A, C, R>(
      x: Cells<T, A, C, R>, y: Cells<T, A, C, R>, subs: Subscribers, n: nat, t: T,
      z: Cells<T, A, C, R>, v: Cells<T, A, C, R>, subs': Subscribers)
    requires Rely({}, x, y) && Published(y, subs, n, t, z, subs') && Rely({}, z, v) && subs.Keys <= x.Keys
    ensures Published(x, subs, n, t, v, subs')
  {
    assert subs'.Keys <= x.Keys;
    RelyThenProgress({}, subs'.Keys, n, t, x, y, z);
    ProgressThenRely({}, subs'.Keys, n, t, x, z, v);
    forall id | id in subs' ensures Alive(x[id]) { assert Drifts({}, id, x[id], y[id]); }
    forall id | id in subs && id !in subs' ensures id in v && !Alive(v[id]) { assert Drifts({}, id, z[id], v[id]); }
  }

  // The broker's loop has taken p, the next message after those it has handled.
  ghost predicate AtWork<T, A, C, R>(net: Net<T, A, C, R>, p: Payload<Letter<T>>)
    reads net
  {
    && net.Valid() && p.Task? && net.cells[net.pop.broker].phase == Busy(p.work, p.reply, 0)
    && IsNext(net.cells[net.pop.broker], p)
  }

  ghost predicate IsNext<T, A, C, R>(c: Cell<Letter<T>, A, C, R>, p: Payload<Letter<T>>) {
    |c.handled| < |c.chan.accepted| && p == c.chan.accepted[|c.handled|]
  }

  lemma NextIsTask<T, A, C, R>(pop: Population<T, A, C, R>, w: World<T, A, C, R>)
    requires Sound(pop, w)
    requires var c := w.cells[pop.broker]; c.phase == Idle && c.chan.queue != []
    ensures var c := w.cells[pop.broker]; IsNext(c, c.chan.queue[0]) && c.chan.queue[0].Task?
  {
    var c := w.cells[pop.broker];
    assert Proper(pop, pop.broker, c);
    assert c.chan.accepted == PayloadsOf(c.handled) + [] + c.chan.queue;
  }

  // `payload_stream.next().await`
  method TakeNext<T, A, C, R>(net: Net<T, A, C, R>, ghost h: Hub<T, A, C, R>)
    returns (p: Payload<Letter<T>>, ghost k: Hub<T, A, C, R>)
    requires net.Valid() && net.cells[net.pop.broker].phase == Idle && net.cells[net.pop.broker].chan.queue != []
    requires h.world == net.At()
    modifies net
    ensures AtWork(net, p) && old(net.past) <= net.past && IsNext(old(net.cells[net.pop.broker]), p)
    ensures k == Hub(|net.past| - 1, net.At(), h.subscribers) && Others(net.pop, h, k)
  {
    p := net.cells[net.pop.broker].chan.queue[0];
    net.NowSound();
    NextIsTask(net.pop, net.At());
    RelyStep(net.pop, {}, net.cells, net.pop.broker, Pop);
    net.Perform(net.pop.broker, Pop);
    k := Hub(|net.past| - 1, net.At(), h.subscribers);
  }

  // The handler, with anything going on inside it.
  method Handle<T, A, C, R>(net: Net<T, A, C, R>, broker: Broker<T, A, C, R>, p: Payload<Letter<T>>, n: nat,
                            others: (nat, nat, nat) -> seq<Move<T>>)
    requires net.Valid() && broker.subscribers.Keys <= net.cells.Keys && net.pop.broker !in broker.subscribers
    modifies net, broker
    ensures net.Since(old(net.past), old(net.Standing()))
    ensures Effect(RequestOf(p), n, old(net.cells), old(broker.subscribers), net.cells, broker.subscribers)
    ensures IsPublish(RequestOf(p)) ==>
              Tried(net.past, |old(net.past)| - 1, old(broker.subscribers).Keys, broker.subscribers.Keys)
  {
    var r := RequestOf(p);
    if IsPublish(r) {
      var _, _ := broker.HandlePublish(net, n, r.value.topic, others);
    } else {
      RelyRefl({}, net.cells);
      if r.Some? {
        if r.value.Subscribe? {
          broker.HandleSubscribe(r.value.sender);
        } else {
          broker.HandleUnsubscribe(r.value.sender);
        }
      }
    }
  }

  // The handler has returned and its reply is sent.
  method Finish<T, A, C, R>(net: Net<T, A, C, R>, p: Payload<Letter<T>>)
    requires net.Valid() && p.Task? && net.cells[net.pop.broker].phase == Busy(p.work, p.reply, 0) && IsBroker(net.pop)
    modifies net
    ensures net.Valid() && old(net.past) <= net.past && Rely({}, old(net.cells), net.cells)
    ensures net.cells[net.pop.broker].phase == Idle
    ensures net.cells[net.pop.broker].handled == old(net.cells[net.pop.broker].handled) + [Entry(p, Completed)]
  {
    assert p.work.Handle? ==> net.pop.progs(net.pop.broker).awaits(p.work.msg) == NoAwaits(p.work.msg);
    RelyStep(net.pop, {}, net.cells, net.pop.broker, Complete);
    net.Perform(net.pop.broker, Complete);
  }

  // The rest of the turn.
  method WorkOff<T, A, C, R>(net: Net<T, A, C, R>, broker: Broker<T, A, C, R>, p: Payload<Letter<T>>,
                             others: (nat, nat, nat) -> seq<Move<T>>, ghost h: Hub<T, A, C, R>)
    returns (ghost k: Hub<T, A, C, R>)
    requires AtWork(net, p) && IsBroker(net.pop) && h == Hub(|net.past| - 1, net.At(), broker.subscribers)
    requires h.subscribers.Keys <= h.world.cells.Keys && net.pop.broker !in h.subscribers
    modifies net, broker
    ensures net.Valid() && old(net.past) <= net.past && net.cells[net.pop.broker].phase == Idle
    ensures k == Hub(|net.past| - 1, net.At(), broker.subscribers) && TakesNext(net.pop, net.past, h, k)
  {
    Handle(net, broker, p, |net.cells[net.pop.broker].handled|, others);
    ghost var z, ns := net.cells, net.past;
    Finish(net, p);
    k := Hub(|net.past| - 1, net.At(), broker.subscribers);
    WorkedOff(net.pop, p, h, z, k, ns, net.past);
  }

  lemma WorkedOff<T, A, C, R>(
      pop: Population<T, A, C, R>, p: Payload<Letter<T>>, h: Hub<T, A, C, R>, z: Cells<T, A, C, R>, k: Hub<T, A, C, R>,
      ms: seq<World<T, A, C, R>>, ns: seq<World<T, A, C, R>>)
    requires pop.broker in h.world.cells && pop.broker in k.world.cells && IsNext(h.world.cells[pop.broker], p)
    requires k.world.cells[pop.broker].handled == h.world.cells[pop.broker].handled + [Entry(p, Completed)]
    requires AllCounted(h.world.cells) && h.subscribers.Keys <= h.world.cells.Keys
    requires Effect(RequestOf(p), |h.world.cells[pop.broker].handled|, h.world.cells, h.subscribers, z, k.subscribers)
    requires Rely({}, z, k.world.cells) && ms <= ns && h.time <= k.time == |ns| - 1
    requires IsPublish(RequestOf(p)) ==> Tried(ms, h.time, h.subscribers.Keys, k.subscribers.Keys)
    ensures TakesNext(pop, ns, h, k)
  {
    var c, d := h.world.cells[pop.broker], k.world.cells[pop.broker];
    RelyRefl({}, h.world.cells);
    EffectWider(RequestOf(p), |c.handled|, h.world.cells, h.world.cells, h.subscribers, z, k.world.cells,
                k.subscribers);
    assert PayloadsOf(d.handled) == PayloadsOf(c.handled) + [p];
    assert Log(pop, k.world) == Log(pop, h.world) + [RequestOf(p)];
    assert ns[..k.time + 1] == ns;
    if IsPublish(RequestOf(p)) {
      TriedStays(ms, ns, h.time, h.subscribers.Keys, k.subscribers.Keys, k.subscribers.Keys);
    }
  }

  lemma TakesNextStays<T, A, C, R>(
      pop: Population<T, A, C, R>, ms: seq<World<T, A, C, R>>, ns: seq<World<T, A, C, R>>, h: Hub<T, A, C, R>,
      k: Hub<T, A, C, R>)
    requires ms <= ns && TakesNext(pop, ms, h, k)
    ensures TakesNext(pop, ns, h, k)
  {
    assert ns[..k.time + 1] == ms[..k.time + 1];
  }

  lemma TurnStays<T, A, C, R>(
      pop: Population<T, A, C, R>, ms: seq<World<T, A, C, R>>, ns: seq<World<T, A, C, R>>,
      hs: seq<Hub<T, A, C, R>>, k: Hub<T, A, C, R>, i: nat)
    requires ms <= ns && i + 1 < |hs| && Turns(pop, ms, hs, i)
    ensures Turns(pop, ns, hs + [k], i)
  {
    var gs := hs + [k];
    assert gs[i] == hs[i] && gs[i + 1] == hs[i + 1];
    if TakesNext(pop, ms, hs[i], hs[i + 1]) {
      assert TakesNext(pop, ns, gs[i], gs[i + 1]) by { TakesNextStays(pop, ms, ns, hs[i], hs[i + 1]); }
    } else {
      assert Others(pop, gs[i], gs[i + 1]);
    }
  }

  lemma LastTurn<T, A, C, R>(
      pop: Population<T, A, C, R>, ns: seq<World<T, A, C, R>>, hs: seq<Hub<T, A, C, R>>, k: Hub<T, A, C, R>)
    requires hs != [] && hs[|hs| - 1].time <= k.time
    requires Others(pop, hs[|hs| - 1], k) || TakesNext(pop, ns, hs[|hs| - 1], k)
    ensures Turns(pop, ns, hs + [k], |hs| - 1)
  {
    assert (hs + [k])[|hs| - 1] == hs[|hs| - 1] && (hs + [k])[|hs|] == k;
  }

  lemma RunSnoc<T, A, C, R>(
      pop: Population<T, A, C, R>, ms: seq<World<T, A, C, R>>, hs: seq<Hub<T, A, C, R>>, ns: seq<World<T, A, C, R>>,
      k: Hub<T, A, C, R>)
    requires IsRun(pop, ms, hs) && ms <= ns && History(pop, ns) && Known(ns, k)
    requires var h := hs[|hs| - 1]; h.time <= k.time && (Others(pop, h, k) || TakesNext(pop, ns, h, k))
    ensures IsRun(pop, ns, hs + [k])
  {
    var gs := hs + [k];
    assert gs[0] == hs[0];
    LastTurn(pop, ns, hs, k);
    forall i | 0 <= i < |gs| ensures Known(ns, gs[i]) {
      if i < |hs| { assert Known(ms, hs[i]); }
    }
    forall i: nat | i < |gs| - 1 ensures Turns(pop, ns, gs, i) {
      if i < |hs| - 1 {
        assert Known(ms, hs[i + 1]) && Turns(pop, ms, hs, i);
        TurnStays(pop, ms, ns, hs, k, i);
      }
    }
  }

  // The broker's Start, and whatever happens around it.
  method StartUp<T, A, C, R>(net: Net<T, A, C, R>, others: seq<Move<T>>)
    requires net.Valid() && IsBroker(net.pop) && net.cells[net.pop.broker].phase == Starting
    modifies net
    ensures net.Valid() && old(net.past) <= net.past && net.cells[net.pop.broker].phase == Idle
    ensures Rely({}, old(net.cells), net.cells)
            && net.cells[net.pop.broker].handled == old(net.cells[net.pop.broker].handled)
  {
    net.Interfere({}, others);
    ghost var y := net.cells;
    StartsOk(net.pop, net.At()) by { net.NowSound(); }
    RelyStep(net.pop, {}, net.cells, net.pop.broker, Start);
    net.Perform(net.pop.broker, Start);
    RelyTrans({}, old(net.cells), y, net.cells);
  }

  lemma StartsOk<T, A, C, R>(pop: Population<T, A, C, R>, w: World<T, A, C, R>)
    requires Sound(pop, w) && IsBroker(pop) && w.cells[pop.broker].phase == Starting
    ensures pop.progs(pop.broker).startOk(w.cells[pop.broker].local)
  {
    assert Proper(pop, pop.broker, w.cells[pop.broker]);
  }

  // Between two turns others may act.
  method Pause<T, A, C, R>(
      net: Net<T, A, C, R>, others: seq<Move<T>>, ghost h: Hub<T, A, C, R>) returns (ghost k: Hub<T, A, C, R>)
    requires net.Valid() && h.world == net.At() && net.cells[net.pop.broker].phase == Idle
    modifies net
    ensures net.Valid() && old(net.past) <= net.past && net.cells[net.pop.broker].phase == Idle
    ensures k == Hub(|net.past| - 1, net.At(), h.subscribers) && Others(net.pop, h, k)
    ensures k.world == PlayedOut(net.pop, {}, h.world, others)
  {
    net.Interfere({}, others);
    k := Hub(|net.past| - 1, net.At(), h.subscribers);
  }

  lemma KeysExist<T, A, C, R>(pop: Population<T, A, C, R>, ms: seq<World<T, A, C, R>>, hs: seq<Hub<T, A, C, R>>)
    requires IsRun(pop, ms, hs)
    ensures var h := hs[|hs| - 1]; h.subscribers.Keys <= h.world.cells.Keys && pop.broker !in h.subscribers
  {
    RunKeeps(pop, ms, hs, |hs| - 1);
  }

  // The run so far, whose last hub is now.
  ghost predicate Recorded<T, A, C, R>(net: Net<T, A, C, R>, broker: Broker<T, A, C, R>, hubs: seq<Hub<T, A, C, R>>)
    reads net, broker
  {
    net.Valid() && IsRun(net.pop, net.past, hubs) && hubs[|hubs| - 1]
          == Hub(|net.past| - 1, net.At(), broker.subscribers)
  }

  // One hub more.
  ghost predicate Longer<T, A, C, R>(hs: seq<Hub<T, A, C, R>>, more: seq<Hub<T, A, C, R>>) {
    hs <= more && |more| == |hs| + 1
  }

  method PauseRecorded<T, A, C, R>(
      net: Net<T, A, C, R>, broker: Broker<T, A, C, R>, others: seq<Move<T>>, ghost hubs: seq<Hub<T, A, C, R>>)
    returns (ghost more: seq<Hub<T, A, C, R>>)
    requires Recorded(net, broker, hubs) && net.cells[net.pop.broker].phase == Idle
    modifies net
    ensures Recorded(net, broker, more) && old(net.past) <= net.past && net.cells[net.pop.broker].phase == Idle
    ensures Longer(hubs, more) && IsPause(net.pop, others, more, |hubs|)
  {
    ghost var ms := net.past;
    ghost var now := Pause(net, others, hubs[|hubs| - 1]);
    RunSnoc(net.pop, ms, hubs, net.past, now);
    more := hubs + [now];
  }

  method TakeRecorded<T, A, C, R>(net: Net<T, A, C, R>, broker: Broker<T, A, C, R>, ghost hubs: seq<Hub<T, A, C, R>>)
    returns (p: Payload<Letter<T>>, ghost more: seq<Hub<T, A, C, R>>)
    requires Recorded(net, broker, hubs)
    requires net.cells[net.pop.broker].phase == Idle && net.cells[net.pop.broker].chan.queue != []
    modifies net
    ensures Recorded(net, broker, more) && old(net.past) <= net.past && AtWork(net, p)
    ensures Longer(hubs, more) && IsTake(net.pop, more, |hubs|, RequestOf(p))
  {
    ghost var ms := net.past;
    ghost var now;
    p, now := TakeNext(net, hubs[|hubs| - 1]);
    RunSnoc(net.pop, ms, hubs, net.past, now);
    more := hubs + [now];
  }

  method WorkRecorded<T, A, C, R>(net: Net<T, A, C, R>, broker: Broker<T, A, C, R>, p: Payload<Letter<T>>,
                                  others: (nat, nat, nat) -> seq<Move<T>>, ghost hubs: seq<Hub<T, A, C, R>>)
    returns (ghost more: seq<Hub<T, A, C, R>>)
    requires Recorded(net, broker, hubs) && IsBroker(net.pop) && AtWork(net, p)
    modifies net, broker
    ensures Recorded(net, broker, more) && old(net.past) <= net.past && net.cells[net.pop.broker].phase == Idle
    ensures Longer(hubs, more) && Handling(net.pop, more, |hubs| - 1, RequestOf(p))
  {
    ghost var ms := net.past;
    KeysExist(net.pop, ms, hubs);
    ghost var now := WorkOff(net, broker, p, others, hubs[|hubs| - 1]);
    RunSnoc(net.pop, ms, hubs, net.past, now);
    more := hubs + [now];
    WorkIsHandling(net.pop, net.past, hubs, now, p);
  }

  lemma WorkIsHandling<T, A, C, R>(
      pop: Population<T, A, C, R>, ms: seq<World<T, A, C, R>>, hs: seq<Hub<T, A, C, R>>, k: Hub<T, A, C, R>,
      p: Payload<Letter<T>>)
    requires hs != [] && TakesNext(pop, ms, hs[|hs| - 1], k) && IsNext(hs[|hs| - 1].world.cells[pop.broker], p)
    ensures Handling(pop, hs + [k], |hs| - 1, RequestOf(p))
  {
    assert (hs + [k])[|hs| - 1] == hs[|hs| - 1] && (hs + [k])[|hs|] == k;
  }

  method BeginRun<T, A, C, R>(net: Net<T, A, C, R>, broker: Broker<T, A, C, R>, others: seq<Move<T>>)
    returns (ghost hubs: seq<Hub<T, A, C, R>>)
    requires IsBroker(net.pop) && broker.subscribers == map[] && net.Valid() && |net.past| == 1
    requires net.cells == map[net.pop.broker := NewCell(net.pop.locals(net.pop.broker))]
    modifies net
    ensures Recorded(net, broker, hubs) && old(net.past) <= net.past && net.cells[net.pop.broker].phase == Idle
    ensures |hubs| == 2
  {
    ghost var first, ms := [Hub(0, net.At(), map[])], net.past;
    assert IsRun(net.pop, ms, first);
    StartUp(net, others);
    ghost var now := Hub(|net.past| - 1, net.At(), broker.subscribers);
    RunSnoc(net.pop, ms, first, net.past, now);
    hubs := first + [now];
  }

  // An idle loop has something to do exactly while it has not handled all that its mailbox accepted.
  lemma IdleDrained<T, A, C, R>(pop: Population<T, A, C, R>, w: World<T, A, C, R>)
    requires Sound(pop, w) && w.cells[pop.broker].phase == Idle
    ensures w.cells[pop.broker].chan.queue == [] <==> |Log(pop, w)| >= |Inbox(pop, w)|
  {
    assert Proper(pop, pop.broker, w.cells[pop.broker]);
  }

  // Between two turns.
  ghost predicate Waiting<T, A, C, R>(
      net: Net<T, A, C, R>, broker: Broker<T, A, C, R>, hubs: seq<Hub<T, A, C, R>>, was: seq<World<T, A, C, R>>)
    reads net, broker
  {
    Recorded(net, broker, hubs) && was <= net.past && net.cells[net.pop.broker].phase == Idle
  }

  // The loop has taken the request r and worked it off.
  ghost predicate Worked<T, A, C, R>(
      pop: Population<T, A, C, R>, hs: seq<Hub<T, A, C, R>>, more: seq<Hub<T, A, C, R>>, r: Option<Request<T>>)
  {
    hs <= more && |more| == |hs| + 2 && IsTake(pop, more, |hs|, r) && Handling(pop, more, |hs|, r)
  }

  method TakeAndWork<T, A, C, R>(net: Net<T, A, C, R>, broker: Broker<T, A, C, R>,
                                 others: (nat, nat, nat) -> seq<Move<T>>, ghost hubs: seq<Hub<T, A, C, R>>)
    returns (ghost r: Option<Request<T>>, ghost more: seq<Hub<T, A, C, R>>)
    requires Recorded(net, broker, hubs) && IsBroker(net.pop)
    requires net.cells[net.pop.broker].phase == Idle && net.cells[net.pop.broker].chan.queue != []
    modifies net, broker
    ensures Waiting(net, broker, more, old(net.past)) && Worked(net.pop, hubs, more, r)
  {
    var p;
    p, more := TakeRecorded(net, broker, hubs);
    r := RequestOf(p);
    ghost var taken := more;
    more := WorkRecorded(net, broker, p, others, taken);
    TakenAndWorked(net.pop, hubs, taken, more, r);
  }

  lemma TakenAndWorked<T, A, C, R>(
      pop: Population<T, A, C, R>, hs: seq<Hub<T, A, C, R>>, taken: seq<Hub<T, A, C, R>>, more: seq<Hub<T, A, C, R>>,
      r: Option<Request<T>>)
    requires hs != [] && Longer(hs, taken) && Longer(taken, more)
    requires IsTake(pop, taken, |hs|, r) && Handling(pop, more, |hs|, r)
    ensures Worked(pop, hs, more, r)
  {
    assert forall k :: 0 <= k <= |hs| ==> more[k] == taken[k];
  }

  // One turn of the loop: others act, then the next message is taken and worked off, if there is one.
  method OneTurn<T, A, C, R>(net: Net<T, A, C, R>, broker: Broker<T, A, C, R>,
                             others: (nat, nat, nat, nat) -> seq<Move<T>>, i: nat, ghost hubs: seq<Hub<T, A, C, R>>)
    returns (ghost more: seq<Hub<T, A, C, R>>)
    requires Waiting(net, broker, hubs, net.past) && IsBroker(net.pop)
    modifies net, broker
    ensures Waiting(net, broker, more, old(net.past))
    ensures hubs <= more && TurnServes(net.pop, others(i, 0, 0, 0), more, |hubs|, |more|)
  {
    ghost var paused := PauseRecorded(net, broker, others(i, 0, 0, 0), hubs);
    more := paused;
    HubDrained(net, broker, paused);
    if net.cells[net.pop.broker].chan.queue != [] {
      ghost var r;
      r, more := TakeAndWork(net, broker, (a: nat, b: nat, c: nat) => others(i, a + 1, b, c), paused);
      WorkServes(net.pop, others(i, 0, 0, 0), hubs, paused, more, r);
    }
  }

  lemma HubDrained<T, A, C, R>(net: Net<T, A, C, R>, broker: Broker<T, A, C, R>, hubs: seq<Hub<T, A, C, R>>)
    requires Recorded(net, broker, hubs) && net.cells[net.pop.broker].phase == Idle
    ensures var w := hubs[|hubs| - 1].world;
            net.pop.broker in w.cells
            && (net.cells[net.pop.broker].chan.queue == [] <==> |Log(net.pop, w)| >= |Inbox(net.pop, w)|)
  {
    net.NowSound();
    IdleDrained(net.pop, net.At());
  }

  lemma WorkServes<T, A, C, R>(
      pop: Population<T, A, C, R>, others: seq<Move<T>>, hs: seq<Hub<T, A, C, R>>, paused: seq<Hub<T, A, C, R>>,
      more: seq<Hub<T, A, C, R>>, r: Option<Request<T>>)
    requires Longer(hs, paused) && IsPause(pop, others, paused, |hs|) && Worked(pop, paused, more, r)
    ensures TurnServes(pop, others, more, |hs|, |more|)
  {
    assert forall k :: 0 <= k <= |hs| ==> more[k] == paused[k];
  }

  // The loop of a broker just spawned through the registry, for any number of turns and any schedule
  // of everybody else: what it goes through is a run, in which everybody makes the moves of the schedule
  // and every turn that finds a message works off the next one. Turn i begins at the hub marks[i].
  method Serve<T, A, C, R>(net: Net<T, A, C, R>, broker: Broker<T, A, C, R>, turns: nat,
                           others: (nat, nat, nat, nat) -> seq<Move<T>>)
    returns (ghost hubs: seq<Hub<T, A, C, R>>, ghost marks: seq<nat>)
    requires IsBroker(net.pop) && broker.subscribers == map[] && net.Valid() && |net.past| == 1
    requires net.cells == map[net.pop.broker := NewCell(net.pop.locals(net.pop.broker))]
    modifies net, broker
    ensures IsRun(net.pop, net.past, hubs) && old(net.past) <= net.past
    ensures hubs[|hubs| - 1] == Hub(|net.past| - 1, net.At(), broker.subscribers)
    ensures |marks| == turns + 1 && AllServe(net.pop, others, hubs, marks)
  {
    hubs := BeginRun(net, broker, others(0, 0, 0, 0));
    hubs, marks := ServeTurns(net, broker, turns, others, hubs);
  }

  // Its `while`.
  method ServeTurns<T, A, C, R>(net: Net<T, A, C, R>, broker: Broker<T, A, C, R>, turns: nat,
                                others: (nat, nat, nat, nat) -> seq<Move<T>>, ghost begun: seq<Hub<T, A, C, R>>)
    returns (ghost hubs: seq<Hub<T, A, C, R>>, ghost marks: seq<nat>)
    requires Waiting(net, broker, begun, net.past) && IsBroker(net.pop)
    modifies net, broker
    ensures Waiting(net, broker, hubs, old(net.past))
    ensures |marks| == turns + 1 && AllServe(net.pop, others, hubs, marks)
  {
    hubs, marks := begun, [|begun|];
    for i := 0 to turns
      invariant Waiting(net, broker, hubs, old(net.past))
      invariant |marks| == i + 1 && AllServe(net.pop, others, hubs, marks)
    {
      ghost var before := hubs;
      hubs := OneTurn(net, broker, others, i + 1, hubs);
      marks := ServeMore(net.pop, others, before, hubs, marks);
    }
  }

  // ---------------------------------------------------------------- the loop keeps up

  // At hub a everybody else has made their moves.
  ghost predicate IsPause<T, A, C, R>(
      pop: Population<T, A, C, R>, others: seq<Move<T>>, hs: seq<Hub<T, A, C, R>>, a: nat) {
    && 0 < a < |hs| && pop.broker in hs[a - 1].world.cells && pop.broker in hs[a].world.cells
    && hs[a].world == PlayedOut(pop, {}, hs[a - 1].world, others)
  }

  // At hub b the loop has taken the request r, which is the next one it had accepted.
  ghost predicate IsTake<T, A, C, R>(
      pop: Population<T, A, C, R>, hs: seq<Hub<T, A, C, R>>, b: nat, r: Option<Request<T>>) {
    && 0 < b < |hs| && pop.broker in hs[b - 1].world.cells && pop.broker in hs[b].world.cells
    && Log(pop, hs[b].world) == Log(pop, hs[b - 1].world)
    && |Log(pop, hs[b - 1].world)| < |Inbox(pop, hs[b - 1].world)|
    && r == Inbox(pop, hs[b - 1].world)[|Log(pop, hs[b - 1].world)|]
  }

  // A turn over the hubs from a up to z: after the others' moves, the loop works off the next request of
  // its inbox if there is one.
  ghost predicate TurnServes<T, A, C, R>(
      pop: Population<T, A, C, R>, others: seq<Move<T>>, hs: seq<Hub<T, A, C, R>>, a: nat, z: nat) {
    && a < z <= |hs| && IsPause(pop, others, hs, a)
    && (|Log(pop, hs[a].world)| < |Inbox(pop, hs[a].world)| ==>
          a + 2 < z && IsTake(pop, hs, a + 1, Inbox(pop, hs[a].world)[|Log(pop, hs[a].world)|])
          && Handling(pop, hs, a + 1, Inbox(pop, hs[a].world)[|Log(pop, hs[a].world)|]))
  }

  ghost predicate AllServe<T, A, C, R>(
      pop: Population<T, A, C, R>, others: (nat, nat, nat, nat) -> seq<Move<T>>, hs: seq<Hub<T, A, C, R>>,
      marks: seq<nat>)
  {
    && marks != [] && marks[|marks| - 1] == |hs|
    && forall i: nat {:trigger others(i + 1, 0, 0, 0)} :: i < |marks| - 1 ==>
         TurnServes(pop, others(i + 1, 0, 0, 0), hs, marks[i], marks[i + 1])
  }

  lemma TurnServesStill<T, A, C, R>(
      pop: Population<T, A, C, R>, others: seq<Move<T>>, hs: seq<Hub<T, A, C, R>>, more: seq<Hub<T, A, C, R>>, a: nat,
      z: nat)
    requires TurnServes(pop, others, hs, a, z) && hs <= more
    ensures TurnServes(pop, others, more, a, z)
  {
    assert forall k :: 0 <= k < |hs| ==> more[k] == hs[k];
  }

  lemma ServeMore<T, A, C, R>(
      pop: Population<T, A, C, R>, others: (nat, nat, nat, nat) -> seq<Move<T>>, hs: seq<Hub<T, A, C, R>>,
      more: seq<Hub<T, A, C, R>>, marks: seq<nat>)
    returns (ns: seq<nat>)
    requires AllServe(pop, others, hs, marks) && hs <= more
    requires TurnServes(pop, others(|marks|, 0, 0, 0), more, |hs|, |more|)
    ensures |ns| == |marks| + 1 && AllServe(pop, others, more, ns)
  {
    ns := marks + [|more|];
    forall i: nat | i < |ns| - 1 ensures TurnServes(pop, others(i + 1, 0, 0, 0), more, ns[i], ns[i + 1]) {
      if i < |marks| - 1 { TurnServesStill(pop, others(i + 1, 0, 0, 0), hs, more, marks[i], marks[i + 1]); }
    }
  }

  lemma {:induction false} LogGrows<T, A, C, R>(
      pop: Population<T, A, C, R>, ms: seq<World<T, A, C, R>>, hs: seq<Hub<T, A, C, R>>, a: nat, b: nat)
    requires IsRun(pop, ms, hs) && a <= b < |hs|
    ensures pop.broker in hs[a].world.cells && pop.broker in hs[b].world.cells
    ensures |Log(pop, hs[a].world)| <= |Log(pop, hs[b].world)| && |Inbox(pop, hs[a].world)| <= |Inbox(pop, hs[b].world)|
    decreases b
  {
    RunKeeps(pop, ms, hs, b);
    if a < b {
      var k := b - 1;
      LogGrows(pop, ms, hs, a, k);
      assert Turns(pop, ms, hs, k) && Known(ms, hs[k]) && Known(ms, hs[k + 1]);
      LaterMoments(pop, ms, hs[k].time, hs[k + 1].time, pop.broker);
    }
  }

  // The loop keeps up: of what was accepted when turn i began it has handled, at the end, one request for each
  // turn since, or all of it.
  lemma {:induction false} KeepsUp<T, A, C, R>(
      pop: Population<T, A, C, R>, ms: seq<World<T, A, C, R>>, others: (nat, nat, nat, nat) -> seq<Move<T>>,
      hs: seq<Hub<T, A, C, R>>, marks: seq<nat>, i: nat, j: nat)
    requires IsRun(pop, ms, hs) && AllServe(pop, others, hs, marks) && i <= j < |marks| && marks[i] < |hs|
    ensures pop.broker in hs[marks[i]].world.cells && pop.broker in hs[|hs| - 1].world.cells
    ensures var last := if marks[j] < |hs| then marks[j] else |hs| - 1;
            marks[i] <= last && pop.broker in hs[last].world.cells
            && (|Log(pop, hs[last].world)| >= |Inbox(pop, hs[marks[i]].world)|
                || |Log(pop, hs[last].world)| >= |Log(pop, hs[marks[i]].world)| + (j - i))
    decreases j
  {
    LogGrows(pop, ms, hs, marks[i], |hs| - 1);
    if i < j {
      var k := j - 1;
      KeepsUp(pop, ms, others, hs, marks, i, k);
      assert TurnServes(pop, others(k + 1, 0, 0, 0), hs, marks[k], marks[k + 1]);
      TurnGains(pop, ms, others(k + 1, 0, 0, 0), hs, marks[k], marks[k + 1]);
      LogGrows(pop, ms, hs, marks[i], marks[k]);
    }
  }

  lemma TurnGains<T, A, C, R>(
      pop: Population<T, A, C, R>, ms: seq<World<T, A, C, R>>, others: seq<Move<T>>, hs: seq<Hub<T, A, C, R>>, a: nat,
      z: nat)
    requires IsRun(pop, ms, hs) && TurnServes(pop, others, hs, a, z)
    ensures var last := if z < |hs| then z else |hs| - 1;
            a <= last && pop.broker in hs[last].world.cells
            && |Log(pop, hs[last].world)| >= |Log(pop, hs[a].world)|
            && (|Log(pop, hs[a].world)| < |Inbox(pop, hs[a].world)| ==>
                  |Log(pop, hs[last].world)| > |Log(pop, hs[a].world)|)
  {
    var last := if z < |hs| then z else |hs| - 1;
    LogGrows(pop, ms, hs, a, last);
    if |Log(pop, hs[a].world)| < |Inbox(pop, hs[a].world)| { LogGrows(pop, ms, hs, a + 2, last); }
  }

  // Whatever the log has at its end was worked off at a turn of its own: u.
  lemma {:induction false} LoggedWasHandled<T, A, C, R>(
      pop: Population<T, A, C, R>, ms: seq<World<T, A, C, R>>, hs: seq<Hub<T, A, C, R>>, n: nat, p: nat)
    returns (u: nat)
    requires IsRun(pop, ms, hs) && n < |hs| && pop.broker in hs[n].world.cells && p < |Log(pop, hs[n].world)|
    ensures u < n && Handling(pop, hs, u, Log(pop, hs[n].world)[p]) && |Log(pop, hs[u].world)| == p
    decreases n
  {
    if n > 0 {
      var k := n - 1;
      LogGrows(pop, ms, hs, k, n);
      assert Turns(pop, ms, hs, k);
      if p < |Log(pop, hs[k].world)| { u := LoggedWasHandled(pop, ms, hs, k, p); } else { u := k; }
    }
  }
}
