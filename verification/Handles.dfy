/** One actor's mailbox with its two sending paths, and the counted handles that keep them alive
    (src/channel.rs, src/addr.rs, src/addr/). */
module Handles {
  import opened Messages

  type RefId = nat

  // What can hold a sending path. An `Addr` also owns a clone of the shared running future, which
  // it may have polled to completion. A `Calling` is the future of a `Caller` call, which keeps a
  // clone of the awaiting path until it ends; a `SendFut` is an enqueueing future that owns an mpsc
  // sender from its creation and the payload until it is polled, a `Flush` one that was polled.
  datatype Ref<M> =
    | Addr(polled: bool)
    | Sender
    | Caller
    | Calling(call: CallId)
    | SendFut(work: Work<M>, reply: Option<CallId>)
    | Flush

  predicate HoldsTx<M>(r: Ref<M>) { r.Addr? || r.Sender? || r.Caller? || r.Calling? }

  predicate HoldsForce<M>(r: Ref<M>) { r.Addr? || r.Sender? }

  predicate HoldsMpsc<M>(r: Ref<M>) { r.SendFut? || r.Flush? }

  // tx and force are the strong counts of the Arcs behind the awaiting and the force path; each
  // closure owns one mpsc sender, every pending send another. `accepted` is the log of everything
  // ever enqueued.
  datatype Chan<M> = Chan(
    refs: map<RefId, Ref<M>>,
    tx: int,
    force: int,
    mpsc: int,
    queue: seq<Payload<M>>,
    open: bool,
    accepted: seq<Payload<M>>)

  function One(b: bool): int { if b then 1 else 0 }

  // The channel as `create_loop` hands it out: one Addr, nothing sent.
  function NewChan<M>(): Chan<M> {
    Chan(map[0 := Addr(false)], 1, 1, 2, [], true, [])
  }

  function Acquire<M>(c: Chan<M>, n: RefId, r: Ref<M>): Chan<M> {
    c.(refs := c.refs[n := r],
       tx := c.tx + One(HoldsTx(r)),
       force := c.force + One(HoldsForce(r)),
       mpsc := c.mpsc + One(HoldsMpsc(r)))
  }

  // Dropping the last strong reference to a path drops its closure and the mpsc sender inside.
  function Release<M>(c: Chan<M>, n: RefId): Chan<M>
    requires n in c.refs
  {
    var r := c.refs[n];
    var tx := c.tx - One(HoldsTx(r));
    var force := c.force - One(HoldsForce(r));
    c.(refs := c.refs - {n}, tx := tx, force := force,
       mpsc := c.mpsc - One(HoldsMpsc(r)) - One(HoldsTx(r) && tx == 0) - One(HoldsForce(r) && force == 0))
  }

  function Push<M>(c: Chan<M>, p: Payload<M>): Chan<M> {
    c.(queue := c.queue + [p], accepted := c.accepted + [p])
  }

  // Polling the running future or enqueueing changes what a ref is, not what it holds.
  function Become<M>(c: Chan<M>, n: RefId, r: Ref<M>): Chan<M> {
    c.(refs := c.refs[n := r])
  }

  function CloseRx<M>(c: Chan<M>): Chan<M> {
    c.(queue := [], open := false)
  }

  // `weak_tx.upgrade().zip(weak_force_tx.upgrade())` for addresses and senders, the awaiting path
  // alone for callers.
  function UpgradeBoth<M>(c: Chan<M>, n: RefId, r: Ref<M>): Option<Chan<M>> {
    if c.tx > 0 && c.force > 0 then Some(Acquire(c, n, r)) else None
  }

  function UpgradeCaller<M>(c: Chan<M>, n: RefId): Option<Chan<M>> {
    if c.tx > 0 then Some(Acquire(c, n, Caller)) else None
  }

  // ---------------------------------------------------------------- counting

  function Count<M>(refs: map<RefId, Ref<M>>, p: Ref<M> -> bool): nat {
    |Where(refs, p)|
  }

  function Where<M>(refs: map<RefId, Ref<M>>, p: Ref<M> -> bool): set<RefId> {
    set n | n in refs && p(refs[n])
  }

  ghost predicate Counted<M>(c: Chan<M>) {
    && c.tx == Count(c.refs, HoldsTx)
    && c.force == Count(c.refs, HoldsForce)
    && c.mpsc == Count(c.refs, HoldsMpsc) + One(c.tx > 0) + One(c.force > 0)
  }

  lemma CountAdd<M>(refs: map<RefId, Ref<M>>, n: RefId, r: Ref<M>, p: Ref<M> -> bool)
    requires n !in refs
    ensures Count(refs[n := r], p) == Count(refs, p) + One(p(r))
  {
    assert Where(refs[n := r], p) == if p(r) then Where(refs, p) + {n} else Where(refs, p);
  }

  lemma CountRemove<M>(refs: map<RefId, Ref<M>>, n: RefId, p: Ref<M> -> bool)
    requires n in refs
    ensures Count(refs - {n}, p) == Count(refs, p) - One(p(refs[n]))
  {
    assert refs == (refs - {n})[n := refs[n]];
    CountAdd(refs - {n}, n, refs[n], p);
  }

  lemma CountBecome<M>(refs: map<RefId, Ref<M>>, n: RefId, r: Ref<M>, p: Ref<M> -> bool)
    requires n in refs
    ensures Count(refs[n := r], p) == Count(refs, p) - One(p(refs[n])) + One(p(r))
  {
    CountRemove(refs, n, p);
    CountAdd(refs - {n}, n, r, p);
    assert refs[n := r] == (refs - {n})[n := r];
  }

  lemma CountPositive<M>(refs: map<RefId, Ref<M>>, p: Ref<M> -> bool)
    ensures Count(refs, p) > 0 <==> exists n :: n in refs && p(refs[n])
  {
    if Where(refs, p) != {} {
      var n :| n in Where(refs, p);
    }
    forall n | n in refs && p(refs[n]) ensures Count(refs, p) > 0 {
      assert n in Where(refs, p);
    }
  }

  lemma NewChanCounted<M>()
    ensures Counted(NewChan<M>())
  {
    var empty: map<RefId, Ref<M>> := map[];
    CountAdd(empty, 0, Addr(false), HoldsTx);
    CountAdd(empty, 0, Addr(false), HoldsForce);
    CountAdd(empty, 0, Addr(false), HoldsMpsc);
    assert Count(empty, HoldsTx) == 0;
    assert Count(empty, HoldsForce) == 0;
    assert Count(empty, HoldsMpsc) == 0;
    assert empty[0 := Addr(false)] == NewChan<M>().refs;
  }

  // A path can only be cloned while somebody holds it, so no closure comes back to life.
  ghost predicate MayAcquire<M>(c: Chan<M>, n: RefId, r: Ref<M>) {
    n !in c.refs && (HoldsTx(r) ==> c.tx > 0) && (HoldsForce(r) ==> c.force > 0) && (HoldsMpsc(r) ==> c.tx > 0)
  }

  lemma AcquireCounted<M>(c: Chan<M>, n: RefId, r: Ref<M>)
    requires Counted(c) && MayAcquire(c, n, r)
    ensures Counted(Acquire(c, n, r))
  {
    CountAdd(c.refs, n, r, HoldsTx);
    CountAdd(c.refs, n, r, HoldsForce);
    CountAdd(c.refs, n, r, HoldsMpsc);
  }

  lemma ReleaseCounted<M>(c: Chan<M>, n: RefId)
    requires Counted(c) && n in c.refs
    ensures Counted(Release(c, n))
  {
    CountRemove(c.refs, n, HoldsTx);
    CountRemove(c.refs, n, HoldsForce);
    CountRemove(c.refs, n, HoldsMpsc);
    Held(c, n);
  }

  lemma BecomeCounted<M>(c: Chan<M>, n: RefId, r: Ref<M>)
    requires Counted(c) && n in c.refs
    requires var q := c.refs[n];
             HoldsTx(q) == HoldsTx(r) && HoldsForce(q) == HoldsForce(r) && HoldsMpsc(q) == HoldsMpsc(r)
    ensures Counted(Become(c, n, r))
  {
    CountBecome(c.refs, n, r, HoldsTx);
    CountBecome(c.refs, n, r, HoldsForce);
    CountBecome(c.refs, n, r, HoldsMpsc);
  }

  // A held ref keeps what it holds alive.
  lemma Held<M>(c: Chan<M>, n: RefId)
    requires Counted(c) && n in c.refs
    ensures HoldsTx(c.refs[n]) ==> c.tx > 0
    ensures HoldsForce(c.refs[n]) ==> c.force > 0
    ensures c.mpsc > 0
  {
    CountPositive(c.refs, HoldsTx);
    CountPositive(c.refs, HoldsForce);
    CountPositive(c.refs, HoldsMpsc);
  }

  // The force path never outlives the awaiting one, so `zip` is decided by the force count alone.
  lemma ForceBelowTx<M>(c: Chan<M>)
    requires Counted(c)
    ensures 0 <= c.force <= c.tx && (c.mpsc == 0 ==> c.tx == 0)
  {
    SubsetCard(Where(c.refs, HoldsForce), Where(c.refs, HoldsTx));
  }

  lemma {:induction false} SubsetCard<T>(a: set<T>, b: set<T>)
    requires a <= b
    ensures |a| <= |b|
  {
    assert b == a + (b - a);
  }

  // The first count is the number of Addrs, Senders, Callers and Caller calls in flight, the second
  // that of Addrs and Senders.
  lemma CountsByKind<M>(c: Chan<M>)
    requires Counted(c)
    ensures c.tx == Count(c.refs, (r: Ref<M>) => r.Addr?) + Count(c.refs, (r: Ref<M>) => r.Sender?)
                    + Count(c.refs, (r: Ref<M>) => r.Caller?) + Count(c.refs, (r: Ref<M>) => r.Calling?)
    ensures c.force == Count(c.refs, (r: Ref<M>) => r.Addr?) + Count(c.refs, (r: Ref<M>) => r.Sender?)
  {
    KindsAdd(c.refs);
  }

  lemma {:induction false} KindsAdd<M>(refs: map<RefId, Ref<M>>)
    ensures Count(refs, HoldsTx)
            == Count(refs, (r: Ref<M>) => r.Addr?) + Count(refs, (r: Ref<M>) => r.Sender?)
               + Count(refs, (r: Ref<M>) => r.Caller?) + Count(refs, (r: Ref<M>) => r.Calling?)
    ensures Count(refs, HoldsForce)
            == Count(refs, (r: Ref<M>) => r.Addr?) + Count(refs, (r: Ref<M>) => r.Sender?)
    decreases |refs|
  {
    if refs != map[] {
      var n :| n in refs;
      assert |refs - {n}| < |refs| by {
        assert refs.Keys == (refs - {n}).Keys + {n};
      }
      KindsAdd(refs - {n});
      CountRemove(refs, n, HoldsTx);
      CountRemove(refs, n, HoldsForce);
      CountRemove(refs, n, (r: Ref<M>) => r.Addr?);
      CountRemove(refs, n, (r: Ref<M>) => r.Sender?);
      CountRemove(refs, n, (r: Ref<M>) => r.Caller?);
      CountRemove(refs, n, (r: Ref<M>) => r.Calling?);
    }
  }
}
