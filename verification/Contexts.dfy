/** The context's own bookkeeping (src/context.rs): the children it keeps alive and the background
    tasks it aborts when it goes, with what both mean for the actors concerned. */
module Contexts {
  import opened Messages
  import opened Sequential
  import opened Handles
  import opened Actors
  import opened Addresses

  // `futures::future::AbortHandle`: the task it belongs to asks it before every step.
  class AbortHandle {
    var aborted: bool

    constructor ()
      ensures !aborted
    {
      aborted := false;
    }

    method Abort()
      modifies this
      ensures aborted
    {
      aborted := true;
    }
  }

  // One round of `interval`: sleep, then force a message to the actor if it can be upgraded. An
  // aborted task does nothing any more.
  method Tick<M, A, C, R>(handle: AbortHandle, myself: Shared<M, A, C, R>, n: RefId, message: M) returns (goesOn: bool)
    requires myself.Valid() && n !in myself.refs
    modifies myself
    ensures handle.aborted ==> !goesOn && myself.At() == old(myself.At())
    ensures goesOn <==> !handle.aborted && old(myself.open)
                        && exists h :: h in old(myself.refs) && HoldsForce(old(myself.refs)[h])
    ensures goesOn ==> myself.accepted == old(myself.accepted) + [Task(Handle(message), None)]
    ensures !goesOn ==> myself.accepted == old(myself.accepted)
    ensures myself.Valid() && myself.refs == old(myself.refs)
  {
    if handle.aborted { return false; }
    var r := myself.TryForceSend(n, message);
    goesOn := r.Ok?;
  }

  // A strong `Sender<()>`: the child and the name of the ref.
  type Child<!M, !A, !C, !R> = (Shared<M, A, C, R>, RefId)

  class Context<M, A, C, R> {
    var children: seq<Child<M, A, C, R>>
    var tasks: seq<AbortHandle>
    // every task ever spawned, and those of `tasks` by name
    ghost var handles: map<TimerId, AbortHandle>
    ghost var names: seq<TimerId>

    constructor ()
      ensures children == [] && Tracking() && handles == map[] && names == []
    {
      children, tasks, handles, names := [], [], map[], [];
    }

    ghost function Objects(): set<Shared<M, A, C, R>>
      reads this
    {
      set i | 0 <= i < |children| :: children[i].0
    }

    // Each entry is a living Sender of its child's channel.
    ghost predicate Keeping()
      reads this, Objects()
    {
      && (forall i :: 0 <= i < |children| ==>
            children[i].0 in Objects() && children[i].0.Valid() && HoldsChild(children[i]))
      && (forall i, j :: 0 <= i < j < |children| ==> children[i] != children[j])
    }

    // The tasks are those of the names, and no two names share a handle.
    ghost predicate Tracking()
      reads this
    {
      && |names| == |tasks| && (forall i :: 0 <= i < |names| ==> names[i] in handles && tasks[i] == handles[names[i]])
      && (forall t, u :: t in handles && u in handles && handles[t] == handles[u] ==> t == u)
    }

    // The context is that of the actor c: same tasks, and exactly those aborted that should be.
    ghost predicate Mirrors(c: Cell<M, A, C, R>)
      reads this, handles.Values
    {
      && Tracking() && names == c.tasks && handles.Keys == c.spawned
      && (forall t :: t in handles ==> (handles[t].aborted <==> t in c.aborted))
    }

    // `add_child(child.into())`: the Addr given becomes a Sender that the context holds, so the child
    // can be reached, and goes on living, whatever becomes of everybody else's handles.
    method AddChild(child: Shared<M, A, C, R>, h: RefId, n: RefId)
      requires Keeping() && child.Valid() && h in child.refs && child.refs[h].Addr? && n !in child.refs
      modifies this`children, child`refs, child`tx, child`force, child`mpsc
      ensures Keeping() && children == old(children) + [(child, n)]
      ensures child.refs == old(child.refs)[n := Sender] - {h} && child.tx > 0 && child.force > 0
    {
      forall i | 0 <= i < |children| ensures children[i] != (child, n) && children[i] != (child, h) {
        assert HoldsChild(children[i]);
      }
      ghost var before := children;
      Adopt(child, h, n);
      children := children + [(child, n)];
      forall i | 0 <= i < |children|
        ensures children[i].0 in Objects() && children[i].0.Valid() && HoldsChild(children[i])
      {
        if i < |before| { assert children[i] == before[i]; }
      }
    }

    static method Adopt(child: Shared<M, A, C, R>, h: RefId, n: RefId)
      requires child.Valid() && h in child.refs && child.refs[h].Addr? && n !in child.refs
      modifies child`refs, child`tx, child`force, child`mpsc
      ensures child.Valid() && child.refs == old(child.refs)[n := Sender] - {h} && child.tx > 0 && child.force > 0
    {
      child.IntoSender(h, n);
      Held(child.At().chan, n);
    }

    // interval, interval_with and delayed_send all go through here.
    method SpawnTask(
        ghost prog: Program<M, A, C, R>, ghost c: Cell<M, A, C, R>, ghost t: TimerId) returns (handle: AbortHandle)
      requires Mirrors(c) && (c.phase in {Starting, Refreshing, Stopping} || c.phase.Busy?) && t !in c.spawned
      requires TimersTracked(c)
      modifies this`tasks, this`handles, this`names
      ensures fresh(handle) && !handle.aborted && tasks == old(tasks) + [handle]
      ensures Can(prog, c, SpawnTimer(t)) && Mirrors(Next(prog, c, SpawnTimer(t)))
    {
      handle := new AbortHandle();
      tasks, handles, names := tasks + [handle], handles[t := handle], names + [t];
    }

    // `for task in self.tasks.drain(..) { task.abort(); }`
    method Drain()
      modifies this`tasks, tasks
      ensures tasks == [] && (forall h :: h in old(tasks) ==> h.aborted)
    {
      ghost var all := tasks;
      while tasks != []
        invariant |tasks| <= |all| && tasks == all[|all| - |tasks|..]
        invariant forall i :: 0 <= i < |all| - |tasks| ==> all[i].aborted
        modifies this`tasks, all
        decreases |tasks|
      {
        var task := tasks[0];
        tasks := tasks[1..];
        task.Abort();
      }
    }

    lemma NamesHandles(c: Cell<M, A, C, R>, t: TimerId)
      requires Mirrors(c) && t in handles
      ensures handles[t] in tasks <==> t in c.tasks
    {
      if t in names { var i :| 0 <= i < |names| && names[i] == t; assert tasks[i] == handles[t]; }
      if handles[t] in tasks {
        var i :| 0 <= i < |tasks| && tasks[i] == handles[t]; assert handles[names[i]] == handles[t];
      }
    }

    // What the drain does is what the end of the loop does to the actor's background tasks.
    method DropTasks(ghost prog: Program<M, A, C, R>, ghost c: Cell<M, A, C, R>)
      requires Mirrors(c) && Can(prog, c, Leave)
      modifies this`tasks, this`names, tasks
      ensures tasks == [] && (forall h :: h in old(tasks) ==> h.aborted)
      ensures Mirrors(Next(prog, c, Leave))
    {
      forall t | t in handles ensures handles[t] in tasks <==> t in c.tasks { NamesHandles(c, t); }
      ghost var all := tasks;
      Drain();
      names := [];
      forall t | t in handles ensures handles[t].aborted <==> t in c.aborted || t in c.tasks {
        if handles[t] !in all { assert handles[t].aborted == old(handles[t].aborted); }
      }
    }

    // The names under which one child is held by some of the entries.
    static ghost function NamesOf(cs: seq<Child<M, A, C, R>>, s: Shared<M, A, C, R>): set<RefId> {
      set i | 0 <= i < |cs| && cs[i].0 == s :: cs[i].1
    }

    method DropFirst()
      requires Keeping() && children != []
      modifies this`children, children[0].0
      ensures children == old(children)[1..] && Keeping() && Objects() <= old(Objects())
      // for the child it is what Children lets the end of a parent do
      ensures var (s, n) := old(children)[0];
              && s.Valid() && s.refs == old(s.refs) - {n} && IsStep(s.prog, old(s.At()), Discard(n), s.At())
              && s.queue == old(s.queue) && s.accepted == old(s.accepted) && s.calls == old(s.calls)
    {
      var (child, name) := children[0];
      ghost var rest := children[1..];
      assert HoldsChild(children[0]);
      forall i | 0 <= i < |rest|
        ensures rest[i].0 in Objects() && rest[i].0.Valid() && HoldsChild(rest[i]) && rest[i] != (child, name)
      {
        assert rest[i] == children[i + 1];
      }
      children := children[1..];
      child.DropStrong(name);
      forall i | 0 <= i < |children|
        ensures children[i].0 in Objects() && children[i].0.Valid() && HoldsChild(children[i])
      {
        assert children[i] == rest[i];
      }
    }

    method DropOne(ghost objects: set<Shared<M, A, C, R>>)
      requires Keeping() && children != [] && Objects() <= objects && forall s :: s in objects ==> s.Valid()
      modifies this`children, children[0].0
      ensures children == old(children)[1..] && Keeping() && Objects() <= objects
      ensures forall s :: s in objects ==> Lost([old(children)[0]], s)
    {
      ghost var first := children[0];
      DropFirst();
      forall s | s in objects ensures Lost([first], s) {
        OneName(first, s);
        if s != first.0 { assert unchanged(s); }
      }
    }

    static lemma OneName(child: Child<M, A, C, R>, s: Shared<M, A, C, R>)
      ensures NamesOf([child], s) == if s == child.0 then {child.1} else {}
    {
      assert [child][0] == child;
    }

    // The field `children` is dropped, one Sender after the other: every child loses exactly the refs
    // this context held, so those that nobody else holds are on their own.
    method DropChildren(ghost objects: set<Shared<M, A, C, R>>)
      requires Keeping() && Objects() <= objects && forall s :: s in objects ==> s.Valid()
      modifies this`children, objects
      ensures children == [] && forall s :: s in objects ==> Lost(old(children), s)
      decreases |children|
    {
      if children == [] { return; }
      ghost var all := children;
      DropOne(objects);
      label between:
      DropChildren(objects);
      forall s | s in objects ensures Lost(all, s) {
        assert Lost@between(all[1..], s);
        FirstAndRest(all, s);
        MinusMinus(old(s.refs), NamesOf([all[0]], s), NamesOf(all[1..], s));
      }
    }

    static lemma MinusMinus(refs: map<RefId, Ref<M>>, a: set<RefId>, b: set<RefId>)
      ensures refs - a - b == refs - (a + b)
    {
    }

    // s has lost the refs that the entries name.
    twostate predicate Lost(cs: seq<Child<M, A, C, R>>, s: Shared<M, A, C, R>)
      reads s
    {
      && s.Valid() && s.refs == old(s.refs) - NamesOf(cs, s)
      && s.queue == old(s.queue) && s.accepted == old(s.accepted) && s.calls == old(s.calls)
    }

    static lemma FirstAndRest(all: seq<Child<M, A, C, R>>, s: Shared<M, A, C, R>)
      requires all != []
      ensures NamesOf(all, s) == NamesOf([all[0]], s) + NamesOf(all[1..], s)
    {
      assert all == [all[0]] + all[1..];
    }

    // `impl Drop`, and the drop of the fields after it.
    method Drop(ghost prog: Program<M, A, C, R>, ghost c: Cell<M, A, C, R>)
      requires Keeping() && Mirrors(c) && Can(prog, c, Leave)
      modifies this, tasks, Objects()
      ensures tasks == [] && children == [] && Mirrors(Next(prog, c, Leave))
      ensures forall s :: s in old(Objects()) ==> Lost(old(children), s)
    {
      ghost var objects := Objects();
      DropTasks(prog, c);
      assert Keeping() && Objects() == objects;
      DropChildren(objects);
    }
  }

  ghost predicate HoldsChild<M, A, C, R>(child: Child<M, A, C, R>)
    reads child.0
  {
    child.1 in child.0.refs && child.0.refs[child.1] == Sender
  }
}
