/** The registry among the actors themselves: what it lists are refs of their channels, and what it
    takes for the end of a service is what peeking at the running future shows (src/actor/service.rs,
    src/addr.rs). */
module Services {
  import opened Messages
  import opened Sequential
  import opened Handles
  import opened Actors
  import opened ActorInvariant
  import opened ActorTheorems
  import R = Registry

  // `listed` names, for each key, the clone of the Addr that the registry holds.
  datatype Town<M, A, C, Q> = Town(
    history: R.History,
    cells: map<R.Instance, Cell<M, A, C, Q>>,
    listed: map<R.TypeKey, RefId>)

  datatype Crowd<!M, !A, !C, !Q> = Crowd(progs: R.Instance -> Program<M, A, C, Q>, locals: R.Instance -> Local<A, C>)

  // A step of some actor or of its clients; an actor spawned outside the registry; an operation under
  // the registry's lock, where `self` is the Addr it is called on and n names the clone it lists.
  datatype Move<M> =
    | Do(inst: R.Instance, event: Event<M>)
    | Spawn(newborn: R.Instance, key: R.TypeKey)
    | Lock(op: R.Op, self: RefId, n: RefId)

  // The registry's flags are those of the actors, its entries Addrs of theirs.
  ghost predicate Linked<M, A, C, Q>(t: Town<M, A, C, Q>) {
    var s := t.history.state;
    && s.lives.Keys == t.cells.Keys && t.listed.Keys == s.entries.Keys
    && (forall i {:trigger Agrees(s.lives[i], t.cells[i])} :: i in t.cells ==> Agrees(s.lives[i], t.cells[i]))
    && (forall key {:trigger t.listed[key]} :: key in t.listed ==>
          ListedIn(t.cells, s.entries[key].handle, t.listed[key]))
  }

  ghost predicate Agrees<M, A, C, Q>(life: R.Life, c: Cell<M, A, C, Q>) {
    life.ended == c.outcome.Some? && life.observed == c.observed && Notifies(c)
  }

  predicate ListedIn<M, A, C, Q>(cells: map<R.Instance, Cell<M, A, C, Q>>, a: R.Address, n: RefId) {
    a.inst in cells && n in cells[a.inst].chan.refs && cells[a.inst].chan.refs[n].Addr?
    && cells[a.inst].chan.refs[n].polled == a.polled
  }

  // Nobody else drops or awaits the clone that the registry holds.
  ghost predicate Spares<M, A, C, Q>(t: Town<M, A, C, Q>, i: R.Instance, e: Event<M>) {
    var entries := t.history.state.entries;
    forall key {:trigger t.listed[key]} :: key in t.listed && key in entries && entries[key].handle.inst == i ==>
      e != Discard(t.listed[key]) && e != AwaitAddr(t.listed[key]) && e != PollSend(t.listed[key])
  }

  ghost predicate Allowed<M, A, C, Q>(crowd: Crowd<M, A, C, Q>, t: Town<M, A, C, Q>, m: Move<M>) {
    match m
    case Do(i, e) => i in t.cells && Can(crowd.progs(i), t.cells[i], e) && Spares(t, i, e)
    case Spawn(newborn, _) => newborn !in t.cells
    case Lock(op, self, n) =>
      match op
      case Register(key, a) => IsSelf(t, key, a, self, n)
      case Replace(key, a) => IsSelf(t, key, a, self, n)
      case Unregister(_) => true
      case GetOrSpawn(_, newborn) => newborn !in t.cells && n != 0
      case TryGet(_, _) => true
      case _ => false
  }

  ghost predicate IsSelf<M, A, C, Q>(t: Town<M, A, C, Q>, key: R.TypeKey, a: R.Address, self: RefId, n: RefId) {
    && ListedIn(t.cells, a, self) && a.inst in t.history.state.lives && t.history.state.lives[a.inst].key == key
    && n !in t.cells[a.inst].chan.refs
  }

  // What the registry's history gets to see of an actor's step.
  function Seen<M, A, C, Q>(i: R.Instance, c: Cell<M, A, C, Q>, d: Cell<M, A, C, Q>): Option<R.Op> {
    if c.outcome.None? && d.outcome.Some? then Some(R.End(i))
    else if !c.observed && d.observed then Some(R.Observe(i))
    else None
  }

  ghost predicate StepsTo<M, A, C, Q>(crowd: Crowd<M, A, C, Q>, t: Town<M, A, C, Q>, m: Move<M>, u: Town<M, A, C, Q>)
    requires Allowed(crowd, t, m)
  {
    var s := t.history.state;
    match m
    case Do(i, e) =>
      var d := Next(crowd.progs(i), t.cells[i], e);
      && u.cells == t.cells[i := d] && u.listed == t.listed
      && u.history == (if Seen(i, t.cells[i], d).None? then t.history
            else Logged(t.history, Seen(i, t.cells[i], d).value))
    case Spawn(newborn, key) =>
      u == Town(Logged(t.history, R.Spawn(newborn, key)), t.cells[newborn := NewCell(crowd.locals(newborn))], t.listed)
    case Lock(op, self, n) =>
      && u.history == Logged(t.history, op)
      && match op
         case Register(key, a) =>
           if R.Displaces(s, key) then Lists(crowd, t, key, a.inst, t.cells[a.inst], self, n, u)
                 else u.cells == t.cells && u.listed == t.listed
         case Replace(key, a) => Lists(crowd, t, key, a.inst, t.cells[a.inst], self, n, u)
         case Unregister(key) => u.cells == t.cells && u.listed == t.listed - {key}
         case GetOrSpawn(key, newborn) =>
           if R.Lookup(s, key).Some? && !R.Stopped(s, R.Lookup(s, key).value)
                 then u.cells == t.cells && u.listed == t.listed
           else Lists(crowd, t, key, newborn, NewCell(crowd.locals(newborn)), 0, n, u)
         case _ => u.cells == t.cells && u.listed == t.listed
  }

  function Logged(h: R.History, op: R.Op): R.History {
    if R.Possible(h.state, op) then R.After(h, op) else h
  }

  // `registry.insert(key, Box::new(self.clone()))`
  ghost predicate Lists<M, A, C, Q>(
      crowd: Crowd<M, A, C, Q>, t: Town<M, A, C, Q>, key: R.TypeKey, i: R.Instance, c: Cell<M, A, C, Q>, self: RefId,
      n: RefId,
      u: Town<M, A, C, Q>)
  {
    && Can(crowd.progs(i), c, Clone(self, n))
    && u.cells == t.cells[i := Next(crowd.progs(i), c, Clone(self, n))] && u.listed == t.listed[key := n]
  }

  // ---------------------------------------------------------------- the link is kept

  // What is seen of a change is all that matters of it.
  ghost predicate SeenFits<M, A, C, Q>(i: R.Instance, c: Cell<M, A, C, Q>, d: Cell<M, A, C, Q>) {
    match Seen(i, c, d)
    case None => d.outcome.Some? == c.outcome.Some? && d.observed == c.observed
    case Some(End(_)) => c.outcome.None? && d.outcome.Some? && d.observed == c.observed
    case Some(_) => c.outcome.Some? && d.outcome.Some? && d.observed
  }

  // One step of one actor, as the registry's flags see it.
  lemma SeenStep<M, A, C, Q>(prog: Program<M, A, C, Q>, i: R.Instance, c: Cell<M, A, C, Q>, e: Event<M>)
    requires Notifies(c) && Can(prog, c, e)
    ensures var d := Next(prog, c, e);
            Notifies(d) && SeenFits(i, c, d)
  {
    NotifiesStep(prog, c, e);
    OutcomeStays(prog, c, e);
    if c.observed { ObservedStays(prog, c, e); }
  }

  lemma OutcomeStays<M, A, C, Q>(prog: Program<M, A, C, Q>, c: Cell<M, A, C, Q>, e: Event<M>)
    requires Notifies(c) && Can(prog, c, e)
    ensures c.outcome.Some? ==> Next(prog, c, e).outcome == c.outcome
    ensures c.outcome.None? ==> Next(prog, c, e).observed == c.observed
  {
    if e.OfLoop() {
      assert Next(prog, c, e).observed == c.observed;
    } else {
      assert Next(prog, c, e).outcome == c.outcome;
    }
  }

  lemma ListedStays<M, A, C, Q>(prog: Program<M, A, C, Q>, c: Cell<M, A, C, Q>, e: Event<M>, n: RefId)
    requires Can(prog, c, e) && n in c.chan.refs && c.chan.refs[n].Addr?
    requires e != Discard(n) && e != AwaitAddr(n) && e != PollSend(n)
    ensures n in Next(prog, c, e).chan.refs && Next(prog, c, e).chan.refs[n] == c.chan.refs[n]
  {
    RefStays(prog, c, e);
  }

  lemma LinkedDo<M, A, C, Q>(
      crowd: Crowd<M, A, C, Q>, t: Town<M, A, C, Q>, i: R.Instance, e: Event<M>, u: Town<M, A, C, Q>)
    requires Linked(t) && Allowed(crowd, t, Do(i, e)) && StepsTo(crowd, t, Do(i, e), u)
    ensures Linked(u)
  {
    FlagsAfterDo(crowd, t, i, e, u);
    forall key | key in t.listed ensures ListedIn(u.cells, t.history.state.entries[key].handle, t.listed[key]) {
      StillListed(crowd, t, i, e, key);
    }
  }

  lemma StillListed<M, A, C, Q>(
      crowd: Crowd<M, A, C, Q>, t: Town<M, A, C, Q>, i: R.Instance, e: Event<M>, key: R.TypeKey)
    requires Linked(t) && Allowed(crowd, t, Do(i, e)) && key in t.listed
    ensures ListedIn(t.cells[i := Next(crowd.progs(i), t.cells[i], e)], t.history.state.entries[key].handle,
          t.listed[key])
  {
    var a, k := t.history.state.entries[key].handle, t.listed[key];
    assert ListedIn(t.cells, a, k);
    if a.inst == i { ListedStays(crowd.progs(i), t.cells[i], e, k); }
  }

  lemma FlagsAfterDo<M, A, C, Q>(
      crowd: Crowd<M, A, C, Q>, t: Town<M, A, C, Q>, i: R.Instance, e: Event<M>, u: Town<M, A, C, Q>)
    requires Linked(t) && Allowed(crowd, t, Do(i, e)) && StepsTo(crowd, t, Do(i, e), u)
    ensures u.history.state.entries == t.history.state.entries
            && u.history.state.lives.Keys == t.history.state.lives.Keys
    ensures forall j {:trigger Agrees(u.history.state.lives[j], u.cells[j])} :: j in u.cells ==>
              Agrees(u.history.state.lives[j], u.cells[j])
  {
    assert Agrees(t.history.state.lives[i], t.cells[i]);
    SeenStep(crowd.progs(i), i, t.cells[i], e);
    FlagsAfter(t, i, Next(crowd.progs(i), t.cells[i], e), u);
  }

  lemma FlagsAfter<M, A, C, Q>(t: Town<M, A, C, Q>, i: R.Instance, d: Cell<M, A, C, Q>, u: Town<M, A, C, Q>)
    requires Linked(t) && i in t.cells && Notifies(d) && SeenFits(i, t.cells[i], d) && u.cells == t.cells[i := d]
    requires var seen := Seen(i, t.cells[i], d); u.history == if seen.None? then t.history
          else Logged(t.history, seen.value)
    ensures u.history.state.entries == t.history.state.entries
            && u.history.state.lives.Keys == t.history.state.lives.Keys
    ensures forall j {:trigger Agrees(u.history.state.lives[j], u.cells[j])} :: j in u.cells ==>
              Agrees(u.history.state.lives[j], u.cells[j])
  {
    var lives := t.history.state.lives;
    assert Agrees(lives[i], t.cells[i]);
    assert u.history.state.lives == lives[i := lives[i].(ended := d.outcome.Some?, observed := d.observed)];
    forall j | j in u.cells ensures Agrees(u.history.state.lives[j], u.cells[j]) {
      assert Agrees(lives[j], t.cells[j]);
    }
  }

  // The registry takes a clone of an Addr of c, which is actor i or about to be.
  lemma LinkedLists<M, A, C, Q>(
      crowd: Crowd<M, A, C, Q>, t: Town<M, A, C, Q>, key: R.TypeKey, i: R.Instance, c: Cell<M, A, C, Q>, self: RefId,
      n: RefId,
      u: Town<M, A, C, Q>)
    requires Linked(t) && Lists(crowd, t, key, i, c, self, n, u) && (i in t.cells ==> t.cells[i] == c)
    requires Notifies(c) && self in c.chan.refs && c.chan.refs[self].Addr?
    requires var s, z := t.history.state, u.history.state;
             && z.entries == s.entries[key := R.AnyBox(key, R.Address(i, c.chan.refs[self].polled))]
             && z.lives.Keys == s.lives.Keys + {i} && (forall j :: j in s.lives ==> z.lives[j] == s.lives[j])
             && z.lives[i].ended == c.outcome.Some? && z.lives[i].observed == c.observed
    ensures Linked(u)
  {
    Cloned(crowd.progs(i), c, self, n);
    LinkedCopy(t, key, i, c, self, n, Next(crowd.progs(i), c, Clone(self, n)), u);
  }

  ghost predicate Inserted<M, A, C, Q>(
      t: Town<M, A, C, Q>, key: R.TypeKey, i: R.Instance, polled: bool, d: Cell<M, A, C, Q>, u: Town<M, A, C, Q>) {
    var s, z := t.history.state, u.history.state;
    && z.entries == s.entries[key := R.AnyBox(key, R.Address(i, polled))] && z.lives.Keys == s.lives.Keys + {i}
    && (forall j :: j in s.lives ==> z.lives[j] == s.lives[j])
    && z.lives[i].ended == d.outcome.Some? && z.lives[i].observed == d.observed
  }

  lemma LinkedCopy<M, A, C, Q>(
      t: Town<M, A, C, Q>, key: R.TypeKey, i: R.Instance, c: Cell<M, A, C, Q>, self: RefId, n: RefId,
      d: Cell<M, A, C, Q>,
      u: Town<M, A, C, Q>)
    requires Linked(t) && u.cells == t.cells[i := d] && u.listed == t.listed[key := n]
             && (i in t.cells ==> t.cells[i] == c)
    requires self in c.chan.refs && c.chan.refs[self].Addr? && n !in c.chan.refs
    requires Notifies(d) && d.chan.refs == c.chan.refs[n := c.chan.refs[self]]
    requires Inserted(t, key, i, c.chan.refs[self].polled, d, u)
    ensures Linked(u)
  {
    FlagsInserted(t, key, i, c.chan.refs[self].polled, d, u);
    forall k | k in u.listed ensures ListedIn(u.cells, u.history.state.entries[k].handle, u.listed[k]) {
      KeyListed(t, key, i, c, self, n, d, u, k);
    }
  }

  lemma KeyListed<M, A, C, Q>(
      t: Town<M, A, C, Q>, key: R.TypeKey, i: R.Instance, c: Cell<M, A, C, Q>, self: RefId, n: RefId,
      d: Cell<M, A, C, Q>,
      u: Town<M, A, C, Q>, k: R.TypeKey)
    requires Linked(t) && u.cells == t.cells[i := d] && u.listed == t.listed[key := n]
             && (i in t.cells ==> t.cells[i] == c)
    requires self in c.chan.refs && c.chan.refs[self].Addr? && n !in c.chan.refs && k in u.listed
    requires d.chan.refs == c.chan.refs[n := c.chan.refs[self]] && Inserted(t, key, i, c.chan.refs[self].polled, d, u)
    ensures ListedIn(u.cells, u.history.state.entries[k].handle, u.listed[k])
  {
    if k != key { ListedWith(t.cells, i, d, t.history.state.entries[k].handle, t.listed[k]); }
  }

  lemma FlagsInserted<M, A, C, Q>(
      t: Town<M, A, C, Q>, key: R.TypeKey, i: R.Instance, polled: bool, d: Cell<M, A, C, Q>, u: Town<M, A, C, Q>)
    requires Linked(t) && Inserted(t, key, i, polled, d, u) && Notifies(d) && u.cells == t.cells[i := d]
    ensures forall j {:trigger Agrees(u.history.state.lives[j], u.cells[j])} :: j in u.cells ==>
              Agrees(u.history.state.lives[j], u.cells[j])
  {
    forall j | j in u.cells ensures Agrees(u.history.state.lives[j], u.cells[j]) {
      if j != i { assert Agrees(t.history.state.lives[j], t.cells[j]); }
    }
  }

  // A listed clone is not disturbed by one more handle.
  lemma ListedWith<M, A, C, Q>(
      cells: map<R.Instance, Cell<M, A, C, Q>>, i: R.Instance, d: Cell<M, A, C, Q>, a: R.Address, k: RefId)
    requires ListedIn(cells, a, k)
    requires i in cells ==> k in cells[i].chan.refs ==> k in d.chan.refs && d.chan.refs[k] == cells[i].chan.refs[k]
    ensures ListedIn(cells[i := d], a, k)
  {
  }

  lemma Cloned<M, A, C, Q>(prog: Program<M, A, C, Q>, c: Cell<M, A, C, Q>, self: RefId, n: RefId)
    requires Can(prog, c, Clone(self, n)) && Notifies(c)
    ensures var d := Next(prog, c, Clone(self, n));
            Notifies(d) && d.chan.refs == c.chan.refs[n := c.chan.refs[self]] && n !in c.chan.refs
            && d.outcome == c.outcome && d.observed == c.observed
  {
    NotifiesStep(prog, c, Clone(self, n));
  }

  lemma LinkedSame<M, A, C, Q>(t: Town<M, A, C, Q>, u: Town<M, A, C, Q>)
    requires Linked(t) && u.cells == t.cells && u.history.state.lives == t.history.state.lives
    requires u.listed.Keys == u.history.state.entries.Keys
    requires forall key :: key in u.listed ==>
               key in t.listed && u.listed[key] == t.listed[key]
                     && u.history.state.entries[key] == t.history.state.entries[key]
    ensures Linked(u)
  {
    forall j | j in u.cells ensures Agrees(u.history.state.lives[j], u.cells[j]) {
      assert Agrees(t.history.state.lives[j], t.cells[j]);
    }
    forall k | k in u.listed ensures ListedIn(u.cells, u.history.state.entries[k].handle, u.listed[k]) {
      assert ListedIn(t.cells, t.history.state.entries[k].handle, t.listed[k]);
    }
  }

  // An Addr that was polled to the end has observed the end, as the registry requires.
  lemma SelfPossible<M, A, C, Q>(t: Town<M, A, C, Q>, key: R.TypeKey, a: R.Address, self: RefId, n: RefId)
    requires Linked(t) && IsSelf(t, key, a, self, n)
    ensures R.Typed(t.history.state, key, a)
  {
    assert Agrees(t.history.state.lives[a.inst], t.cells[a.inst]);
    var refs := t.cells[a.inst].chan.refs;
    if a.polled { assert refs[self] == Addr(true); }
  }

  lemma LinkedInsert<M, A, C, Q>(
      crowd: Crowd<M, A, C, Q>, t: Town<M, A, C, Q>, key: R.TypeKey, a: R.Address, self: RefId, n: RefId,
      u: Town<M, A, C, Q>)
    requires Linked(t) && IsSelf(t, key, a, self, n) && Lists(crowd, t, key, a.inst, t.cells[a.inst], self, n, u)
    requires u.history.state == R.Insert(t.history.state, key, a)
    ensures Linked(u)
  {
    assert Agrees(t.history.state.lives[a.inst], t.cells[a.inst]);
    LinkedLists(crowd, t, key, a.inst, t.cells[a.inst], self, n, u);
  }

  lemma LinkedNewborn<M, A, C, Q>(
      crowd: Crowd<M, A, C, Q>, t: Town<M, A, C, Q>, key: R.TypeKey, newborn: R.Instance, n: RefId, u: Town<M, A, C, Q>)
    requires Linked(t) && newborn !in t.cells && Lists(crowd, t, key, newborn, NewCell(crowd.locals(newborn)), 0, n, u)
    requires var s := t.history.state;
             u.history.state == R.Insert(s.(lives := s.lives[newborn := R.Life(key, false, false)]), key,
                   R.Address(newborn, false))
    ensures Linked(u)
  {
    LinkedLists(crowd, t, key, newborn, NewCell(crowd.locals(newborn)), 0, n, u);
  }

  lemma LinkedLock<M, A, C, Q>(
      crowd: Crowd<M, A, C, Q>, t: Town<M, A, C, Q>, op: R.Op, self: RefId, n: RefId, u: Town<M, A, C, Q>)
    requires Linked(t) && Allowed(crowd, t, Lock(op, self, n)) && StepsTo(crowd, t, Lock(op, self, n), u)
    ensures R.Possible(t.history.state, op) && Linked(u)
  {
    var s := t.history.state;
    match op
    case Register(key, a) =>
      SelfPossible(t, key, a, self, n);
      if R.Displaces(s, key) { LinkedInsert(crowd, t, key, a, self, n, u); } else { LinkedSame(t, u); }
    case Replace(key, a) =>
      SelfPossible(t, key, a, self, n);
      LinkedInsert(crowd, t, key, a, self, n, u);
    case Unregister(key) => LinkedSame(t, u);
    case GetOrSpawn(key, newborn) =>
      if R.Lookup(s, key).Some? && !R.Stopped(s, R.Lookup(s, key).value) { LinkedSame(t, u); }
      else { LinkedNewborn(crowd, t, key, newborn, n, u); }
    case TryGet(_, _) => LinkedSame(t, u);
  }

  lemma LinkedSpawn<M, A, C, Q>(
      crowd: Crowd<M, A, C, Q>, t: Town<M, A, C, Q>, newborn: R.Instance, key: R.TypeKey, u: Town<M, A, C, Q>)
    requires Linked(t) && newborn !in t.cells && StepsTo(crowd, t, Spawn(newborn, key), u)
    ensures Linked(u)
  {
    forall j | j in u.cells ensures Agrees(u.history.state.lives[j], u.cells[j]) {
      if j != newborn { assert Agrees(t.history.state.lives[j], t.cells[j]); }
    }
    forall k | k in u.listed ensures ListedIn(u.cells, u.history.state.entries[k].handle, u.listed[k]) {
      assert ListedIn(t.cells, t.history.state.entries[k].handle, t.listed[k]);
    }
  }

  // ---------------------------------------------------------------- whole runs

  // A run from the empty registry: ms[i] leads from ts[i] to ts[i + 1].
  ghost predicate IsRun<M, A, C, Q>(crowd: Crowd<M, A, C, Q>, ts: seq<Town<M, A, C, Q>>, ms: seq<Move<M>>) {
    && |ts| == |ms| + 1 && ts[0] == Empty()
    && (forall i {:trigger ms[i]} :: 0 <= i < |ms| ==>
          Allowed(crowd, ts[i], ms[i]) && StepsTo(crowd, ts[i], ms[i], ts[i + 1]))
  }

  function Empty<M, A, C, Q>(): Town<M, A, C, Q> {
    Town(R.History(R.State(map[], map[]), {}), map[], map[])
  }

  predicate Keeps(op: R.Op) { !op.Replace? && !op.Unregister? }

  predicate KeepsEntries<M>(m: Move<M>) { m.Lock? ==> Keeps(m.op) }

  // What one move adds to the registry's history.
  lemma MoveLogged<M, A, C, Q>(
      crowd: Crowd<M, A, C, Q>, t: Town<M, A, C, Q>, m: Move<M>, u: Town<M, A, C, Q>, ops: seq<R.Op>)
    returns (more: seq<R.Op>)
    requires Linked(t) && Allowed(crowd, t, m) && StepsTo(crowd, t, m, u) && R.Reaches(ops, t.history)
    ensures Linked(u) && R.Reaches(more, u.history)
    ensures KeepsEntries(m) && (forall op :: op in ops ==> Keeps(op)) ==> forall op :: op in more ==> Keeps(op)
  {
    match m
    case Do(i, e) =>
      LinkedDo(crowd, t, i, e, u);
      assert Agrees(t.history.state.lives[i], t.cells[i]);
      SeenStep(crowd.progs(i), i, t.cells[i], e);
      var seen := Seen(i, t.cells[i], Next(crowd.progs(i), t.cells[i], e));
      more := if seen.None? then ops else ops + [seen.value];
      if seen.Some? { R.ReachesMore(ops, t.history, seen.value); }
    case Spawn(newborn, key) =>
      LinkedSpawn(crowd, t, newborn, key, u);
      more := ops + [R.Spawn(newborn, key)];
      R.ReachesMore(ops, t.history, R.Spawn(newborn, key));
    case Lock(op, self, n) =>
      LinkedLock(crowd, t, op, self, n, u);
      more := ops + [op];
      R.ReachesMore(ops, t.history, op);
  }

  lemma {:induction false} RunLinked<M, A, C, Q>(
      crowd: Crowd<M, A, C, Q>, ts: seq<Town<M, A, C, Q>>, ms: seq<Move<M>>, n: nat)
    returns (ops: seq<R.Op>)
    requires IsRun(crowd, ts, ms) && n <= |ms|
    ensures Linked(ts[n]) && R.Reaches(ops, ts[n].history)
    ensures (forall i :: 0 <= i < n ==> KeepsEntries(ms[i])) ==> forall op :: op in ops ==> Keeps(op)
  {
    if n == 0 {
      ops := [];
    } else {
      var m := ms[n - 1];
      ops := RunLinked(crowd, ts, ms, n - 1);
      ops := MoveLogged(crowd, ts[n - 1], m, ts[n], ops);
    }
  }

  // A loop that has neither notified nor left.
  predicate LoopLives<M, A, C, Q>(c: Cell<M, A, C, Q>) { !c.phase.Notified? && !c.phase.Gone? }

  // At every moment of every run without replace and unregister, of all instances ever stored under a
  // key at most one has a living loop, and it is the one listed.
  lemma AtMostOneLoop<M, A, C, Q>(
      crowd: Crowd<M, A, C, Q>, ts: seq<Town<M, A, C, Q>>, ms: seq<Move<M>>, n: nat, key: R.TypeKey, i: R.Instance,
      j: R.Instance)
    requires IsRun(crowd, ts, ms) && n <= |ms| && forall k :: 0 <= k < n ==> KeepsEntries(ms[k])
    requires (key, i) in ts[n].history.stored && (key, j) in ts[n].history.stored
    requires i in ts[n].cells && LoopLives(ts[n].cells[i]) && j in ts[n].cells && LoopLives(ts[n].cells[j])
    ensures i == j && key in ts[n].history.state.entries && ts[n].history.state.entries[key].handle.inst == i
  {
    var ops := RunLinked(crowd, ts, ms, n);
    assert Agrees(ts[n].history.state.lives[i], ts[n].cells[i]) && Agrees(ts[n].history.state.lives[j], ts[n].cells[j]);
    R.ReachedListed(ops, ts[n].history);
    R.AtMostOneAlive(ops, ts[n].history, key, i, j);
  }

  // An entry gives way only to a move made after the loop it names has ended.
  lemma DisplacedLoopEnded<M, A, C, Q>(
      crowd: Crowd<M, A, C, Q>, ts: seq<Town<M, A, C, Q>>, ms: seq<Move<M>>, n: nat, key: R.TypeKey)
    requires IsRun(crowd, ts, ms) && n < |ms| && forall k :: 0 <= k <= n ==> KeepsEntries(ms[k])
    requires key in ts[n].history.state.entries
    ensures key in ts[n + 1].history.state.entries
    ensures ts[n + 1].history.state.entries[key] != ts[n].history.state.entries[key] ==>
              var i := ts[n].history.state.entries[key].handle.inst;
              i in ts[n].cells && !LoopLives(ts[n].cells[i])
  {
    var ops := RunLinked(crowd, ts, ms, n);
    var t, m := ts[n], ms[n];
    match m
    case Do(i, e) => assert ts[n + 1].history.state.entries == t.history.state.entries by {
      FlagsAfterDo(crowd, t, i, e, ts[n + 1]);
    }
    case Spawn(newborn, k) => SpawnLists(crowd, t, newborn, k, ts[n + 1]);
    case Lock(op, self, k) => DisplacedByLock(crowd, t, op, self, k, ts[n + 1], ops, key);
  }

  lemma SpawnLists<M, A, C, Q>(
      crowd: Crowd<M, A, C, Q>, t: Town<M, A, C, Q>, newborn: R.Instance, k: R.TypeKey, u: Town<M, A, C, Q>)
    requires Allowed(crowd, t, Spawn(newborn, k)) && StepsTo(crowd, t, Spawn(newborn, k), u)
    ensures u.history.state.entries == t.history.state.entries
  {
  }

  lemma DisplacedByLock<M, A, C, Q>(
      crowd: Crowd<M, A, C, Q>, t: Town<M, A, C, Q>, op: R.Op, self: RefId, k: RefId, u: Town<M, A, C, Q>,
      ops: seq<R.Op>, key: R.TypeKey)
    requires Linked(t) && Allowed(crowd, t, Lock(op, self, k)) && StepsTo(crowd, t, Lock(op, self, k), u)
    requires R.Reaches(ops, t.history) && Keeps(op) && key in t.history.state.entries
    ensures key in u.history.state.entries
    ensures u.history.state.entries[key] != t.history.state.entries[key] ==>
              var i := t.history.state.entries[key].handle.inst; i in t.cells && !LoopLives(t.cells[i])
  {
    assert R.Possible(t.history.state, op) by { LinkedLock(crowd, t, op, self, k, u); }
    assert u.history == R.After(t.history, op);
    R.DisplacedHasEnded(ops, t.history, op, key);
    EndedLoop(t, key);
  }

  lemma EndedLoop<M, A, C, Q>(t: Town<M, A, C, Q>, key: R.TypeKey)
    requires Linked(t) && key in t.history.state.entries
    ensures var i := t.history.state.entries[key].handle.inst;
            i in t.cells && i in t.history.state.lives && (t.history.state.lives[i].ended <==> !LoopLives(t.cells[i]))
  {
    var i := t.history.state.entries[key].handle.inst;
    assert ListedIn(t.cells, t.history.state.entries[key].handle, t.listed[key]);
    assert Agrees(t.history.state.lives[i], t.cells[i]);
  }

  // What the registry takes for stopped is what `Addr::stopped` says of the clone it lists.
  lemma StoppedIsSeen<M, A, C, Q>(
      crowd: Crowd<M, A, C, Q>, ts: seq<Town<M, A, C, Q>>, ms: seq<Move<M>>, n: nat, key: R.TypeKey)
    requires IsRun(crowd, ts, ms) && n <= |ms|
    requires key in ts[n].history.state.entries
    ensures var a := ts[n].history.state.entries[key].handle;
            && key in ts[n].listed && a.inst in ts[n].cells && ListedIn(ts[n].cells, a, ts[n].listed[key])
            && (R.Stopped(ts[n].history.state, a) <==> SeesStopped(ts[n].cells[a.inst], ts[n].listed[key]))
  {
    var ops := RunLinked(crowd, ts, ms, n);
    var a := ts[n].history.state.entries[key].handle;
    assert ListedIn(ts[n].cells, a, ts[n].listed[key]);
    assert Agrees(ts[n].history.state.lives[a.inst], ts[n].cells[a.inst]);
  }
}
