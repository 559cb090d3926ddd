/** The service registry (src/actor/service.rs). Every operation holds the write lock, so each is one
    step; between them any actor may end and any handle may be awaited. */
module Registry {
  import opened Messages

  type TypeKey = nat
  type Instance = nat

  // An actor's shared running future. `ended` is the truth; `observed` says that some clone was
  // polled to the result, which is what peeking can see.
  datatype Life = Life(key: TypeKey, ended: bool, observed: bool)

  // An Addr of some instance, and whether its own clone of that future was polled to the end.
  datatype Address = Address(inst: Instance, polled: bool)

  // A `Box<dyn Any>` with an `Addr` of the actor type `addrType` inside.
  datatype AnyBox = AnyBox(addrType: TypeKey, handle: Address)

  datatype RegistryError = ServiceStillRunning

  datatype State = State(entries: map<TypeKey, AnyBox>, lives: map<Instance, Life>)

  function Downcast(b: AnyBox, key: TypeKey): Option<Address> {
    if b.addrType == key then Some(b.handle) else None
  }

  // `Addr::stopped`; `Addr::running` is its negation.
  predicate Stopped(s: State, h: Address) {
    h.inst in s.lives && s.lives[h.inst].observed && !h.polled
  }

  function Lookup(s: State, key: TypeKey): Option<Address> {
    if key in s.entries then Downcast(s.entries[key], key) else None
  }

  function Insert(s: State, key: TypeKey, h: Address): State {
    s.(entries := s.entries[key := AnyBox(key, h)])
  }

  // ---------------------------------------------------------------- the operations

  datatype Op =
    | Register(key: TypeKey, handle: Address)
    | Replace(key: TypeKey, handle: Address)
    | Unregister(key: TypeKey)
    | GetOrSpawn(key: TypeKey, newborn: Instance)
    | TryGet(key: TypeKey, locked: bool)
    // what happens outside
    | Spawn(newborn: Instance, key: TypeKey)
    | End(inst: Instance)
    | Observe(inst: Instance)

  // The type checker sees to it that an Addr registers under its own actor type; a handle polled to
  // the end has observed the end.
  predicate Typed(s: State, key: TypeKey, h: Address) {
    h.inst in s.lives && s.lives[h.inst].key == key && (h.polled ==> s.lives[h.inst].observed)
  }

  predicate Possible(s: State, op: Op) {
    match op
    case Register(key, h) => Typed(s, key, h)
    case Replace(key, h) => Typed(s, key, h)
    case Unregister(_) => true
    case GetOrSpawn(_, newborn) => newborn !in s.lives
    case TryGet(_, _) => true
    case Spawn(newborn, _) => newborn !in s.lives
    case End(i) => i in s.lives
    case Observe(i) => i in s.lives && s.lives[i].ended
  }

  predicate Displaces(s: State, key: TypeKey) {
    key !in s.entries || (Lookup(s, key).Some? && Stopped(s, Lookup(s, key).value))
  }

  function Step(s: State, op: Op): State
    requires Possible(s, op)
  {
    match op
    case Register(key, h) => if Displaces(s, key) then Insert(s, key, h) else s
    case Replace(key, h) => Insert(s, key, h)
    case Unregister(key) => s.(entries := s.entries - {key})
    case GetOrSpawn(key, newborn) =>
      if Lookup(s, key).Some? && !Stopped(s, Lookup(s, key).value) then s
      else Insert(s.(lives := s.lives[newborn := Life(key, false, false)]), key, Address(newborn, false))
    case TryGet(_, _) => s
    case Spawn(newborn, key) => s.(lives := s.lives[newborn := Life(key, false, false)])
    case End(i) => s.(lives := s.lives[i := s.lives[i].(ended := true)])
    case Observe(i) => s.(lives := s.lives[i := s.lives[i].(observed := true)])
  }

  class Registry {
    var entries: map<TypeKey, AnyBox>
    var lives: map<Instance, Life>

    constructor ()
      ensures At() == State(map[], map[])
    {
      entries, lives := map[], map[];
    }

    function At(): State
      reads this
    {
      State(entries, lives)
    }

    // Addr::register: Ok with the handle itself and the one it displaced, or an error.
    method Register(key: TypeKey, self: Address) returns (r: Result<(Address, Option<Address>), RegistryError>)
      requires Possible(At(), Op.Register(key, self))
      modifies this
      ensures At() == Step(old(At()), Op.Register(key, self))
      ensures r.Ok? <==> Lookup(At(), key) == Some(self) && Displaces(old(At()), key)
      ensures r.Ok? ==> r.value == (self, Lookup(old(At()), key))
      ensures r.Err? ==> At() == old(At())
      ensures r.Ok? ==> entries == old(entries)[key := AnyBox(key, self)] && lives == old(lives)
    {
      var replaced: Option<Address> := None;
      if key in entries {
        var existing := Downcast(entries[key], key);
        if existing.Some? && Stopped(At(), existing.value) {
          replaced := existing;
          entries := entries[key := AnyBox(key, self)];
        } else {
          return Err(ServiceStillRunning);
        }
      } else {
        entries := entries[key := AnyBox(key, self)];
      }
      return Ok((self, replaced));
    }

    // Addr::replace
    method Replace(key: TypeKey, self: Address) returns (replaced: Option<Address>)
      requires Possible(At(), Op.Replace(key, self))
      modifies this
      ensures At() == Step(old(At()), Op.Replace(key, self))
      ensures replaced == Lookup(old(At()), key) && Lookup(At(), key) == Some(self)
      ensures entries == old(entries)[key := AnyBox(key, self)] && lives == old(lives)
    {
      replaced := if key in entries then Downcast(entries[key], key) else None;
      entries := entries[key := AnyBox(key, self)];
    }

    // Addr::unregister
    method Unregister(key: TypeKey) returns (removed: Option<Address>)
      modifies this
      ensures At() == Step(old(At()), Op.Unregister(key))
      ensures removed == Lookup(old(At()), key) && Lookup(At(), key) == None
      ensures entries == old(entries) - {key} && lives == old(lives)
    {
      removed := if key in entries then Downcast(entries[key], key) else None;
      entries := entries - {key};
    }

    // SpawnableService::from_registry_and_spawn
    method FromRegistryAndSpawn(key: TypeKey, newborn: Instance) returns (addr: Address)
      requires Possible(At(), GetOrSpawn(key, newborn))
      modifies this
      ensures At() == Step(old(At()), GetOrSpawn(key, newborn))
      ensures Lookup(At(), key) == Some(addr) && !Stopped(At(), addr)
      ensures addr.inst == newborn || Lookup(old(At()), key) == Some(addr)
      // an instance is spawned exactly if none was listed that is not seen stopped
      ensures if Lookup(old(At()), key).None? || Stopped(old(At()), Lookup(old(At()), key).value)
              then addr == Address(newborn, false) && lives == old(lives)[newborn := Life(key, false, false)]
                   && entries == old(entries)[key := AnyBox(key, addr)]
              else Some(addr) == Lookup(old(At()), key) && At() == old(At())
    {
      if key in entries {
        var existing := Downcast(entries[key], key);
        if existing.Some? && !Stopped(At(), existing.value) {
          return existing.value;
        }
      }
      lives := lives[newborn := Life(key, false, false)];
      addr := Address(newborn, false);
      entries := entries[key := AnyBox(key, addr)];
    }

    // Service::try_from_registry; `locked` says that the read lock cannot be had at once.
    method TryFromRegistry(key: TypeKey, locked: bool) returns (addr: Option<Address>)
      ensures addr == if locked || Lookup(At(), key).None? || Stopped(At(), Lookup(At(), key).value) then None
            else Lookup(At(), key)
    {
      if locked || key !in entries { return None; }
      addr := Downcast(entries[key], key);
      if addr.Some? && Stopped(At(), addr.value) { addr := None; }
    }
  }

  // ---------------------------------------------------------------- whole histories

  // The registry together with the log of who was ever stored under which key.
  datatype History = History(state: State, stored: set<(TypeKey, Instance)>)

  function Stores(s: State, op: Op): set<(TypeKey, Instance)>
    requires Possible(s, op)
  {
    var t := Step(s, op);
    if t.entries == s.entries then {} else
      match op
      case Register(key, h) => {(key, h.inst)}
      case Replace(key, h) => {(key, h.inst)}
      case GetOrSpawn(key, newborn) => {(key, newborn)}
      case _ => {}
  }

  ghost predicate Reaches(ops: seq<Op>, h: History) {
    if ops == [] then h == History(State(map[], map[]), {}) else
      exists g: History ::
        && Reaches(ops[..|ops| - 1], g) && Possible(g.state, ops[|ops| - 1])
        && h == History(Step(g.state, ops[|ops| - 1]), g.stored + Stores(g.state, ops[|ops| - 1]))
  }

  // Every entry holds an address of its key's type, to an actor that exists.
  ghost predicate WellTyped(s: State) {
    && (forall key :: key in s.entries ==> s.entries[key].addrType == key && Typed(s, key, s.entries[key].handle))
    && (forall i :: i in s.lives && s.lives[i].observed ==> s.lives[i].ended)
  }

  // Whoever was stored under a key and has not ended is the one listed there now.
  ghost predicate LivingIsListed(h: History) {
    forall key, i :: (key, i) in h.stored ==>
      && i in h.state.lives && key in h.state.entries
      && (!h.state.lives[i].ended ==> h.state.entries[key].handle.inst == i)
  }

  lemma TypedStep(s: State, op: Op)
    requires WellTyped(s) && Possible(s, op)
    ensures WellTyped(Step(s, op))
  {
  }

  lemma ListedStep(h: History, op: Op)
    requires WellTyped(h.state) && LivingIsListed(h) && Possible(h.state, op) && !op.Replace? && !op.Unregister?
    ensures LivingIsListed(History(Step(h.state, op), h.stored + Stores(h.state, op)))
  {
  }

  // The downcast of an entry never fails, whatever is registered, replaced or removed.
  lemma {:induction false} DowncastSucceeds(ops: seq<Op>, h: History)
    requires Reaches(ops, h)
    ensures WellTyped(h.state) && forall key :: key in h.state.entries ==> Lookup(h.state, key).Some?
    decreases |ops|
  {
    if ops != [] {
      var g: History :| && Reaches(ops[..|ops| - 1], g) && Possible(g.state, ops[|ops| - 1])
                        && h == History(Step(g.state, ops[|ops| - 1]), g.stored + Stores(g.state, ops[|ops| - 1]));
      DowncastSucceeds(ops[..|ops| - 1], g);
      TypedStep(g.state, ops[|ops| - 1]);
    }
  }

  lemma {:induction false} ReachedListed(ops: seq<Op>, h: History)
    requires Reaches(ops, h) && forall op :: op in ops ==> !op.Replace? && !op.Unregister?
    ensures WellTyped(h.state) && LivingIsListed(h)
    decreases |ops|
  {
    if ops != [] {
      var n := |ops| - 1;
      var g: History :| && Reaches(ops[..n], g) && Possible(g.state, ops[n])
                        && h == History(Step(g.state, ops[n]), g.stored + Stores(g.state, ops[n]));
      assert ops[n] in ops && forall op :: op in ops[..n] ==> op in ops;
      ReachedListed(ops[..n], g);
      TypedStep(g.state, ops[n]);
      ListedStep(g, ops[n]);
    }
  }

  // Without replace and unregister, of all instances ever stored under a key at most one is alive.
  lemma AtMostOneAlive(ops: seq<Op>, h: History, key: TypeKey, i: Instance, j: Instance)
    requires Reaches(ops, h) && forall op :: op in ops ==> !op.Replace? && !op.Unregister?
    requires (key, i) in h.stored && (key, j) in h.stored
    requires i in h.state.lives && !h.state.lives[i].ended && j in h.state.lives && !h.state.lives[j].ended
    ensures i == j
  {
    ReachedListed(ops, h);
  }

  // An entry gives way only after its loop has ended.
  lemma DisplacedHasEnded(ops: seq<Op>, h: History, op: Op, key: TypeKey)
    requires Reaches(ops, h) && Possible(h.state, op) && !op.Replace? && !op.Unregister?
    requires key in h.state.entries
    ensures key in Step(h.state, op).entries
    ensures Step(h.state, op).entries[key] != h.state.entries[key] ==>
              var i := h.state.entries[key].handle.inst; i in h.state.lives && h.state.lives[i].ended
  {
    DowncastSucceeds(ops, h);
  }

  // The documentation has register refuse while the service is running. The code refuses also when
  // the service has ended but peeking cannot see it; the two agree exactly when that is not so.
  lemma RegisterRefusal(ops: seq<Op>, h: History, key: TypeKey)
    requires Reaches(ops, h) && key in h.state.entries
    ensures var a := h.state.entries[key].handle;
            a.inst in h.state.lives
            && ((!Displaces(h.state, key) <==> !h.state.lives[a.inst].ended)
                <==> (h.state.lives[a.inst].ended ==> h.state.lives[a.inst].observed && !a.polled))
  {
    DowncastSucceeds(ops, h);
  }

  // Nobody awaited a service that ended: it is still handed out, and still cannot be registered over.
  lemma EndedButListed()
    ensures exists ops, h: History ::
              && Reaches(ops, h) && 0 in h.state.entries && h.state.entries[0].handle.inst == 7
              && 7 in h.state.lives && h.state.lives[7].ended
              && !Displaces(h.state, 0) && 8 !in h.state.lives && Step(h.state, GetOrSpawn(0, 8)) == h.state
  {
    var s0 := State(map[], map[]);
    var s1 := Step(s0, GetOrSpawn(0, 7));
    var s2 := Step(s1, End(7));
    assert Reaches([], History(s0, {}));
    var one := [GetOrSpawn(0, 7)];
    assert one[..0] == [];
    assert Reaches(one, History(s1, {(0, 7)}));
    var two := [GetOrSpawn(0, 7), End(7)];
    assert two[..1] == one;
    assert Reaches(two, History(s2, {(0, 7)}));
  }

  // The listed clone was itself awaited to the end, which everybody observed: it cannot be registered
  // over either.
  lemma AwaitedButListed()
    ensures exists ops, h: History ::
              && Reaches(ops, h) && 0 in h.state.entries && h.state.entries[0].handle == Address(7, true)
              && 7 in h.state.lives && h.state.lives[7].ended && h.state.lives[7].observed && !Displaces(h.state, 0)
  {
    var h0 := History(State(map[], map[]), {});
    assert Reaches([], h0);
    var h1 := After(h0, Spawn(7, 0));
    ReachesMore([], h0, Spawn(7, 0));
    var h2 := After(h1, End(7));
    ReachesMore([] + [Spawn(7, 0)], h1, End(7));
    var h3 := After(h2, Observe(7));
    ReachesMore([] + [Spawn(7, 0)] + [End(7)], h2, Observe(7));
    assert h3.state == State(map[], map[7 := Life(0, true, true)]);
    var op := Op.Register(0, Address(7, true));
    ReachesMore([] + [Spawn(7, 0)] + [End(7)] + [Observe(7)], h3, op);
    assert Reaches([] + [Spawn(7, 0)] + [End(7)] + [Observe(7)] + [op], After(h3, op));
  }

  function After(h: History, op: Op): History
    requires Possible(h.state, op)
  {
    History(Step(h.state, op), h.stored + Stores(h.state, op))
  }

  lemma ReachesMore(ops: seq<Op>, h: History, op: Op)
    requires Reaches(ops, h) && Possible(h.state, op)
    ensures Reaches(ops + [op], After(h, op))
  {
    assert (ops + [op])[..|ops|] == ops;
  }
}
