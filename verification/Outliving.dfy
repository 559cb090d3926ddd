/** Two fair runs in which an actor outlives what the documentation says ends it, and a run in which a
    background task outlives the actor that spawned it (src/context.rs, src/addr.rs). When they do end is
    said in Children and ActorTheorems. */
module Outliving {
  import opened Messages
  import opened Sequential
  import opened Handles
  import opened Actors
  import opened ActorTheorems
  import opened Children

  type Plain = Cell<(), (), (), ()>

  // An actor whose hooks and handlers do nothing.
  function Idler(): Program<(), (), (), ()> {
    Program(l => l, _ => true, l => l, (), _ => 0, (_, _, l) => l, (_, l) => l, (_, _) => (),
            NonRestartable, false, false)
  }

  function Fresh(): Plain { NewCell(Local((), ())) }

  // The events of a run, then nothing more.
  type Script = seq<Act<()>>

  function ActOf(script: Script, t: nat): Option<Act<()>> { if t < |script| then Some(script[t]) else None }

  function After(c: Plain, e: Event<()>): Plain { if Can(Idler(), c, e) then Next(Idler(), c, e) else c }

  // What a script does to actor j of a family in which everybody but the root is a child of actor 0.
  function Replay(script: Script, j: nat, t: nat): Plain {
    if t == 0 then Fresh() else
      var c := Replay(script, j, t - 1);
      match ActOf(script, t - 1)
      case None => c
      case Some(a) =>
        if a.who == j then After(c, a.event)
        else if a.event.Leave? && j > 0 && a.who == 0 then After(c, Discard(1))
        else c
  }

  function Playing(size: nat, script: Script): Family<(), (), (), ()> {
    Family(size, (j: nat) => if j > 0 then Some(0) else None, (_: nat) => 1, (_: nat) => 0, (_: nat) => Idler(),
           (_: nat) => Local((), ()), (t: nat, j: nat) => Replay(script, j, t), (t: nat) => ActOf(script, t))
  }

  lemma {:induction false} ReplayEnds(script: Script, j: nat, t: nat)
    requires |script| <= t
    ensures Replay(script, j, t) == Replay(script, j, |script|)
  {
    if |script| < t { ReplayEnds(script, j, t - 1); }
  }

  // A script is played as written.
  ghost predicate Performed(f: Family<(), (), (), ()>, script: Script) {
    forall j: nat, t: nat :: j < f.size && t < |script| ==> f.StepOf(j, t)
  }

  // At its end nobody can go on.
  ghost predicate AtRest(f: Family<(), (), (), ()>, script: Script) {
    forall j: nat :: j < f.size ==> !LoopReady(Idler(), Replay(script, j, |script|))
  }

  lemma PlayingIsRun(size: nat, script: Script)
    requires var f := Playing(size, script); Performed(f, script) && AtRest(f, script)
    ensures var f := Playing(size, script); f.IsRun() && f.Begun() && f.FairLoops()
  {
    var f := Playing(size, script);
    InvInit(Idler(), Local((), ()));
    InvSane(Idler(), Local((), ()), Fresh());
    forall j: nat, t: nat | j < size ensures f.StepOf(j, t) {
      if t < |script| { assert f.StepOf(j, t); }
    }
    forall j: nat, t: nat | j < size ensures f.ServedAfter(j, t) {
      var u := if t < |script| then |script| else t;
      ReplayEnds(script, j, u);
      assert f.Served(j, u);
    }
  }

  // A step of a script is one of the family if it can be taken.
  lemma AsPlayed(size: nat, script: Script, j: nat, t: nat)
    requires t < |script|
    requires script[t].who == j ==> Can(Idler(), Replay(script, j, t), script[t].event)
    requires script[t].who == j > 0 ==> Playing(size, script).Allowed(j, t, script[t].event)
    ensures Playing(size, script).StepOf(j, t)
  {
    var f, a := Playing(size, script), script[t];
    assert f.act(t) == Some(a) && f.at(t, j) == Replay(script, j, t) && f.at(t + 1, j) == Replay(script, j, t + 1);
    if a.who == j {
      assert Replay(script, j, t + 1) == After(Replay(script, j, t), a.event);
      assert f.Allowed(j, t, a.event);
    }
  }

  lemma InvSane(prog: Program<(), (), (), ()>, l: Local<(), ()>, c: Plain)
    requires Inv(prog, l, c)
    ensures Sane(prog, c)
  {
  }

  // ---------------------------------------------------------------- a child that outlives its parent

  // The root adds a child in its `started`, of which a client holds an Addr; then it loses its own Addr
  // and ends.
  function ParentEnds(): Script {
    [Act(1, Derive(0, 1, Sender)), Act(0, Start), Act(1, Start), Act(0, Discard(0)),
     Act(0, NoMore), Act(0, RunStopped), Act(0, Notify), Act(0, Leave)]
  }

  // An actor after its Start, none but the given refs alive.
  function Waiting(refs: map<RefId, Ref<()>>, tx: int, force: int, mpsc: int): Plain {
    Fresh().(chan := Chan(refs, tx, force, mpsc, [], true, []), phase := Idle, trace := [StartHook(true)])
  }

  lemma ParentStarts()
    ensures var s := ParentEnds();
            && Replay(s, 0, 0) == Fresh() && Replay(s, 0, 1) == Fresh()
            && Replay(s, 0, 2) == Replay(s, 0, 3) == Waiting(map[0 := Addr(false)], 1, 1, 2)
            && Replay(s, 0, 4) == Waiting(map[], 0, 0, 0)
  {
    var s := ParentEnds();
    assert Replay(s, 0, 1) == Fresh();
    assert Replay(s, 0, 2) == Waiting(map[0 := Addr(false)], 1, 1, 2);
    assert Replay(s, 0, 3) == Replay(s, 0, 2);
    assert Release(Replay(s, 0, 3).chan, 0).refs == map[];
  }

  function Closing(ph: Phase<()>, trace: seq<Mark>, out: Option<Outcome>): Plain {
    Waiting(map[], 0, 0, 0).(phase := ph, trace := trace, outcome := out)
  }

  lemma ClosesFirst()
    ensures After(Waiting(map[], 0, 0, 0), NoMore) == Closing(Stopping, [StartHook(true)], None)
    ensures After(Closing(Stopping, [StartHook(true)], None), RunStopped)
          == Closing(Quiet, [StartHook(true), StopHook], None)
  {
    assert [StartHook(true)] + [StopHook] == [StartHook(true), StopHook];
  }

  lemma ClosesThen(trace: seq<Mark>)
    ensures After(Closing(Quiet, trace, None), Notify) == Closing(Notified, trace, Some(SaidStopped))
    ensures After(Closing(Notified, trace, Some(SaidStopped)), Leave).phase == Gone(Clean)
  {
  }

  lemma ReplayOwn(script: Script, j: nat, t: nat)
    requires t < |script| && script[t].who == j
    ensures Replay(script, j, t + 1) == After(Replay(script, j, t), script[t].event)
  {
  }

  lemma ParentGoes()
    ensures var s := ParentEnds();
            && Replay(s, 0, 5) == Closing(Stopping, [StartHook(true)], None)
            && Replay(s, 0, 6) == Closing(Quiet, [StartHook(true), StopHook], None)
            && Replay(s, 0, 7) == Closing(Notified, [StartHook(true), StopHook], Some(SaidStopped))
            && Replay(s, 0, 8).phase == Gone(Clean)
  {
    GoesFrom(ParentEnds(), 4);
  }

  lemma GoesFrom(s: Script, t: nat)
    requires s == ParentEnds() && t == 4
    ensures Replay(s, 0, t + 1) == Closing(Stopping, [StartHook(true)], None)
    ensures Replay(s, 0, t + 2) == Closing(Quiet, [StartHook(true), StopHook], None)
    ensures Replay(s, 0, t + 3) == Closing(Notified, [StartHook(true), StopHook], Some(SaidStopped))
    ensures Replay(s, 0, t + 4).phase == Gone(Clean)
  {
    ParentStarts();
    ClosesFirst();
    ClosesThen([StartHook(true), StopHook]);
    ReplayOwn(s, 0, t);
    ReplayOwn(s, 0, t + 1);
    ReplayOwn(s, 0, t + 2);
    ReplayOwn(s, 0, t + 3);
  }

  function Both(): map<RefId, Ref<()>> { map[0 := Addr(false), 1 := Sender] }

  function Added(): Plain { Fresh().(chan := Chan(Both(), 2, 2, 2, [], true, [])) }

  lemma ChildStays()
    ensures var s := ParentEnds();
            && Replay(s, 1, 0) == Fresh() && Replay(s, 1, 1) == Replay(s, 1, 2) == Added()
            && Replay(s, 1, 3) == Replay(s, 1, 4) == Replay(s, 1, 5) == Replay(s, 1, 6) == Replay(s, 1, 7)
                  == Waiting(Both(), 2, 2, 2)
            && Replay(s, 1, 8) == Waiting(map[0 := Addr(false)], 1, 1, 2)
  {
    var s := ParentEnds();
    assert Replay(s, 1, 0) == Fresh();
    assert Acquire(Fresh().chan, 1, Sender).refs == Both();
    assert Replay(s, 1, 1) == Added();
    assert Replay(s, 1, 2) == Replay(s, 1, 1);
    assert Replay(s, 1, 3) == Waiting(Both(), 2, 2, 2);
    assert Replay(s, 1, 4) == Replay(s, 1, 3);
    assert Replay(s, 1, 5) == Replay(s, 1, 4);
    assert Replay(s, 1, 6) == Replay(s, 1, 5);
    assert Replay(s, 1, 7) == Replay(s, 1, 6);
    assert Both() - {1} == map[0 := Addr(false)];
  }

  lemma ParentEndsStep(j: nat, t: nat)
    requires j < 2 && t < 8
    ensures Playing(2, ParentEnds()).StepOf(j, t)
  {
    var s := ParentEnds();
    if s[t].who == j {
      if j == 0 { ParentCan(t); } else { ChildCan(t); }
    }
    AsPlayed(2, s, j, t);
  }

  lemma ParentEndsAtRest(j: nat)
    requires j < 2
    ensures !LoopReady(Idler(), Replay(ParentEnds(), j, 8))
  {
    if j == 0 { ParentGoes(); } else { ChildStays(); }
    Resting(Replay(ParentEnds(), j, 8));
  }

  lemma Resting(c: Plain)
    requires c.phase.Gone? || (c.phase.Idle? && c.chan.queue == [] && c.chan.mpsc > 0)
    ensures !LoopReady(Idler(), c)
  {
  }

  lemma ParentEndsPlayed()
    ensures var f := Playing(2, ParentEnds()); f.IsRun() && f.Begun() && f.FairLoops()
  {
    var s := ParentEnds();
    forall j: nat, t: nat | j < 2 && t < |s| ensures Playing(2, s).StepOf(j, t) { ParentEndsStep(j, t); }
    forall j: nat | j < 2 ensures !LoopReady(Idler(), Replay(s, j, |s|)) { ParentEndsAtRest(j); }
    PlayingIsRun(2, s);
  }

  lemma ParentCan(t: nat)
    requires t < 8 && ParentEnds()[t].who == 0
    ensures Can(Idler(), Replay(ParentEnds(), 0, t), ParentEnds()[t].event)
  {
    if t < 5 { ParentStarts(); } else { ParentGoes(); }
  }

  lemma ChildCan(t: nat)
    requires t == 0 || t == 2
    ensures Can(Idler(), Replay(ParentEnds(), 1, t), ParentEnds()[t].event)
    ensures Playing(2, ParentEnds()).Allowed(1, t, ParentEnds()[t].event)
  {
    ChildStays();
    ParentStarts();
  }

  lemma ChildEarly(t: nat)
    requires t < 8
    ensures var c := Replay(ParentEnds(), 1, t); !c.phase.Gone? && c.chan.accepted == []
  {
    ChildStays();
    if t == 0 {
    } else if t == 1 {
    } else if t == 2 {
    } else {
      assert t == 3 || t == 4 || t == 5 || t == 6 || t == 7;
    }
  }

  lemma ChildAlways(t: nat)
    ensures var c := Replay(ParentEnds(), 1, t); !c.phase.Gone? && c.chan.accepted == []
  {
    if t < 8 {
      ChildEarly(t);
    } else {
      ReplayEnds(ParentEnds(), 1, t);
      ChildStays();
    }
  }

  // The documentation says that a child is stopped when its parent is. Here the child was added, the
  // parent is gone, and the child lives on for ever, because a client holds an Addr of it.
  ghost predicate ChildOutlives(f: Family<(), (), (), ()>, added: nat, gone: nat) {
    && f.IsRun() && f.Begun() && f.FairLoops() && f.size == 2 && f.parent(1) == Some(0)
    && f.handle(1) in f.Refs(1, added) && f.at(added, 1).chan.refs[f.handle(1)] == Sender
    && 0 < added < gone && UserCodeRuns(f.at(added - 1, 0).phase) && f.Gone(0, gone)
       && f.at(gone, 0).phase.exit == Clean
    && LeftAlone(f, 1) && forall t: nat :: !f.Gone(1, t)
  }

  lemma ChildOutlivesParent()
    ensures exists f, added, gone :: ChildOutlives(f, added, gone)
  {
    var f := Playing(2, ParentEnds());
    ParentEndsPlayed();
    forall t: nat ensures !f.Gone(1, t) && Stop !in f.at(t, 1).chan.accepted { ChildAlways(t); }
    assert f.Gone(0, 8) && f.at(8, 0).phase.exit == Clean by { ParentGoes(); }
    assert f.handle(1) in f.Refs(1, 1) && f.at(1, 1).chan.refs[f.handle(1)] == Sender by { ChildStays(); }
    assert f.at(0, 0).phase == Starting;
    assert ChildOutlives(f, 1, 8);
  }

  // ---------------------------------------------------------------- an actor without any Addr

  // A Caller is made, then the last Addr is dropped.
  function OnlyCaller(): Script {
    [Act(0, Start), Act(0, Derive(0, 1, Caller)), Act(0, Discard(0))]
  }

  lemma CallerStays()
    ensures var s := OnlyCaller();
            && Replay(s, 0, 0) == Fresh() && Replay(s, 0, 1) == Waiting(map[0 := Addr(false)], 1, 1, 2)
            && Replay(s, 0, 2) == Waiting(map[0 := Addr(false), 1 := Caller], 2, 1, 2)
            && Replay(s, 0, 3) == Waiting(map[1 := Caller], 1, 0, 1)
  {
    var s := OnlyCaller();
    assert Replay(s, 0, 0) == Fresh();
    assert Replay(s, 0, 1) == Waiting(map[0 := Addr(false)], 1, 1, 2);
    assert Replay(s, 0, 2) == Waiting(map[0 := Addr(false), 1 := Caller], 2, 1, 2);
    assert Replay(s, 0, 2).chan.refs - {0} == map[1 := Caller];
  }

  lemma OnlyCallerStep(t: nat)
    requires t < 3
    ensures Playing(1, OnlyCaller()).StepOf(0, t)
  {
    assert Can(Idler(), Replay(OnlyCaller(), 0, t), OnlyCaller()[t].event) by { CallerStays(); }
    AsPlayed(1, OnlyCaller(), 0, t);
  }

  lemma OnlyCallerAtRest()
    ensures !LoopReady(Idler(), Replay(OnlyCaller(), 0, 3))
  {
    CallerStays();
    Resting(Replay(OnlyCaller(), 0, 3));
  }

  lemma OnlyCallerPlayed()
    ensures var f := Playing(1, OnlyCaller()); f.IsRun() && f.Begun() && f.FairLoops()
  {
    var s := OnlyCaller();
    forall j: nat, t: nat | j < 1 && t < |s| ensures Playing(1, s).StepOf(j, t) { OnlyCallerStep(t); }
    OnlyCallerAtRest();
    PlayingIsRun(1, s);
  }

  lemma CallerAlways(t: nat)
    ensures var c := Replay(OnlyCaller(), 0, t);
            !c.phase.Gone? && c.chan.accepted == [] && (t >= 3 ==> c.chan.refs == map[1 := Caller])
  {
    CallerStays();
    if t >= 3 { ReplayEnds(OnlyCaller(), 0, t); }
  }

  // The documentation says that an actor is stopped when its last Addr is dropped. Here it is, and
  // the actor lives on for ever, because there is a Caller.
  ghost predicate OutlivesAddrs(f: Family<(), (), (), ()>, dropped: nat) {
    && f.IsRun() && f.Begun() && f.FairLoops() && f.size == 1 && LeftAlone(f, 0)
    && (forall t: nat, r: RefId :: dropped <= t && r in f.Refs(0, t) ==> !f.at(t, 0).chan.refs[r].Addr?)
    && forall t: nat :: !f.Gone(0, t)
  }

  lemma CallerOutlivesAddrs()
    ensures exists f, dropped :: OutlivesAddrs(f, dropped)
  {
    var f := Playing(1, OnlyCaller());
    OnlyCallerPlayed();
    forall t: nat
      ensures !f.Gone(0, t) && Stop !in f.at(t, 0).chan.accepted
               && (t >= 3 ==> f.at(t, 0).chan.refs == map[1 := Caller])
    {
      CallerAlways(t);
    }
    assert OutlivesAddrs(f, 3);
  }

  // ---------------------------------------------------------------- a timer that outlives a recreation

  // The idler, recreated from its default at every restart.
  function Recreated(): Program<(), (), (), ()> { Idler().(strategy := RecreateFromDefault) }

  // Its `started` spawns an interval, then somebody restarts it.
  function WithTimer(): seq<Event<()>> { [SpawnTimer(7), Start, Force(Restart), Pop, Event.Refresh] }

  // A recreation from the default gives a fresh actor, not a clean slate: the interval spawned by the
  // previous incarnation is still there and not aborted.
  lemma TimerOutlivesRecreation()
    ensures exists c: Plain ::
              && Reaches(Recreated(), Local((), ()), WithTimer(), c) && c.phase == Idle
              && c.trace == [StartHook(true), StopHook, StartHook(true)] && 7 in c.tasks && 7 !in c.aborted
  {
    var p := Recreated();
    var c1 := Next(p, Fresh(), SpawnTimer(7));
    var c2 := Next(p, c1, Start);
    var c5 := RestartedOnce(c2);
    OneStep(p, c1, [Start, Force(Restart), Pop, Event.Refresh], c5);
    OneStep(p, Fresh(), WithTimer(), c5);
    assert Reaches(p, Local((), ()), WithTimer(), c5);
  }

  lemma RestartedOnce(c: Plain) returns (d: Plain)
    requires c.phase == Idle && c.chan == NewChan() && c.trace == [StartHook(true)]
    ensures Run(Recreated(), c, [Force(Restart), Pop, Event.Refresh], d)
    ensures d.phase == Idle && d.trace == [StartHook(true), StopHook, StartHook(true)]
    ensures d.tasks == c.tasks && d.aborted == c.aborted
  {
    var p := Recreated();
    var c3 := Next(p, c, Force(Restart));
    var c4 := Next(p, c3, Pop);
    d := Next(p, c4, Event.Refresh);
    OneStep(p, c4, [Event.Refresh], d);
    OneStep(p, c3, [Pop, Event.Refresh], d);
    OneStep(p, c, [Force(Restart), Pop, Event.Refresh], d);
  }

  lemma OneStep(p: Program<(), (), (), ()>, c: Plain, es: seq<Event<()>>, d: Plain)
    requires es != [] && Can(p, c, es[0]) && Run(p, Next(p, c, es[0]), es[1..], d)
    ensures Run(p, c, es, d)
  {
  }
}
