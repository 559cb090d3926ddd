/** What the sequential meaning promises: the hook language, where a run ends, what a restart
    forgets and what a timeout can touch (src/environment.rs, src/actor/restart_strategy.rs). */
module SequentialLaws {
  import opened Messages
  import opened Sequential

  // ---------------------------------------------------------------- the hook language

  // ( task | stop start )*, the second alternative only for strategies that run hooks.
  ghost predicate Body(restarts: bool, t: seq<Mark>) {
    || t == []
    || (t[0] in {TaskDone, TaskCut} && Body(restarts, t[1..]))
    || (restarts && |t| >= 2 && t[..2] == [StopHook, StartHook(true)] && Body(restarts, t[2..]))
  }

  ghost predicate UpAndRunning(restarts: bool, t: seq<Mark>) {
    |t| >= 1 && t[0] == StartHook(true) && Body(restarts, t[1..])
  }

  // The traces allowed for each way a run can stand.
  ghost predicate InLanguage(restarts: bool, t: seq<Mark>, status: Status) {
    match status
    case Live => UpAndRunning(restarts, t)
    case Broke => UpAndRunning(restarts, t)
    case Failed(StartFailed) => t == [StartHook(false)]
    case Failed(RestartFailed) =>
      |t| >= 3 && restarts && UpAndRunning(restarts, t[..|t| - 2]) && t[|t| - 2..] == [StopHook, StartHook(false)]
    case Failed(TimedOut) => UpAndRunning(restarts, t) && t[|t| - 1] == TaskCut
    case Failed(Aborted) => UpAndRunning(restarts, t)
  }

  lemma {:induction false} BodyAppend(r: bool, a: seq<Mark>, b: seq<Mark>)
    requires Body(r, a) && Body(r, b)
    ensures Body(r, a + b)
    decreases |a|
  {
    if a == [] {
      assert a + b == b;
    } else if a[0] in {TaskDone, TaskCut} && Body(r, a[1..]) {
      BodyAppend(r, a[1..], b);
      assert (a + b)[1..] == a[1..] + b;
    } else {
      BodyAppend(r, a[2..], b);
      assert (a + b)[2..] == a[2..] + b && (a + b)[..2] == a[..2];
    }
  }

  lemma RunningAppend(r: bool, t: seq<Mark>, b: seq<Mark>)
    requires UpAndRunning(r, t) && Body(r, b)
    ensures UpAndRunning(r, t + b)
  {
    assert (t + b)[1..] == t[1..] + b && (t + b)[0] == t[0];
    assert Body(r, t[1..] + b) by { BodyAppend(r, t[1..], b); }
  }

  lemma BodyUnits()
    ensures forall r :: Body(r, [TaskDone]) && Body(r, [TaskCut])
    ensures Body(true, [StopHook, StartHook(true)])
  {
    assert [TaskDone][1..] == [] && [TaskCut][1..] == [];
    var pair := [StopHook, StartHook(true)];
    assert pair[..2] == pair && pair[2..] == [];
  }

  lemma {:induction false} HookGrammar<M, A, C, R>(prog: Program<M, A, C, R>, l: Local<A, C>, es: seq<Entry<M>>)
    ensures var s := Fold(prog, Begin(prog, l), es);
            InLanguage(prog.strategy != NonRestartable, s.trace, s.status)
    decreases |es|
  {
    if es == [] {
      assert Begin(prog, l).trace == [StartHook(prog.startOk(l))];
      assert [StartHook(true)][1..] == [];
    } else {
      HookGrammar(prog, l, es[..|es| - 1]);
      GrammarStep(prog, Fold(prog, Begin(prog, l), es[..|es| - 1]), es[|es| - 1]);
    }
  }

  lemma GrammarStep<M, A, C, R>(prog: Program<M, A, C, R>, s: State<A, C>, e: Entry<M>)
    requires InLanguage(prog.strategy != NonRestartable, s.trace, s.status)
    ensures var s' := Apply(prog, s, e); InLanguage(prog.strategy != NonRestartable, s'.trace, s'.status)
  {
    if s.status == Live {
      match e.payload
      case Task(w, _) =>
        assert UpAndRunning(prog.strategy != NonRestartable, s.trace + [TaskDone])
               && UpAndRunning(prog.strategy != NonRestartable, s.trace + [TaskCut]) by {
          BodyUnits();
          RunningAppend(prog.strategy != NonRestartable, s.trace, [TaskDone]);
          RunningAppend(prog.strategy != NonRestartable, s.trace, [TaskCut]);
        }
      case Restart => if !e.fate.AbortedAt? && prog.strategy != NonRestartable { GrammarRefresh(prog, s); }
      case Stop =>
    }
  }

  lemma GrammarRefresh<M, A, C, R>(prog: Program<M, A, C, R>, s: State<A, C>)
    requires prog.strategy != NonRestartable && UpAndRunning(true, s.trace)
    ensures var s' := Refresh(prog, s); InLanguage(true, s'.trace, s'.status)
  {
    RefreshTrace(prog, s);
    assert UpAndRunning(true, s.trace + [StopHook, StartHook(true)]) by {
      BodyUnits();
      RunningAppend(true, s.trace, [StopHook, StartHook(true)]);
    }
  }

  lemma RefreshTrace<M, A, C, R>(prog: Program<M, A, C, R>, s: State<A, C>)
    requires prog.strategy != NonRestartable
    ensures var s' := Refresh(prog, s);
            && (s'.status == Live || s'.status == Failed(RestartFailed))
            && s'.trace == s.trace + [StopHook, StartHook(s'.status == Live)]
            && s'.trace[..|s'.trace| - 2] == s.trace
            && s'.trace[|s'.trace| - 2..] == [StopHook, StartHook(s'.status == Live)]
  {
    var s' := Refresh(prog, s);
    assert s'.trace == (s.trace + [StopHook]) + [StartHook(s'.status == Live)];
  }

  function Starts(t: seq<Mark>): nat {
    if t == [] then 0 else Starts(t[..|t| - 1]) + if t[|t| - 1].StartHook? then 1 else 0
  }

  function Stops(t: seq<Mark>): nat {
    if t == [] then 0 else Stops(t[..|t| - 1]) + if t[|t| - 1] == StopHook then 1 else 0
  }

  lemma CountSnoc(t: seq<Mark>, m: Mark)
    ensures Starts(t + [m]) == Starts(t) + if m.StartHook? then 1 else 0
    ensures Stops(t + [m]) == Stops(t) + if m == StopHook then 1 else 0
  {
    assert (t + [m])[..|t|] == t;
  }

  lemma CountApply<M, A, C, R>(prog: Program<M, A, C, R>, s: State<A, C>, e: Entry<M>)
    ensures var s' := Apply(prog, s, e);
            Starts(s'.trace) - Stops(s'.trace) == Starts(s.trace) - Stops(s.trace)
  {
    match e.payload
    case Task(_, _) =>
      CountSnoc(s.trace, TaskDone);
      CountSnoc(s.trace, TaskCut);
    case Restart => if s.status == Live && !e.fate.AbortedAt? { CountRefresh(prog, s); }
    case Stop =>
  }

  lemma CountRefresh<M, A, C, R>(prog: Program<M, A, C, R>, s: State<A, C>)
    ensures var s' := Refresh(prog, s);
            Starts(s'.trace) - Stops(s'.trace) == Starts(s.trace) - Stops(s.trace)
  {
    CountSnoc(s.trace, StopHook);
    CountSnoc(s.trace + [StopHook], StartHook(true));
    CountSnoc(s.trace + [StopHook], StartHook(false));
  }

  // On a clean exit every start has its stop; a failed start, restart or timeout leaves one unmatched.
  lemma {:induction false} HooksBalance<M, A, C, R>(prog: Program<M, A, C, R>, l: Local<A, C>, es: seq<Entry<M>>)
    ensures var s := Fold(prog, Begin(prog, l), es);
            && Starts(s.trace) == Stops(s.trace) + 1
            && (var t := Close(prog, s).trace; Starts(t) == Stops(t) + if s.status.Failed? then 1 else 0)
    decreases |es|
  {
    var s := Fold(prog, Begin(prog, l), es);
    if es == [] {
      CountSnoc([], StartHook(true));
      CountSnoc([], StartHook(false));
    } else {
      HooksBalance(prog, l, es[..|es| - 1]);
      CountApply(prog, Fold(prog, Begin(prog, l), es[..|es| - 1]), es[|es| - 1]);
    }
    CountSnoc(s.trace, StopHook);
  }

  // ---------------------------------------------------------------- where a run ends

  // A run that has not failed has met no Stop unless it is the last thing it handled.
  lemma {:induction false} StopIsLast<M, A, C, R>(prog: Program<M, A, C, R>, s: State<A, C>, es: seq<Entry<M>>)
    requires s.status == Live && (es == [] || Fold(prog, s, es[..|es| - 1]).status == Live)
    ensures forall i :: 0 <= i < |es| - 1 ==> es[i].payload != Stop
    ensures Fold(prog, s, es).status == Broke <==> es != [] && es[|es| - 1].payload == Stop
    decreases |es|
  {
    if es != [] {
      var n := |es| - 1;
      forall i | 0 <= i < n ensures es[i].payload != Stop {
        LiveMeansNoStop(prog, s, es[..n], i);
      }
      if es[n].payload == Restart { RefreshStatus(prog, Fold(prog, s, es[..n])); }
    }
  }

  lemma LiveMeansNoStop<M, A, C, R>(prog: Program<M, A, C, R>, s: State<A, C>, es: seq<Entry<M>>, i: nat)
    requires i < |es| && Fold(prog, s, es).status == Live
    ensures es[i].payload != Stop && Fold(prog, s, es[..i]).status == Live
  {
    if Fold(prog, s, es[..i]).status != Live {
      FoldFrozen(prog, s, es, i);
    } else if es[i].payload == Stop {
      assert es[..i + 1][..i] == es[..i];
      FoldFrozen(prog, s, es, i + 1);
    }
  }

  lemma RefreshStatus<M, A, C, R>(prog: Program<M, A, C, R>, s: State<A, C>)
    requires s.status == Live
    ensures Refresh(prog, s).status in {Live, Failed(RestartFailed)}
  {
  }

  // ---------------------------------------------------------------- restarts

  function WithoutRestarts<M>(es: seq<Entry<M>>): seq<Entry<M>> {
    if es == [] then [] else
      WithoutRestarts(es[..|es| - 1]) + if es[|es| - 1].payload == Restart then [] else [es[|es| - 1]]
  }

  // A non-restartable actor cannot tell whether anyone asked it to restart.
  lemma {:induction false} NonRestartableIgnoresRestarts<M, A, C, R>(
      prog: Program<M, A, C, R>, s: State<A, C>, es: seq<Entry<M>>)
    requires prog.strategy == NonRestartable
    requires forall i :: 0 <= i < |es| && es[i].payload == Restart ==> es[i].fate == Completed
    ensures Fold(prog, s, es) == Fold(prog, s, WithoutRestarts(es))
    decreases |es|
  {
    if es != [] {
      var n := |es| - 1;
      NonRestartableIgnoresRestarts(prog, s, es[..n]);
      if es[n].payload == Restart {
        assert WithoutRestarts(es) == WithoutRestarts(es[..n]);
      } else {
        FoldSnoc(prog, s, WithoutRestarts(es[..n]), es[n]);
      }
    }
  }

  // Hooks and handlers whose effect on the actor and whose verdict do not look at the context.
  ghost predicate IgnoresContext<M(!new), A(!new), C(!new), R>(prog: Program<M, A, C, R>) {
    && (forall k: Local<A, C>, l: Local<A, C> {:trigger prog.started(k), prog.started(l)} | k.actor == l.actor ::
          prog.started(k).actor == prog.started(l).actor)
    && (forall k: Local<A, C>, l: Local<A, C> {:trigger prog.startOk(k), prog.startOk(l)} | k.actor == l.actor ::
          prog.startOk(k) == prog.startOk(l))
    && (forall k: Local<A, C>, l: Local<A, C> {:trigger prog.stopped(k), prog.stopped(l)} | k.actor == l.actor ::
          prog.stopped(k).actor == prog.stopped(l).actor)
    && (forall m, i, k: Local<A, C>, l: Local<A, C> {:trigger prog.segment(m, i, k), prog.segment(m, i, l)}
          | k.actor == l.actor :: prog.segment(m, i, k).actor == prog.segment(m, i, l).actor)
    && (forall m, k: Local<A, C>, l: Local<A, C> {:trigger prog.finish(m, k), prog.finish(m, l)}
          | k.actor == l.actor :: prog.finish(m, k).actor == prog.finish(m, l).actor)
  }

  ghost predicate SameActor<A, C>(s: State<A, C>, t: State<A, C>) {
    s.local.actor == t.local.actor && s.status == t.status
  }

  lemma SegmentSameActor<M(!new), A(!new), C(!new), R>(
      prog: Program<M, A, C, R>, w: Work<M>, i: nat, k: Local<A, C>, l: Local<A, C>)
    requires IgnoresContext(prog) && k.actor == l.actor
    ensures Segment(prog, w, i, k).actor == Segment(prog, w, i, l).actor
  {
  }

  lemma {:induction false} SegmentsSameActor<M(!new), A(!new), C(!new), R>(
      prog: Program<M, A, C, R>, w: Work<M>, n: nat, k: Local<A, C>, l: Local<A, C>)
    requires IgnoresContext(prog) && k.actor == l.actor
    ensures RunSegments(prog, w, n, k).actor == RunSegments(prog, w, n, l).actor
  {
    if n > 0 {
      var i := n - 1;
      SegmentsSameActor(prog, w, i, k, l);
      SegmentSameActor(prog, w, i, RunSegments(prog, w, i, k), RunSegments(prog, w, i, l));
    }
  }

  lemma ApplySameActor<M(!new), A(!new), C(!new), R>(
      prog: Program<M, A, C, R>, s: State<A, C>, t: State<A, C>, e: Entry<M>)
    requires IgnoresContext(prog) && SameActor(s, t)
    ensures SameActor(Apply(prog, s, e), Apply(prog, t, e))
  {
    match e.payload
    case Task(w, _) =>
      var n := match e.fate case Completed => Awaits(prog, w) case CutAt(pc) => pc case AbortedAt(pc) => pc;
      SegmentsSameActor(prog, w, n, s.local, t.local);
    case Restart =>
    case Stop =>
  }

  lemma {:induction false} FoldSameActor<M(!new), A(!new), C(!new), R>(
      prog: Program<M, A, C, R>, s: State<A, C>, t: State<A, C>, es: seq<Entry<M>>)
    requires IgnoresContext(prog) && SameActor(s, t)
    ensures SameActor(Fold(prog, s, es), Fold(prog, t, es))
    decreases |es|
  {
    if es != [] {
      FoldSameActor(prog, s, t, es[..|es| - 1]);
      ApplySameActor(prog, Fold(prog, s, es[..|es| - 1]), Fold(prog, t, es[..|es| - 1]), es[|es| - 1]);
    }
  }

  lemma RecreatedFresh<M(!new), A(!new), C(!new), R>(prog: Program<M, A, C, R>, s: State<A, C>, c: C)
    requires prog.strategy == RecreateFromDefault && IgnoresContext(prog)
    requires s.status == Live && Apply(prog, s, Entry(Restart, Completed)).status == Live
    ensures SameActor(Apply(prog, s, Entry(Restart, Completed)), Begin(prog, Local(prog.default, c)))
  {
  }

  // After a restart from default that succeeds, whatever was handled before is forgotten: the rest
  // of the mailbox gives the actor that a fresh default actor would have become, in any context.
  lemma RecreateForgets<M(!new), A(!new), C(!new), R>(
      prog: Program<M, A, C, R>, l: Local<A, C>, before: seq<Entry<M>>, after: seq<Entry<M>>, c: C)
    requires prog.strategy == RecreateFromDefault && IgnoresContext(prog)
    requires Apply(prog, Fold(prog, Begin(prog, l), before), Entry(Restart, Completed)).status == Live
    ensures SameActor(Fold(prog, Begin(prog, l), before + [Entry(Restart, Completed)] + after),
                      Fold(prog, Begin(prog, Local(prog.default, c)), after))
  {
    var b := before + [Entry(Restart, Completed)];
    var s := Fold(prog, Begin(prog, l), before);
    var r := Apply(prog, s, Entry(Restart, Completed));
    assert Fold(prog, Begin(prog, l), b) == r by { FoldSnoc(prog, Begin(prog, l), before, Entry(Restart, Completed)); }
    RecreatedFresh(prog, s, c);
    FoldAppend(prog, Begin(prog, l), b, after);
    FoldSameActor(prog, r, Begin(prog, Local(prog.default, c)), after);
  }

  // The context type of a Program is arbitrary here, so the premise cannot be done without: hooks that
  // could read from their context what an earlier incarnation left there would remember it.
  function CountingProgram(): Program<(), int, int, ()> {
    Program((l: Local<int, int>) => Local(l.ctx, l.ctx + 1), _ => true, l => l, 0,
            _ => 0, (_, _, l) => l, (_, l) => l, (_, _) => (), RecreateFromDefault, false, false)
  }

  lemma PremiseNeeded()
    ensures var prog := CountingProgram();
            var once := Fold(prog, Begin(prog, Local(0, 0)), [Entry(Restart, Completed)]);
            once.status == Live && once.local.actor != Begin(prog, Local(prog.default, 0)).local.actor
  {
    var prog := CountingProgram();
    FoldSnoc(prog, Begin(prog, Local(0, 0)), [], Entry(Restart, Completed));
    assert [] + [Entry<()>.Entry(Restart, Completed)] == [Entry(Restart, Completed)];
  }

  // A restart that only restarts never looks at the default: an actor with another one goes through
  // the same mailbox in the same way.
  lemma {:induction false} SegmentsSameDefault<M, A, C, R>(
      prog: Program<M, A, C, R>, d: A, w: Work<M>, n: nat, l: Local<A, C>)
    ensures RunSegments(prog.(default := d), w, n, l) == RunSegments(prog, w, n, l)
  {
    if n > 0 { SegmentsSameDefault(prog, d, w, n - 1, l); }
  }

  lemma ApplySameDefault<M, A, C, R>(prog: Program<M, A, C, R>, d: A, s: State<A, C>, e: Entry<M>)
    requires prog.strategy == RestartOnly
    ensures Apply(prog.(default := d), s, e) == Apply(prog, s, e)
  {
    match e.payload
    case Task(w, _) =>
      var n := match e.fate case Completed => Awaits(prog, w) case CutAt(pc) => pc case AbortedAt(pc) => pc;
      SegmentsSameDefault(prog, d, w, n, s.local);
    case Restart =>
    case Stop =>
  }

  lemma {:induction false} RestartOnlyIgnoresDefault<M, A, C, R>(
      prog: Program<M, A, C, R>, d: A, s: State<A, C>, es: seq<Entry<M>>)
    requires prog.strategy == RestartOnly
    ensures Fold(prog.(default := d), s, es) == Fold(prog, s, es)
    decreases |es|
  {
    if es != [] {
      var n := |es| - 1;
      RestartOnlyIgnoresDefault(prog, d, s, es[..n]);
      ApplySameDefault(prog, d, Fold(prog, s, es[..n]), es[n]);
    }
  }

  ghost predicate HooksKeepActor<M, A(!new), C(!new), R>(prog: Program<M, A, C, R>) {
    && (forall l: Local<A, C> {:trigger prog.started(l)} :: prog.started(l).actor == l.actor)
    && (forall l: Local<A, C> {:trigger prog.stopped(l)} :: prog.stopped(l).actor == l.actor)
  }

  // So with hooks that leave the actor alone, restarts that succeed leave no mark on it.
  lemma {:induction false} RestartOnlyKeepsActor<M(!new), A(!new), C(!new), R>(
      prog: Program<M, A, C, R>, s: State<A, C>, es: seq<Entry<M>>)
    requires prog.strategy == RestartOnly && IgnoresContext(prog) && HooksKeepActor(prog)
    requires forall i :: 0 <= i < |es| && es[i].payload == Restart ==> es[i].fate == Completed
    requires Fold(prog, s, es).status != Failed(RestartFailed)
    ensures SameActor(Fold(prog, s, es), Fold(prog, s, WithoutRestarts(es)))
    decreases |es|
  {
    if es != [] {
      var n := |es| - 1;
      var b, w := Fold(prog, s, es[..n]), Fold(prog, s, WithoutRestarts(es[..n]));
      assert b.status != Failed(RestartFailed) by { StaysFailed(prog, b, es[n]); }
      RestartOnlyKeepsActor(prog, s, es[..n]);
      if es[n].payload == Restart {
        assert WithoutRestarts(es) == WithoutRestarts(es[..n]);
        SucceedsInPlace(prog, b, es[n]);
      } else {
        FoldSnoc(prog, s, WithoutRestarts(es[..n]), es[n]);
        ApplySameActor(prog, b, w, es[n]);
      }
    }
  }

  lemma StaysFailed<M, A, C, R>(prog: Program<M, A, C, R>, s: State<A, C>, e: Entry<M>)
    ensures s.status == Failed(RestartFailed) ==> Apply(prog, s, e) == s
  {
  }

  lemma SucceedsInPlace<M, A(!new), C(!new), R>(prog: Program<M, A, C, R>, s: State<A, C>, e: Entry<M>)
    requires prog.strategy == RestartOnly && HooksKeepActor(prog) && e == Entry(Restart, Completed)
    requires Apply(prog, s, e).status != Failed(RestartFailed)
    ensures SameActor(Apply(prog, s, e), s)
  {
    assert prog.stopped(s.local).actor == s.local.actor;
  }

  // ---------------------------------------------------------------- timeouts

  // Without fail_on_timeout a run cannot fail on a timeout, and cuts never keep a later message
  // from being dispatched: as long as no Stop, Restart or abort is met the run stays live.
  lemma {:induction false} CutsAreIsolated<M, A, C, R>(prog: Program<M, A, C, R>, s: State<A, C>, es: seq<Entry<M>>)
    requires !prog.failOnTimeout && s.status == Live
    ensures Fold(prog, s, es).status != Failed(TimedOut)
    ensures (forall i :: 0 <= i < |es| ==> es[i].payload.Task? && !es[i].fate.AbortedAt?) ==>
              Fold(prog, s, es).status == Live && |Fold(prog, s, es).trace| == |s.trace| + |es|
    decreases |es|
  {
    if es != [] {
      CutsAreIsolated(prog, s, es[..|es| - 1]);
      var b := Fold(prog, s, es[..|es| - 1]);
      if b.status == Live { RefreshStatus(prog, b); }
    }
  }

  // With it the first cut is the end: no later task, no `stopped`.
  lemma FirstCutEnds<M, A, C, R>(prog: Program<M, A, C, R>, s: State<A, C>, es: seq<Entry<M>>, i: nat)
    requires prog.failOnTimeout && i < |es| && es[i].payload.Task? && es[i].fate.CutAt?
    requires Fold(prog, s, es[..i]).status == Live
    ensures var end := Fold(prog, s, es);
            && end == Fold(prog, s, es[..i + 1]) && end.status == Failed(TimedOut)
            && Close(prog, end) == end && end.trace == Fold(prog, s, es[..i]).trace + [TaskCut]
  {
    assert es[..i + 1][..i] == es[..i];
    FoldFrozen(prog, s, es, i + 1);
  }
}
