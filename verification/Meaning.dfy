/** What a run means, said without the functions that compute it: a path of locals, one per handled
    payload, whose every link is spelled out in the actor's own hooks and segments
    (src/environment.rs, src/actor/restart_strategy.rs). The fold of Sequential is proved to be it. */
module Meaning {
  import opened Messages
  import opened Sequential

  // The locals at the start of a handler and after each of its first k segments.
  ghost predicate Steps<M, A, C, R>(prog: Program<M, A, C, R>, m: M, ls: seq<Local<A, C>>, k: nat) {
    && |ls| == k + 1
    && forall j: nat {:trigger prog.segment(m, j, ls[j])} :: j < k ==> ls[j + 1] == prog.segment(m, j, ls[j])
  }

  // A handler runs from x through all its await points to its return, leaving y.
  ghost predicate Returns<M, A, C, R>(
      prog: Program<M, A, C, R>, m: M, x: Local<A, C>, ls: seq<Local<A, C>>, y: Local<A, C>)
  {
    Steps(prog, m, ls, prog.awaits(m)) && ls[0] == x && y == prog.finish(m, ls[prog.awaits(m)])
  }

  // A handler that is dropped at its k-th await point has run k segments and nothing else.
  ghost predicate IsCut<M, A, C, R>(
      prog: Program<M, A, C, R>, m: M, x: Local<A, C>, ls: seq<Local<A, C>>, k: nat, y: Local<A, C>)
  {
    Steps(prog, m, ls, k) && ls[0] == x && ls[k] == y
  }

  // What `started` is given at a restart.
  function Restarted<M, A, C, R>(prog: Program<M, A, C, R>, x: Local<A, C>): Local<A, C>
    requires prog.strategy != NonRestartable
  {
    if prog.strategy == RestartOnly then prog.stopped(x) else Local(prog.default, prog.stopped(x).ctx)
  }

  // How one payload, with the fate it met, takes the locals from x to y; ls are those inside a handler.
  ghost predicate Link<M, A, C, R>(
      prog: Program<M, A, C, R>, e: Entry<M>, x: Local<A, C>, ls: seq<Local<A, C>>, y: Local<A, C>)
  {
    match e.payload
    case Stop => y == x
    case Restart =>
      if prog.strategy == NonRestartable || e.fate.AbortedAt? then y == x else y == prog.started(Restarted(prog, x))
    case Task(Ping, _) => y == x
    case Task(Handle(m), _) =>
      match e.fate
      case Completed => Returns(prog, m, x, ls, y)
      case CutAt(k) => IsCut(prog, m, x, ls, k, y)
      case AbortedAt(k) => IsCut(prog, m, x, ls, k, y)
  }

  // Whether the loop goes on after e, met at x.
  predicate GoesOn<M, A, C, R>(prog: Program<M, A, C, R>, e: Entry<M>, x: Local<A, C>) {
    match e.payload
    case Stop => false
    case Restart => !e.fate.AbortedAt? && (prog.strategy != NonRestartable ==> prog.startOk(Restarted(prog, x)))
    case Task(_, _) => e.fate.Completed? || (e.fate.CutAt? && !prog.failOnTimeout)
  }

  // The hooks and tasks that e adds to the trace.
  function Marks<M, A, C, R>(prog: Program<M, A, C, R>, e: Entry<M>, x: Local<A, C>): seq<Mark> {
    match e.payload
    case Stop => []
    case Restart =>
      if prog.strategy == NonRestartable || e.fate.AbortedAt? then []
      else [StopHook, StartHook(prog.startOk(Restarted(prog, x)))]
    case Task(_, _) => if e.fate.Completed? then [TaskDone] else [TaskCut]
  }

  function AllMarks<M, A, C, R>(prog: Program<M, A, C, R>, es: seq<Entry<M>>, xs: seq<Local<A, C>>): seq<Mark>
    requires |es| <= |xs|
  {
    if es == [] then [] else
      var n := |es| - 1;
      AllMarks(prog, es[..n], xs) + Marks(prog, es[n], xs[n])
  }

  // xs[i] are the locals before the i-th payload, iss[i] those inside its handler.
  ghost predicate Path<M, A, C, R>(
      prog: Program<M, A, C, R>, l: Local<A, C>, es: seq<Entry<M>>, xs: seq<Local<A, C>>, iss: seq<seq<Local<A, C>>>)
  {
    && |xs| == |es| + 1 && |iss| == |es| && xs[0] == prog.started(l)
    && forall i {:trigger Link(prog, es[i], xs[i], iss[i], xs[i + 1])} :: 0 <= i < |es| ==>
         Link(prog, es[i], xs[i], iss[i], xs[i + 1])
  }

  // Every payload but the last found the loop going on.
  ghost predicate Dispatches<M, A, C, R>(
      prog: Program<M, A, C, R>, l: Local<A, C>, es: seq<Entry<M>>, xs: seq<Local<A, C>>)
    requires |es| <= |xs|
  {
    prog.startOk(l) && forall i {:trigger GoesOn(prog, es[i], xs[i])} :: 0 <= i < |es| ==> GoesOn(prog, es[i], xs[i])
  }

  // ---------------------------------------------------------------- the fold is that path

  // The inside of a handler, as the fold computes it.
  function Inside<M, A, C, R>(prog: Program<M, A, C, R>, w: Work<M>, x: Local<A, C>, k: nat): (ls: seq<Local<A, C>>)
    ensures |ls| == k + 1
  {
    seq(k + 1, i requires 0 <= i => RunSegments(prog, w, i, x))
  }

  lemma InsideSteps<M, A, C, R>(prog: Program<M, A, C, R>, m: M, x: Local<A, C>, k: nat)
    ensures Steps(prog, m, Inside(prog, Handle(m), x, k), k)
    ensures Inside(prog, Handle(m), x, k)[0] == x
    ensures Inside(prog, Handle(m), x, k)[k] == RunSegments(prog, Handle(m), k, x)
  {
    var ls := Inside(prog, Handle(m), x, k);
    forall j: nat | j < k ensures ls[j + 1] == prog.segment(m, j, ls[j]) {
      assert RunSegments(prog, Handle(m), j + 1, x) == prog.segment(m, j, RunSegments(prog, Handle(m), j, x));
    }
  }

  function InsideOf<M, A, C, R>(prog: Program<M, A, C, R>, e: Entry<M>, x: Local<A, C>): seq<Local<A, C>> {
    match e.payload
    case Task(w, _) =>
      Inside(prog, w, x, match e.fate case Completed => Awaits(prog, w) case CutAt(k) => k case AbortedAt(k) => k)
    case _ => [x]
  }

  // A completed handler answers what its own `answer` says of the locals at its end.
  lemma TaskReturns<M, A, C, R>(prog: Program<M, A, C, R>, m: M, x: Local<A, C>)
    ensures var ls := Inside(prog, Handle(m), x, prog.awaits(m));
            Returns(prog, m, x, ls, RunTask(prog, Handle(m), x))
            && TaskAnswer(prog, Handle(m), x) == Value(prog.answer(m, ls[prog.awaits(m)]))
  {
    InsideSteps(prog, m, x, prog.awaits(m));
  }

  lemma ApplyLinks<M, A, C, R>(prog: Program<M, A, C, R>, s: State<A, C>, e: Entry<M>)
    requires s.status == Live
    ensures Link(prog, e, s.local, InsideOf(prog, e, s.local), Apply(prog, s, e).local)
  {
    match e.payload
    case Task(Handle(m), _) =>
      match e.fate {
        case Completed => TaskReturns(prog, m, s.local);
        case CutAt(k) => InsideSteps(prog, m, s.local, k);
        case AbortedAt(k) => InsideSteps(prog, m, s.local, k);
      }
    case Task(Ping, _) => PingIdle(prog, s, e);
    case Restart =>
    case Stop =>
  }

  lemma {:induction false} NoSegments<M, A, C, R>(prog: Program<M, A, C, R>, k: nat, x: Local<A, C>)
    ensures RunSegments(prog, Ping, k, x) == x
  {
    if k > 0 { NoSegments(prog, k - 1, x); }
  }

  // A ping touches nothing and answers itself.
  lemma PingIdle<M, A, C, R>(prog: Program<M, A, C, R>, s: State<A, C>, e: Entry<M>)
    requires s.status == Live && e.payload.Task? && e.payload.work == Ping
    ensures Apply(prog, s, e).local == s.local && TaskAnswer(prog, Ping, s.local) == Pong
  {
    match e.fate
    case Completed => NoSegments(prog, 0, s.local);
    case CutAt(k) => NoSegments(prog, k, s.local);
    case AbortedAt(k) => NoSegments(prog, k, s.local);
  }

  lemma ApplyGoesOn<M, A, C, R>(prog: Program<M, A, C, R>, s: State<A, C>, e: Entry<M>)
    requires s.status == Live
    ensures Apply(prog, s, e).status == Live <==> GoesOn(prog, e, s.local)
    ensures Apply(prog, s, e).trace == s.trace + Marks(prog, e, s.local)
  {
    assert s.trace + [] == s.trace;
    if e.payload.Restart? && prog.strategy != NonRestartable && !e.fate.AbortedAt? {
      var ok := prog.startOk(Restarted(prog, s.local));
      assert s.trace + [StopHook, StartHook(ok)] == (s.trace + [StopHook]) + [StartHook(ok)];
    }
  }

  // The locals the fold passes through.
  function Through<M, A, C, R>(prog: Program<M, A, C, R>, l: Local<A, C>, es: seq<Entry<M>>): (xs: seq<Local<A, C>>)
    ensures |xs| == |es| + 1
  {
    seq(|es| + 1, i requires 0 <= i <= |es| => Fold(prog, Begin(prog, l), es[..i]).local)
  }

  function Insides<M, A, C, R>(
      prog: Program<M, A, C, R>, es: seq<Entry<M>>, xs: seq<Local<A, C>>): (iss: seq<seq<Local<A, C>>>)
    requires |es| <= |xs|
    ensures |iss| == |es|
  {
    seq(|es|, i requires 0 <= i < |es| => InsideOf(prog, es[i], xs[i]))
  }

  // Only a running loop is handed a payload.
  ghost predicate AllLive<M, A, C, R>(prog: Program<M, A, C, R>, l: Local<A, C>, es: seq<Entry<M>>) {
    forall i {:trigger es[..i]} :: 0 <= i < |es| ==> Fold(prog, Begin(prog, l), es[..i]).status == Live
  }

  lemma LinkAt<M, A, C, R>(prog: Program<M, A, C, R>, l: Local<A, C>, es: seq<Entry<M>>, i: nat)
    requires AllLive(prog, l, es) && i < |es|
    ensures var xs := Through(prog, l, es); Link(prog, es[i], xs[i], InsideOf(prog, es[i], xs[i]), xs[i + 1])
  {
    assert es[..i + 1] == es[..i] + [es[i]];
    FoldSnoc(prog, Begin(prog, l), es[..i], es[i]);
    ApplyLinks(prog, Fold(prog, Begin(prog, l), es[..i]), es[i]);
  }

  // The fold over what a running loop was handed is a path, and ends where the path ends.
  lemma FoldIsPath<M, A, C, R>(prog: Program<M, A, C, R>, l: Local<A, C>, es: seq<Entry<M>>)
    requires AllLive(prog, l, es)
    ensures var xs := Through(prog, l, es);
            Path(prog, l, es, xs, Insides(prog, es, xs)) && xs[|es|] == Fold(prog, Begin(prog, l), es).local
  {
    var xs := Through(prog, l, es);
    assert es[..|es|] == es && es[..0] == [];
    forall i | 0 <= i < |es| ensures Link(prog, es[i], xs[i], Insides(prog, es, xs)[i], xs[i + 1]) {
      LinkAt(prog, l, es, i);
    }
  }

  // There is only one path: each link determines the next locals.
  lemma {:induction false} StepsAgree<M, A, C, R>(
      prog: Program<M, A, C, R>, m: M, ls: seq<Local<A, C>>, ks: seq<Local<A, C>>, n: nat, j: nat)
    requires Steps(prog, m, ls, n) && Steps(prog, m, ks, n) && ls[0] == ks[0] && j <= n
    ensures ls[j] == ks[j]
  {
    if j > 0 {
      StepsAgree(prog, m, ls, ks, n, j - 1);
      assert ls[j] == prog.segment(m, j - 1, ls[j - 1]) && ks[j] == prog.segment(m, j - 1, ks[j - 1]);
    }
  }

  // What the task of e answers, if it ran to its end; ls are the locals inside it.
  ghost predicate Says<M, A, C, R>(prog: Program<M, A, C, R>, e: Entry<M>, ls: seq<Local<A, C>>, r: Reply<R>) {
    && e.fate == Completed && e.payload.Task?
    && match e.payload.work
       case Ping => r == Pong
       case Handle(m) => |ls| == prog.awaits(m) + 1 && r == Value(prog.answer(m, ls[prog.awaits(m)]))
  }

  lemma SaysAnswer<M, A, C, R>(
      prog: Program<M, A, C, R>, e: Entry<M>, x: Local<A, C>, ls: seq<Local<A, C>>, y: Local<A, C>, r: Reply<R>)
    requires Link(prog, e, x, ls, y) && e.fate == Completed && e.payload.Task?
    ensures Says(prog, e, ls, r) <==> r == TaskAnswer(prog, e.payload.work, x)
  {
    match e.payload.work
    case Ping =>
    case Handle(m) =>
      TaskReturns(prog, m, x);
      StepsAgree(prog, m, ls, Inside(prog, Handle(m), x, prog.awaits(m)), prog.awaits(m), prog.awaits(m));
  }

  lemma LinkDetermines<M, A, C, R>(
      prog: Program<M, A, C, R>, e: Entry<M>, x: Local<A, C>, ls: seq<Local<A, C>>, y: Local<A, C>,
      ks: seq<Local<A, C>>, z: Local<A, C>)
    requires Link(prog, e, x, ls, y) && Link(prog, e, x, ks, z)
    ensures y == z
  {
    match e.payload
    case Task(Handle(m), _) =>
      var n := match e.fate case Completed => prog.awaits(m) case CutAt(k) => k case AbortedAt(k) => k;
      StepsAgree(prog, m, ls, ks, n, n);
    case _ =>
  }

  lemma {:induction false} OnePath<M, A, C, R>(
      prog: Program<M, A, C, R>, l: Local<A, C>, es: seq<Entry<M>>, xs: seq<Local<A, C>>, iss: seq<seq<Local<A, C>>>,
      ys: seq<Local<A, C>>, jss: seq<seq<Local<A, C>>>, i: nat)
    requires Path(prog, l, es, xs, iss) && Path(prog, l, es, ys, jss) && i <= |es|
    ensures xs[i] == ys[i]
  {
    if i > 0 {
      var k := i - 1;
      OnePath(prog, l, es, xs, iss, ys, jss, k);
      assert Link(prog, es[k], xs[k], iss[k], xs[k + 1]) && Link(prog, es[k], ys[k], jss[k], ys[k + 1]);
      LinkDetermines(prog, es[k], xs[k], iss[k], xs[k + 1], jss[k], ys[k + 1]);
    }
  }

  // Whether the loop is still running after es, and what its trace tells, is what the path says.
  lemma {:induction false} FoldTells<M, A, C, R>(prog: Program<M, A, C, R>, l: Local<A, C>, es: seq<Entry<M>>)
    requires AllLive(prog, l, es)
    ensures var s, xs := Fold(prog, Begin(prog, l), es), Through(prog, l, es);
            && (s.status == Live <==> Dispatches(prog, l, es, xs))
            && s.trace == [StartHook(prog.startOk(l))] + AllMarks(prog, es, xs)
    decreases |es|
  {
    var xs := Through(prog, l, es);
    if es == [] {
      assert Begin(prog, l).trace == [StartHook(prog.startOk(l))];
      assert AllMarks(prog, es, xs) == [];
    } else {
      var n := |es| - 1;
      var bs, ys := es[..n], Through(prog, l, es[..n]);
      AllLivePrefix(prog, l, es, n);
      FoldTells(prog, l, bs);
      ThroughPrefix(prog, l, es, n);
      MarksSame(prog, bs, xs, ys);
      ApplyGoesOn(prog, Fold(prog, Begin(prog, l), bs), es[n]);
      assert xs[n] == Fold(prog, Begin(prog, l), bs).local;
      DispatchesMore(prog, l, es, xs, ys);
    }
  }

  lemma AllLivePrefix<M, A, C, R>(prog: Program<M, A, C, R>, l: Local<A, C>, es: seq<Entry<M>>, n: nat)
    requires AllLive(prog, l, es) && n <= |es|
    ensures AllLive(prog, l, es[..n])
  {
    forall i | 0 <= i < n ensures Fold(prog, Begin(prog, l), es[..n][..i]).status == Live {
      assert es[..n][..i] == es[..i];
    }
  }

  lemma ThroughPrefix<M, A, C, R>(prog: Program<M, A, C, R>, l: Local<A, C>, es: seq<Entry<M>>, n: nat)
    requires n <= |es|
    ensures forall i :: 0 <= i <= n ==> Through(prog, l, es)[i] == Through(prog, l, es[..n])[i]
  {
    forall i | 0 <= i <= n ensures Through(prog, l, es)[i] == Through(prog, l, es[..n])[i] {
      assert es[..n][..i] == es[..i];
    }
  }

  lemma {:induction false} MarksSame<M, A, C, R>(
      prog: Program<M, A, C, R>, es: seq<Entry<M>>, xs: seq<Local<A, C>>, ys: seq<Local<A, C>>)
    requires |es| <= |xs| && |es| <= |ys| && forall i :: 0 <= i < |es| ==> xs[i] == ys[i]
    ensures AllMarks(prog, es, xs) == AllMarks(prog, es, ys)
    decreases |es|
  {
    if es != [] { MarksSame(prog, es[..|es| - 1], xs, ys); }
  }

  lemma DispatchesMore<M, A, C, R>(
      prog: Program<M, A, C, R>, l: Local<A, C>, es: seq<Entry<M>>, xs: seq<Local<A, C>>, ys: seq<Local<A, C>>)
    requires es != [] && |xs| == |es| + 1 && |ys| == |es| && forall i :: 0 <= i < |es| ==> xs[i] == ys[i]
    ensures var n := |es| - 1;
            Dispatches(prog, l, es, xs) <==> Dispatches(prog, l, es[..n], ys) && GoesOn(prog, es[n], xs[n])
  {
    var n := |es| - 1;
    if Dispatches(prog, l, es, xs) {
      forall i | 0 <= i < n ensures GoesOn(prog, es[..n][i], ys[i]) { assert GoesOn(prog, es[i], xs[i]); }
    }
    if Dispatches(prog, l, es[..n], ys) && GoesOn(prog, es[n], xs[n]) {
      forall i | 0 <= i < |es| ensures GoesOn(prog, es[i], xs[i]) {
        if i < n { assert GoesOn(prog, es[..n][i], ys[i]); }
      }
    }
  }

  // ---------------------------------------------------------------- handlers without await points

  // The messages, each finished in its turn.
  function Iterated<M, A, C, R>(prog: Program<M, A, C, R>, l: Local<A, C>, ms: seq<M>): Local<A, C> {
    if ms == [] then l else prog.finish(ms[|ms| - 1], Iterated(prog, l, ms[..|ms| - 1]))
  }

  ghost predicate PlainTasks<M, A, C, R>(prog: Program<M, A, C, R>, es: seq<Entry<M>>, ms: seq<M>) {
    && |es| == |ms|
    && forall i :: 0 <= i < |es| ==>
         && es[i].fate == Completed && es[i].payload.Task? && es[i].payload.work == Handle(ms[i])
         && prog.awaits(ms[i]) == 0
  }

  lemma {:induction false} PathIterates<M, A, C, R>(
      prog: Program<M, A, C, R>, l: Local<A, C>, es: seq<Entry<M>>, ms: seq<M>, xs: seq<Local<A, C>>,
      iss: seq<seq<Local<A, C>>>, i: nat)
    requires i <= |es| && Path(prog, l, es, xs, iss) && PlainTasks(prog, es[..i], ms)
    ensures xs[i] == Iterated(prog, prog.started(l), ms)
    decreases i
  {
    if i > 0 {
      var k := i - 1;
      assert es[..i][k] == es[k] && es[..i][..k] == es[..k];
      forall j | 0 <= j < k ensures es[..k][j] == es[..i][j] && ms[..k][j] == ms[j] {}
      PathIterates(prog, l, es, ms[..k], xs, iss, k);
      assert Link(prog, es[k], xs[k], iss[k], xs[k + 1]);
    }
  }
}
