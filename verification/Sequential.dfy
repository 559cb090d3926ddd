/** The sequential meaning of an actor: a fold over its mailbox in acceptance order.
    The interleaved machine (Actors) and the imperative loops (EventLoop, StreamLoop) are proved against it. */
module Sequential {
  import opened Messages

  // The two values the loop lends to every hook and handler: the actor and its context.
  // A restart may replace the first, never the second.
  datatype Local<A, C> = Local(actor: A, ctx: C)

  datatype Reply<R> = Pong | Value(value: R)

  datatype Strategy = NonRestartable | RestartOnly | RecreateFromDefault

  // What user code and configuration contribute. A handler with `awaits(m)` await points runs as
  // `awaits(m)` segments that each end at one, then `finish` up to its return. `started` yields the
  // new locals, `startOk` says whether it returned Ok.
  datatype Program<!M, !A, !C, !R> = Program(
    started: Local<A, C> -> Local<A, C>,
    startOk: Local<A, C> -> bool,
    stopped: Local<A, C> -> Local<A, C>,
    default: A,
    awaits: M -> nat,
    segment: (M, nat, Local<A, C>) -> Local<A, C>,
    finish: (M, Local<A, C>) -> Local<A, C>,
    answer: (M, Local<A, C>) -> R,
    strategy: Strategy,
    timeout: bool,
    failOnTimeout: bool)

  // What became of a dispatched payload. A timeout drops the task's future at one of its await
  // points; a panic or a runtime shutdown drops the whole loop there.
  datatype Fate = Completed | CutAt(pc: nat) | AbortedAt(pc: nat)

  datatype Entry<M> = Entry(payload: Payload<M>, fate: Fate)

  datatype Failure = StartFailed | RestartFailed | TimedOut | Aborted

  datatype Status = Live | Broke | Failed(error: Failure)

  // The observable trace: lifecycle hooks and tasks.
  datatype Mark = StartHook(ok: bool) | StopHook | TaskDone | TaskCut

  datatype State<A, C> = State(local: Local<A, C>, trace: seq<Mark>, status: Status)

  function Awaits<M, A, C, R>(prog: Program<M, A, C, R>, w: Work<M>): nat {
    match w
    case Ping => 0
    case Handle(m) => prog.awaits(m)
  }

  function Segment<M, A, C, R>(prog: Program<M, A, C, R>, w: Work<M>, i: nat, l: Local<A, C>): Local<A, C> {
    match w
    case Ping => l
    case Handle(m) => prog.segment(m, i, l)
  }

  function Finished<M, A, C, R>(prog: Program<M, A, C, R>, w: Work<M>, l: Local<A, C>): Local<A, C> {
    match w
    case Ping => l
    case Handle(m) => prog.finish(m, l)
  }

  function Answer<M, A, C, R>(prog: Program<M, A, C, R>, w: Work<M>, l: Local<A, C>): Reply<R> {
    match w
    case Ping => Pong
    case Handle(m) => Value(prog.answer(m, l))
  }

  // The locals after the first k segments of a task.
  function RunSegments<M, A, C, R>(prog: Program<M, A, C, R>, w: Work<M>, k: nat, l: Local<A, C>): Local<A, C> {
    if k == 0 then l else Segment(prog, w, k - 1, RunSegments(prog, w, k - 1, l))
  }

  // The locals and the answer of a task that runs to its end.
  function RunTask<M, A, C, R>(prog: Program<M, A, C, R>, w: Work<M>, l: Local<A, C>): Local<A, C> {
    Finished(prog, w, RunSegments(prog, w, Awaits(prog, w), l))
  }

  function TaskAnswer<M, A, C, R>(prog: Program<M, A, C, R>, w: Work<M>, l: Local<A, C>): Reply<R> {
    Answer(prog, w, RunSegments(prog, w, Awaits(prog, w), l))
  }

  // Running `started`; the failure depends on whether this is the first start or a restart.
  function StartOn<M, A, C, R>(prog: Program<M, A, C, R>, s: State<A, C>, e: Failure): State<A, C> {
    var ok := prog.startOk(s.local);
    State(prog.started(s.local), s.trace + [StartHook(ok)], if ok then Live else Failed(e))
  }

  function StopOn<M, A, C, R>(prog: Program<M, A, C, R>, s: State<A, C>): State<A, C> {
    s.(local := prog.stopped(s.local), trace := s.trace + [StopHook])
  }

  function Begin<M, A, C, R>(prog: Program<M, A, C, R>, l: Local<A, C>): State<A, C> {
    StartOn(prog, State(l, [], Live), StartFailed)
  }

  // The three restart strategies (src/actor/restart_strategy.rs).
  function Refresh<M, A, C, R>(prog: Program<M, A, C, R>, s: State<A, C>): State<A, C> {
    match prog.strategy
    case NonRestartable => s
    case RestartOnly => StartOn(prog, StopOn(prog, s), RestartFailed)
    case RecreateFromDefault =>
      var down := StopOn(prog, s);
      StartOn(prog, down.(local := down.local.(actor := prog.default)), RestartFailed)
  }

  function Apply<M, A, C, R>(prog: Program<M, A, C, R>, s: State<A, C>, e: Entry<M>): State<A, C> {
    if s.status != Live then s else
    match e.payload
    case Stop => s.(status := Broke)
    case Restart => if e.fate.AbortedAt? then s.(status := Failed(Aborted)) else Refresh(prog, s)
    case Task(w, _) =>
      match e.fate
      case Completed => s.(local := RunTask(prog, w, s.local), trace := s.trace + [TaskDone])
      case CutAt(pc) =>
        State(RunSegments(prog, w, pc, s.local), s.trace + [TaskCut],
              if prog.failOnTimeout then Failed(TimedOut) else Live)
      case AbortedAt(pc) =>
        State(RunSegments(prog, w, pc, s.local), s.trace + [TaskCut], Failed(Aborted))
  }

  function Fold<M, A, C, R>(prog: Program<M, A, C, R>, s: State<A, C>, es: seq<Entry<M>>): State<A, C> {
    if es == [] then s else Apply(prog, Fold(prog, s, es[..|es| - 1]), es[|es| - 1])
  }

  // Leaving the loop through its end runs `stopped` once more; leaving it through `?` does not.
  function Close<M, A, C, R>(prog: Program<M, A, C, R>, s: State<A, C>): State<A, C> {
    if s.status.Failed? then s else StopOn(prog, s)
  }

  function PayloadsOf<M>(es: seq<Entry<M>>): (ps: seq<Payload<M>>)
    ensures |ps| == |es|
    ensures forall i :: 0 <= i < |es| ==> ps[i] == es[i].payload
  {
    seq(|es|, i requires 0 <= i < |es| => es[i].payload)
  }

  // The fates the loop can give: only a configured timeout cuts, and only at an await point.
  ghost predicate Possible<M, A, C, R>(prog: Program<M, A, C, R>, e: Entry<M>) {
    match e.fate
    case Completed => true
    case CutAt(pc) => prog.timeout && e.payload.Task? && pc <= Awaits(prog, e.payload.work)
    case AbortedAt(pc) =>
      match e.payload
      case Task(w, _) => pc <= Awaits(prog, w)
      case Restart => true
      case Stop => false
  }

  // ---------------------------------------------------------------- folding

  lemma FoldSnoc<M, A, C, R>(prog: Program<M, A, C, R>, s: State<A, C>, es: seq<Entry<M>>, e: Entry<M>)
    ensures Fold(prog, s, es + [e]) == Apply(prog, Fold(prog, s, es), e)
  {
    assert (es + [e])[..|es|] == es;
  }

  lemma {:induction false} FoldAppend<M, A, C, R>(
      prog: Program<M, A, C, R>, s: State<A, C>, xs: seq<Entry<M>>, ys: seq<Entry<M>>)
    ensures Fold(prog, s, xs + ys) == Fold(prog, Fold(prog, s, xs), ys)
    decreases |ys|
  {
    if ys == [] {
      assert xs + ys == xs;
    } else {
      var n := |ys| - 1;
      FoldAppend(prog, s, xs, ys[..n]);
      assert xs + ys == (xs + ys[..n]) + [ys[n]];
      FoldSnoc(prog, s, xs + ys[..n], ys[n]);
    }
  }

  lemma {:induction false} FoldStuck<M, A, C, R>(prog: Program<M, A, C, R>, s: State<A, C>, es: seq<Entry<M>>)
    requires s.status != Live
    ensures Fold(prog, s, es) == s
    decreases |es|
  {
    if es != [] {
      FoldStuck(prog, s, es[..|es| - 1]);
    }
  }

  // A state that is no longer live is final: what comes later in the mailbox does not matter.
  lemma FoldFrozen<M, A, C, R>(prog: Program<M, A, C, R>, s: State<A, C>, es: seq<Entry<M>>, k: nat)
    requires k <= |es| && Fold(prog, s, es[..k]).status != Live
    ensures Fold(prog, s, es) == Fold(prog, s, es[..k])
  {
    assert es == es[..k] + es[k..];
    FoldAppend(prog, s, es[..k], es[k..]);
    FoldStuck(prog, Fold(prog, s, es[..k]), es[k..]);
  }
}
