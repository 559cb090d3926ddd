/** The loop itself, statement by statement (src/environment.rs, src/actor/restart_strategy.rs),
    proved against the fold of Sequential. The mailbox is given as everything that the payload
    stream will yield before it ends; Actors says what that is when clients run beside the loop. */
module EventLoop {
  import opened Messages
  import opened Sequential
  import opened Meaning
  import SequentialLaws

  // When the delay raced against the i-th dispatched payload fires: after how many of its await
  // points, if at all.
  type Delays = nat -> Option<nat>

  function FateOf<M, A, C, R>(prog: Program<M, A, C, R>, p: Payload<M>, delay: Option<nat>): Fate {
    if p.Task? && prog.timeout && delay.Some? && delay.value <= Awaits(prog, p.work) then CutAt(delay.value)
          else Completed
  }

  function Entries<M, A, C, R>(prog: Program<M, A, C, R>, ps: seq<Payload<M>>, delays: Delays): (es: seq<Entry<M>>)
    ensures |es| == |ps|
  {
    seq(|ps|, i requires 0 <= i < |ps| => Entry(ps[i], FateOf(prog, ps[i], delays(i))))
  }

  lemma EntriesSnoc<M, A, C, R>(prog: Program<M, A, C, R>, ps: seq<Payload<M>>, n: nat, delays: Delays)
    requires n < |ps|
    ensures Entries(prog, ps[..n + 1], delays) == Entries(prog, ps[..n], delays)
          + [Entry(ps[n], FateOf(prog, ps[n], delays(n)))]
  {
  }

  // What one event does, said without the fold: from the locals x and the trace t to y and u, going on or not.
  ghost predicate Effect<M, A, C, R>(
      prog: Program<M, A, C, R>, e: Entry<M>, x: Local<A, C>, t: seq<Mark>, y: Local<A, C>, u: seq<Mark>, goes: bool)
  {
    Link(prog, e, x, InsideOf(prog, e, x), y) && u == t + Marks(prog, e, x) && goes == GoesOn(prog, e, x)
  }

  lemma AsApplied<M, A, C, R>(prog: Program<M, A, C, R>, s: State<A, C>, e: Entry<M>)
    requires s.status == Live
    ensures var d := Apply(prog, s, e); Effect(prog, e, s.local, s.trace, d.local, d.trace, d.status == Live)
  {
    ApplyLinks(prog, s, e);
    ApplyGoesOn(prog, s, e);
  }

  class Environment<M, A(0), C, R> {
    const prog: Program<M, A, C, R>
    var ctx: C
    var payloadStream: seq<Payload<M>>
    var notified: bool
    ghost var trace: seq<Mark>

    constructor (prog: Program<M, A, C, R>, ctx: C, mailbox: seq<Payload<M>>)
      ensures this.prog == prog && this.ctx == ctx && payloadStream == mailbox && !notified && trace == []
    {
      this.prog, this.ctx, payloadStream, notified := prog, ctx, mailbox, false;
      trace := [];
    }

    ghost function At(actor: A, status: Status): State<A, C>
      reads this
    {
      State(Local(actor, ctx), trace, status)
    }

    method Started(actor: A) returns (actor': A, ok: bool)
      modifies this`ctx, this`trace
      ensures Local(actor', ctx) == prog.started(old(Local(actor, ctx))) && ok == prog.startOk(old(Local(actor, ctx)))
      ensures trace == old(trace) + [StartHook(ok)]
    {
      ok := prog.startOk(Local(actor, ctx));
      var l := prog.started(Local(actor, ctx));
      actor', ctx, trace := l.actor, l.ctx, trace + [StartHook(ok)];
    }

    method Stopped(actor: A) returns (actor': A)
      modifies this`ctx, this`trace
      ensures Local(actor', ctx) == prog.stopped(old(Local(actor, ctx))) && trace == old(trace) + [StopHook]
    {
      var l := prog.stopped(Local(actor, ctx));
      actor', ctx, trace := l.actor, l.ctx, trace + [StopHook];
    }

    method Refresh(actor: A) returns (actor': A, ok: bool)
      modifies this`ctx, this`trace
      ensures At(actor', if ok then Live else Failed(RestartFailed)) == Sequential.Refresh(prog, old(At(actor, Live)))
      ensures Effect(prog, Entry(Messages.Restart, Completed), old(Local(actor, ctx)), old(trace), Local(actor', ctx),
                     trace, ok)
    {
      ghost var was := At(actor, Live);
      actor', ok := actor, true;
      match prog.strategy {
        case NonRestartable =>
        case RestartOnly =>
          actor' := Stopped(actor');
          actor', ok := Started(actor');
        case RecreateFromDefault =>
          actor' := Stopped(actor');
          actor' := prog.default;
          actor', ok := Started(actor');
      }
      AsApplied(prog, was, Entry(Messages.Restart, Completed));
    }

    // Races the task against the delay; the delay only ever wins while the task is suspended.
    method TimeoutFut(actor: A, task: Payload<M>, delay: Option<nat>) returns (actor': A, ok: bool)
      requires task.Task?
      modifies this`ctx, this`trace
      ensures ok == (FateOf(prog, task, delay) == Completed)
      ensures At(actor', if ok || !prog.failOnTimeout then Live else Failed(TimedOut))
              == Apply(prog, old(At(actor, Live)), Entry(task, FateOf(prog, task, delay)))
      ensures Effect(prog, Entry(task, FateOf(prog, task, delay)), old(Local(actor, ctx)), old(trace),
                     Local(actor', ctx), trace, ok || !prog.failOnTimeout)
    {
      AsApplied(prog, At(actor, Live), Entry(task, FateOf(prog, task, delay)));
      var pc := 0;
      actor' := actor;
      while true
        invariant pc <= Awaits(prog, task.work) && trace == old(trace)
        invariant Local(actor', ctx) == RunSegments(prog, task.work, pc, old(Local(actor, ctx)))
        invariant prog.timeout && delay.Some? ==> pc <= delay.value
        decreases Awaits(prog, task.work) - pc
      {
        if prog.timeout && delay == Some(pc) {
          trace := trace + [TaskCut];
          return actor', false;
        }
        if pc == Awaits(prog, task.work) {
          var l := Finished(prog, task.work, Local(actor', ctx));
          actor', ctx, trace := l.actor, l.ctx, trace + [TaskDone];
          return actor', true;
        }
        var l := Segment(prog, task.work, pc, Local(actor', ctx));
        actor', ctx, pc := l.actor, l.ctx, pc + 1;
      }
    }

    // The loop from its first `next()`: it consumes the shortest prefix of the mailbox after which
    // the sequential machine is no longer live, or all of it, and leaves the machine's state.
    method LoopBody(actor: A, delays: Delays) returns (r: Result<A, Failure>)
      requires trace == [] && !notified
      modifies this
      ensures |payloadStream| <= |old(payloadStream)|
      ensures RunEnds(prog, Local(actor, old(ctx)), old(payloadStream), delays, |old(payloadStream)| - |payloadStream|,
                      payloadStream, r, ctx, trace)
      ensures notified == r.Ok?
    {
      ghost var mailbox, l := payloadStream, Local(actor, ctx);
      var n := 0;
      var a, ok := Started(actor);
      assert At(a, if ok then Live else Failed(StartFailed)) == Begin(prog, l);
      assert Dispatched(prog, l, mailbox, 0, delays) == Begin(prog, l);
      if !ok {
        return Err(StartFailed);
      }
      while payloadStream != []
        invariant n <= |mailbox| && payloadStream == mailbox[n..] && !notified
        invariant At(a, Live) == Dispatched(prog, l, mailbox, n, delays)
        invariant n > 0 ==> Dispatched(prog, l, mailbox, n - 1, delays).status == Live
        decreases |payloadStream|
      {
        var event := payloadStream[0];
        payloadStream := payloadStream[1..];
        DispatchedNext(prog, l, mailbox, n, delays);
        n := n + 1;
        match event {
          case Restart =>
            a, ok := Refresh(a);
            assert At(a, if ok then Live else Failed(RestartFailed)) == Dispatched(prog, l, mailbox, n, delays);
            if !ok {
              return Err(RestartFailed);
            }
          case Task(f, reply) =>
            a, ok := TimeoutFut(a, event, delays(n - 1));
            assert At(a, if ok || !prog.failOnTimeout then Live else Failed(TimedOut))
                  == Dispatched(prog, l, mailbox, n, delays);
            if !ok {
              if prog.failOnTimeout {
                return Err(TimedOut);
              }
              continue;
            }
          case Stop => break;
        }
      }
      a := Stopped(a);
      notified := true;
      return Ok(a);
    }

    // The future that is built of it. The ghost results are how much of the mailbox it took, and the path of
    // the locals, which says what each payload has done to them.
    method CreateLoop(actor: A, delays: Delays)
      returns (r: Result<A, Failure>, ghost n: nat, ghost xs: seq<Local<A, C>>, ghost iss: seq<seq<Local<A, C>>>)
      requires trace == [] && !notified
      modifies this
      ensures n <= |old(payloadStream)| && payloadStream == old(payloadStream)[n..] && notified == r.Ok?
      ensures LoopMeans(prog, Local(actor, old(ctx)), old(payloadStream), delays, n, r, ctx, trace, xs, iss)
    {
      ghost var l, mailbox := Local(actor, ctx), payloadStream;
      r := LoopBody(actor, delays);
      n := |mailbox| - |payloadStream|;
      xs, iss := EndsMean(prog, l, mailbox, delays, n, payloadStream, r, ctx, trace);
    }
  }

  // The sequential machine after the first n payloads of a mailbox.
  function Dispatched<M, A, C, R>(
      prog: Program<M, A, C, R>, l: Local<A, C>, mailbox: seq<Payload<M>>, n: nat, delays: Delays): State<A, C>
    requires n <= |mailbox|
  {
    Fold(prog, Begin(prog, l), Entries(prog, mailbox[..n], delays))
  }

  lemma DispatchedNext<M, A, C, R>(
      prog: Program<M, A, C, R>, l: Local<A, C>, mailbox: seq<Payload<M>>, n: nat, delays: Delays)
    requires n < |mailbox|
    ensures Dispatched(prog, l, mailbox, n + 1, delays)
            == Apply(prog, Dispatched(prog, l, mailbox, n, delays),
                  Entry(mailbox[n], FateOf(prog, mailbox[n], delays(n))))
  {
    EntriesSnoc(prog, mailbox, n, delays);
    FoldSnoc(prog, Begin(prog, l), Entries(prog, mailbox[..n], delays),
             Entry(mailbox[n], FateOf(prog, mailbox[n], delays(n))));
  }

  // How a run that consumed n payloads must have ended.
  ghost predicate RunEnds<M, A, C, R>(
      prog: Program<M, A, C, R>, l: Local<A, C>, mailbox: seq<Payload<M>>, delays: Delays, n: nat,
      rest: seq<Payload<M>>, r: Result<A, Failure>, ctx: C, trace: seq<Mark>)
    requires n <= |mailbox|
  {
    var end := Dispatched(prog, l, mailbox, n, delays);
    && rest == mailbox[n..]
    && (end.status == Live ==> rest == [])
    && (n > 0 ==> Dispatched(prog, l, mailbox, n - 1, delays).status == Live)
    && State(Local(if r.Ok? then r.value else end.local.actor, ctx), trace, end.status) == Close(prog, end)
    && (if r.Ok? then !end.status.Failed? else end.status == Failed(r.error))
  }

  // The same, said without the fold: the consumed payloads took the locals along a path of their own
  // effects, the loop went on after each but the last, and it returned Ok exactly if it took a Stop or the
  // whole mailbox went by; what it returns is what one more `stopped` makes of the end of the path.
  ghost predicate LoopMeans<M, A, C, R>(
      prog: Program<M, A, C, R>, l: Local<A, C>, mailbox: seq<Payload<M>>, delays: Delays, n: nat,
      r: Result<A, Failure>, ctx: C, trace: seq<Mark>, xs: seq<Local<A, C>>, iss: seq<seq<Local<A, C>>>)
    requires n <= |mailbox|
  {
    var es := Entries(prog, mailbox[..n], delays);
    && Path(prog, l, es, xs, iss)
    && (n > 0 ==> Dispatches(prog, l, es[..n - 1], xs))
    && (r.Ok? <==> (n > 0 && mailbox[n - 1] == Stop) || (n == |mailbox| && Dispatches(prog, l, es, xs)))
    && (r.Err? ==> !Dispatches(prog, l, es, xs)
                   && r.error == if n == 0 then StartFailed
                                 else if mailbox[n - 1] == Restart then RestartFailed else TimedOut)
    && (if r.Ok? then Local(r.value, ctx) == prog.stopped(xs[n]) else ctx == xs[n].ctx)
    && trace == [StartHook(prog.startOk(l))] + AllMarks(prog, es, xs) + if r.Ok? then [StopHook] else []
  }

  lemma EntriesLive<M, A, C, R>(
      prog: Program<M, A, C, R>, l: Local<A, C>, mailbox: seq<Payload<M>>, delays: Delays, n: nat)
    requires n <= |mailbox| && (n > 0 ==> Dispatched(prog, l, mailbox, n - 1, delays).status == Live)
    ensures AllLive(prog, l, Entries(prog, mailbox[..n], delays))
    ensures n > 0 ==> AllLive(prog, l, Entries(prog, mailbox[..n], delays)[..n - 1])
  {
    var es := Entries(prog, mailbox[..n], delays);
    forall i | 0 <= i < |es| ensures Fold(prog, Begin(prog, l), es[..i]).status == Live {
      var bs := Entries(prog, mailbox[..n - 1], delays);
      assert es[..n - 1] == bs && es[..i] == bs[..i] && bs[..n - 1] == bs;
      if Fold(prog, Begin(prog, l), bs[..i]).status != Live { FoldFrozen(prog, Begin(prog, l), bs, i); }
    }
    if n > 0 { AllLivePrefix(prog, l, es, n - 1); }
  }

  lemma EndsMean<M, A, C, R>(
      prog: Program<M, A, C, R>, l: Local<A, C>, mailbox: seq<Payload<M>>, delays: Delays, n: nat,
      rest: seq<Payload<M>>, r: Result<A, Failure>, ctx: C, trace: seq<Mark>)
    returns (xs: seq<Local<A, C>>, iss: seq<seq<Local<A, C>>>)
    requires n <= |mailbox| && RunEnds(prog, l, mailbox, delays, n, rest, r, ctx, trace)
    ensures LoopMeans(prog, l, mailbox, delays, n, r, ctx, trace, xs, iss)
  {
    var es := Entries(prog, mailbox[..n], delays);
    EntriesLive(prog, l, mailbox, delays, n);
    FoldIsPath(prog, l, es);
    xs, iss := Through(prog, l, es), Insides(prog, es, Through(prog, l, es));
    FoldTells(prog, l, es);
    if n > 0 { BeforeLast(prog, l, mailbox, delays, n); }
    var s := Fold(prog, Begin(prog, l), es);
    assert s.trace + [] == s.trace;
  }

  lemma BeforeLast<M, A, C, R>(
      prog: Program<M, A, C, R>, l: Local<A, C>, mailbox: seq<Payload<M>>, delays: Delays, n: nat)
    requires 0 < n <= |mailbox| && Dispatched(prog, l, mailbox, n - 1, delays).status == Live
    ensures var es := Entries(prog, mailbox[..n], delays);
            && Dispatches(prog, l, es[..n - 1], Through(prog, l, es))
            && (Fold(prog, Begin(prog, l), es).status.Failed? ==>
                  Fold(prog, Begin(prog, l), es).status
                  == Failed(if mailbox[n - 1] == Restart then RestartFailed else TimedOut))
            && (Fold(prog, Begin(prog, l), es).status == Broke <==> mailbox[n - 1] == Stop)
  {
    var es := Entries(prog, mailbox[..n], delays);
    EntriesLive(prog, l, mailbox, delays, n);
    assert es[..n - 1] == Entries(prog, mailbox[..n - 1], delays);
    FoldTells(prog, l, es[..n - 1]);
    ThroughPrefix(prog, l, es, n - 1);
    forall i | 0 <= i < n - 1 ensures GoesOn(prog, es[..n - 1][i], Through(prog, l, es)[i]) {
      assert GoesOn(prog, es[..n - 1][i], Through(prog, l, es[..n - 1])[i]);
    }
    DispatchedNext(prog, l, mailbox, n - 1, delays);
    if mailbox[n - 1] == Restart { SequentialLaws.RefreshStatus(prog, Dispatched(prog, l, mailbox, n - 1, delays)); }
  }

  lemma PlainGoesOn<M, A, C, R>(
      prog: Program<M, A, C, R>, mailbox: seq<Payload<M>>, delays: Delays, n: nat, ms: seq<M>, i: nat, x: Local<A, C>)
    requires i < n <= |mailbox| && i < |ms| <= |mailbox|
    requires PlainTasks(prog, Entries(prog, mailbox[..|ms|], delays), ms)
    ensures GoesOn(prog, Entries(prog, mailbox[..n], delays)[i], x) && mailbox[i].Task?
  {
    assert Entries(prog, mailbox[..n], delays)[i] == Entries(prog, mailbox[..|ms|], delays)[i];
  }

  // Nothing was taken behind a Stop.
  lemma StopsThere<M, A, C, R>(
      prog: Program<M, A, C, R>, l: Local<A, C>, mailbox: seq<Payload<M>>, delays: Delays, n: nat,
      xs: seq<Local<A, C>>, k: nat)
    requires 0 < n <= |mailbox| && k + 1 < n && n <= |xs|
    requires Dispatches(prog, l, Entries(prog, mailbox[..n], delays)[..n - 1], xs)
    ensures mailbox[k] != Stop
  {
    var bs := Entries(prog, mailbox[..n], delays)[..n - 1];
    assert GoesOn(prog, bs[k], xs[k]);
  }

  lemma PlainConsumed<M, A, C, R>(
      prog: Program<M, A, C, R>, l: Local<A, C>, mailbox: seq<Payload<M>>, delays: Delays, n: nat,
      r: Result<A, Failure>, ctx: C, trace: seq<Mark>, xs: seq<Local<A, C>>, iss: seq<seq<Local<A, C>>>, ms: seq<M>)
    requires n <= |mailbox| && LoopMeans(prog, l, mailbox, delays, n, r, ctx, trace, xs, iss)
    requires |ms| <= |mailbox| && PlainTasks(prog, Entries(prog, mailbox[..|ms|], delays), ms) && prog.startOk(l)
    requires |ms| < |mailbox| ==> mailbox[|ms|] == Stop
    ensures r.Ok? && n == if |ms| < |mailbox| then |ms| + 1 else |ms|
  {
    var es, k := Entries(prog, mailbox[..n], delays), |ms|;
    if n > k + 1 { StopsThere(prog, l, mailbox, delays, n, xs, k); }
    if n <= k {
      forall i | 0 <= i < n ensures GoesOn(prog, es[i], xs[i]) { PlainGoesOn(prog, mailbox, delays, n, ms, i, xs[i]); }
      assert Dispatches(prog, l, es, xs);
      if n > 0 { PlainGoesOn(prog, mailbox, delays, n, ms, n - 1, xs[n - 1]); }
    }
  }

  // An actor whose handlers never suspend, which is not cut and meets no Restart, is returned as its
  // messages finished one after the other left it, after one more `stopped`; up to the first Stop, if any.
  lemma PlainLoop<M, A, C, R>(
      prog: Program<M, A, C, R>, l: Local<A, C>, mailbox: seq<Payload<M>>, delays: Delays, n: nat,
      r: Result<A, Failure>, ctx: C, trace: seq<Mark>, xs: seq<Local<A, C>>, iss: seq<seq<Local<A, C>>>, ms: seq<M>)
    requires n <= |mailbox| && LoopMeans(prog, l, mailbox, delays, n, r, ctx, trace, xs, iss)
    requires |ms| <= |mailbox| && PlainTasks(prog, Entries(prog, mailbox[..|ms|], delays), ms) && prog.startOk(l)
    requires |ms| < |mailbox| ==> mailbox[|ms|] == Stop
    ensures r.Ok? && Local(r.value, ctx) == prog.stopped(Iterated(prog, prog.started(l), ms))
    ensures n == if |ms| < |mailbox| then |ms| + 1 else |ms|
  {
    var es, k := Entries(prog, mailbox[..n], delays), |ms|;
    PlainConsumed(prog, l, mailbox, delays, n, r, ctx, trace, xs, iss, ms);
    assert PlainTasks(prog, es[..k], ms) by { assert es[..k] == Entries(prog, mailbox[..k], delays); }
    PathIterates(prog, l, es, ms, xs, iss, k);
    if n > k { assert Link(prog, es[k], xs[k], iss[k], xs[k + 1]); }
  }
}
