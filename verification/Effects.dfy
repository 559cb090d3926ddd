/** What the messages of an actor do to it and answer, in every state that any interleaving reaches
    (src/environment.rs, src/actor/restart_strategy.rs, src/addr.rs). */
module Effects {
  import opened Messages
  import opened Sequential
  import opened Actors
  import opened ActorTheorems
  import opened Meaning

  // Where the locals are, given the path through what was handled.
  ghost predicate StandsAt<M, A, C, R>(
      prog: Program<M, A, C, R>, l: Local<A, C>, c: Cell<M, A, C, R>, last: Local<A, C>, ls: seq<Local<A, C>>)
  {
    match c.phase
    case Starting => c.local == l
    case Idle => c.local == last
    case Refreshing => c.local == last
    case Busy(w, _, pc) => if w == Ping then c.local == last else IsCut(prog, w.msg, last, ls, pc, c.local)
    case Stopping => c.local == last
    case Quiet => c.local == prog.stopped(last)
    case Notified => c.local == prog.stopped(last)
    case Failing(e) => c.local == last || (e == Aborted && c.handled == [] && c.local == l)
    case Gone(Clean) => c.local == prog.stopped(last) && c.output == Some(prog.stopped(last).actor)
    case Gone(Error(e)) => c.local == last || (e == Aborted && c.handled == [] && c.local == l)
  }

  // At every moment of every run: the handled messages took the locals along a path, each link of which
  // is the message's own effect. The locals are at its end, or inside the handler in flight, or behind the
  // final `stopped`.
  lemma HandledPath<M, A, C, R>(prog: Program<M, A, C, R>, l: Local<A, C>, es: seq<Event<M>>, c: Cell<M, A, C, R>)
    returns (xs: seq<Local<A, C>>, iss: seq<seq<Local<A, C>>>, ls: seq<Local<A, C>>)
    requires Reaches(prog, l, es, c)
    ensures Path(prog, l, c.handled, xs, iss) && StandsAt(prog, l, c, xs[|c.handled|], ls)
  {
    assert AllLive(prog, l, c.handled) by { HandledLive(prog, l, es, c); }
    FoldIsPath(prog, l, c.handled);
    xs := Through(prog, l, c.handled);
    iss := Insides(prog, c.handled, xs);
    var last := xs[|c.handled|];
    ls := if c.phase.Busy? then Inside(prog, c.phase.work, last, c.phase.pc) else [];
    if c.phase.Busy? && c.phase.work.Handle? { InsideSteps(prog, c.phase.work.msg, last, c.phase.pc); }
    if c.phase.Busy? && c.phase.work.Ping? { NoSegments(prog, c.phase.pc, last); }
    assert Tracks(prog, l, c) && Notifies(c) by { ReachedLoop(prog, l, es, c); }
  }

  lemma HandledLive<M, A, C, R>(prog: Program<M, A, C, R>, l: Local<A, C>, es: seq<Event<M>>, c: Cell<M, A, C, R>)
    requires Reaches(prog, l, es, c)
    ensures AllLive(prog, l, c.handled)
  {
    ReachedLoop(prog, l, es, c);
  }

  // Along that path, whatever it passes: the loop went on after each message but the last, it goes on now
  // exactly if it went on after that too, and its hooks are those the messages ask for.
  lemma HandledHooks<M, A, C, R>(
      prog: Program<M, A, C, R>, l: Local<A, C>, es: seq<Event<M>>, c: Cell<M, A, C, R>, xs: seq<Local<A, C>>,
      iss: seq<seq<Local<A, C>>>)
    requires Reaches(prog, l, es, c) && Path(prog, l, c.handled, xs, iss)
    requires c.phase != Starting && c.phase !in {Failing(Aborted), Gone(Error(Aborted))}
    ensures c.phase in {Idle, Refreshing} || c.phase.Busy? ==> Dispatches(prog, l, c.handled, xs)
    ensures c.phase.Failing? || (c.phase.Gone? && c.phase.exit.Error?) ==> !Dispatches(prog, l, c.handled, xs)
    ensures c.trace == [StartHook(prog.startOk(l))] + AllMarks(prog, c.handled, xs)
                       + if c.phase in {Quiet, Notified, Gone(Clean)} then [StopHook] else []
  {
    assert AllLive(prog, l, c.handled) by { HandledLive(prog, l, es, c); }
    FoldIsPath(prog, l, c.handled);
    FoldTells(prog, l, c.handled);
    SamePath(prog, l, c.handled, xs, iss);
    assert Tracks(prog, l, c) by { ReachedLoop(prog, l, es, c); }
    assert Folded(prog, l, c).trace + [] == Folded(prog, l, c).trace;
  }

  lemma SamePath<M, A, C, R>(
      prog: Program<M, A, C, R>, l: Local<A, C>, es: seq<Entry<M>>, xs: seq<Local<A, C>>, iss: seq<seq<Local<A, C>>>)
    requires AllLive(prog, l, es) && Path(prog, l, es, xs, iss)
    ensures xs == Through(prog, l, es)
  {
    FoldIsPath(prog, l, es);
    var ys := Through(prog, l, es);
    forall i | 0 <= i <= |es| ensures xs[i] == ys[i] { OnePath(prog, l, es, xs, iss, ys, Insides(prog, es, ys), i); }
  }

  // A call has its reply exactly when its task ran to its end, and the reply is what the handler's own
  // answer says of the locals there; a ping answers itself.
  lemma HandledAnswers<M, A, C, R>(
      prog: Program<M, A, C, R>, l: Local<A, C>, es: seq<Event<M>>, c: Cell<M, A, C, R>, xs: seq<Local<A, C>>,
      iss: seq<seq<Local<A, C>>>, k: CallId, r: Reply<R>)
    requires Reaches(prog, l, es, c) && Path(prog, l, c.handled, xs, iss)
    ensures (k in c.calls && c.calls[k] == Replied(r)) <==>
              exists i :: 0 <= i < |c.handled| && ReplyOf(c.handled[i].payload) == Some(k)
                  && Says(prog, c.handled[i], iss[i], r)
  {
    CallOutcome(prog, l, es, c, k, r);
    assert AllLive(prog, l, c.handled) by { HandledLive(prog, l, es, c); }
    SamePath(prog, l, c.handled, xs, iss);
    forall i | 0 <= i < |c.handled| && ReplyOf(c.handled[i].payload) == Some(k)
      ensures Says(prog, c.handled[i], iss[i], r) <==> RanToEnd(prog, l, c, i, k, r)
    {
      assert Link(prog, c.handled[i], xs[i], iss[i], xs[i + 1]);
      if c.handled[i].fate == Completed { SaysAnswer(prog, c.handled[i], xs[i], iss[i], xs[i + 1], r); }
    }
  }
}
