/** The loop of an actor that is attached to a stream (src/environment.rs:141-191): races between the
    mailbox and the stream, while clients send and the stream may go on for ever. */
module StreamLoop {
  import Actors
  import opened Messages
  import opened Sequential
  import opened Meaning

  datatype Input<M, T> = FromMailbox(payload: Payload<M>) | FromStream(item: T)

  function MailboxPart<M, T>(xs: seq<Input<M, T>>): seq<Payload<M>> {
    if xs == [] then [] else
      MailboxPart(xs[..|xs| - 1]) + if xs[|xs| - 1].FromMailbox? then [xs[|xs| - 1].payload] else []
  }

  function StreamPart<M, T>(xs: seq<Input<M, T>>): seq<T> {
    if xs == [] then [] else
      StreamPart(xs[..|xs| - 1]) + if xs[|xs| - 1].FromStream? then [xs[|xs| - 1].item] else []
  }

  // A stream yields stream(0), stream(1), ... up to its first None, if there is one.
  type Stream<!T> = nat -> Option<T>

  // xs interleaves what was taken from the front of everything accepted, of which box is left, with
  // the first `taken` items of the stream.
  ghost predicate Interleaves<M, T>(
      xs: seq<Input<M, T>>, accepted: seq<Payload<M>>, box: seq<Payload<M>>, stream: Stream<T>, taken: nat) {
    && MailboxPart(xs) + box == accepted
    && |StreamPart(xs)| == taken && forall i: nat :: i < taken ==> stream(i) == Some(StreamPart(xs)[i])
  }

  lemma TakePayload<M, T>(
      xs: seq<Input<M, T>>, accepted: seq<Payload<M>>, box: seq<Payload<M>>, stream: Stream<T>, taken: nat)
    requires Interleaves(xs, accepted, box, stream, taken) && box != []
    ensures Interleaves(xs + [FromMailbox(box[0])], accepted, box[1..], stream, taken)
  {
    assert (xs + [FromMailbox(box[0])])[..|xs|] == xs;
  }

  lemma TakeItem<M, T>(
      xs: seq<Input<M, T>>, accepted: seq<Payload<M>>, box: seq<Payload<M>>, stream: Stream<T>, taken: nat, item: T)
    requires Interleaves(xs, accepted, box, stream, taken) && stream(taken) == Some(item)
    ensures Interleaves(xs + [FromStream(item)], accepted, box, stream, taken + 1)
  {
    assert (xs + [FromStream(item)])[..|xs|] == xs;
  }

  // An input that keeps the loop going.
  predicate Plain<M, T>(x: Input<M, T>) { x.FromStream? || x.payload.Task? }

  // Nothing but the two parts is in the trace, so the trace is an interleaving of them.
  lemma {:induction false} PartsMakeTheWhole<M, T>(xs: seq<Input<M, T>>)
    ensures |xs| == |MailboxPart(xs)| + |StreamPart(xs)|
    decreases |xs|
  {
    if xs != [] { PartsMakeTheWhole(xs[..|xs| - 1]); }
  }

  datatype StreamProgram<!M, !T, !A, !C, !R> = StreamProgram(
    base: Program<M, A, C, R>,
    handle: (T, Local<A, C>) -> Local<A, C>,
    finished: Local<A, C> -> Local<A, C>)

  // Stop and Restart run no user code.
  function AbsorbOne<M, T, A, C, R>(p: StreamProgram<M, T, A, C, R>, l: Local<A, C>, x: Input<M, T>): Local<A, C> {
    match x
    case FromStream(t) => p.handle(t, l)
    case FromMailbox(e) => if e.Task? then RunTask(p.base, e.work, l) else l
  }

  function Absorb<M, T, A, C, R>(p: StreamProgram<M, T, A, C, R>, l: Local<A, C>, xs: seq<Input<M, T>>): Local<A, C> {
    if xs == [] then l else AbsorbOne(p, Absorb(p, l, xs[..|xs| - 1]), xs[|xs| - 1])
  }

  lemma AbsorbSnoc<M, T, A, C, R>(p: StreamProgram<M, T, A, C, R>, l: Local<A, C>, xs: seq<Input<M, T>>, x: Input<M, T>)
    ensures Absorb(p, l, xs + [x]) == AbsorbOne(p, Absorb(p, l, xs), x)
  {
    assert (xs + [x])[..|xs|] == xs;
  }

  // How one input takes the locals from x to y, said without AbsorbOne; ls are those inside a handler.
  ghost predicate InputLink<M, T, A, C, R>(
      p: StreamProgram<M, T, A, C, R>, i: Input<M, T>, x: Local<A, C>, ls: seq<Local<A, C>>, y: Local<A, C>)
  {
    match i
    case FromStream(t) => y == p.handle(t, x)
    case FromMailbox(e) => if e.Task? then Link(p.base, Entry(e, Completed), x, ls, y) else y == x
  }

  ghost predicate InputPath<M, T, A, C, R>(
      p: StreamProgram<M, T, A, C, R>, l: Local<A, C>, trace: seq<Input<M, T>>, xs: seq<Local<A, C>>,
      iss: seq<seq<Local<A, C>>>)
  {
    && |xs| == |trace| + 1 && |iss| == |trace| && xs[0] == l
    && forall i {:trigger InputLink(p, trace[i], xs[i], iss[i], xs[i + 1])} :: 0 <= i < |trace| ==>
         InputLink(p, trace[i], xs[i], iss[i], xs[i + 1])
  }

  // Absorbing is going along the path of the inputs' own effects.
  lemma {:induction false} AbsorbIsPath<M, T, A, C, R>(
      p: StreamProgram<M, T, A, C, R>, l: Local<A, C>, trace: seq<Input<M, T>>, xs: seq<Local<A, C>>,
      iss: seq<seq<Local<A, C>>>, i: nat)
    requires InputPath(p, l, trace, xs, iss) && i <= |trace|
    ensures xs[i] == Absorb(p, l, trace[..i])
  {
    if i > 0 {
      var k := i - 1;
      AbsorbIsPath(p, l, trace, xs, iss, k);
      assert trace[..i] == trace[..k] + [trace[k]];
      AbsorbSnoc(p, l, trace[..k], trace[k]);
      assert InputLink(p, trace[k], xs[k], iss[k], xs[k + 1]);
      InputLinks(p, trace[k], xs[k], iss[k], xs[k + 1]);
    }
  }

  lemma InputLinks<M, T, A, C, R>(
      p: StreamProgram<M, T, A, C, R>, i: Input<M, T>, x: Local<A, C>, ls: seq<Local<A, C>>, y: Local<A, C>)
    requires InputLink(p, i, x, ls, y)
    ensures y == AbsorbOne(p, x, i)
  {
    if i.FromMailbox? && i.payload.Task? {
      var s, e := State(x, [], Live), Entry(i.payload, Completed);
      ApplyLinks(p.base, s, e);
      LinkDetermines(p.base, e, x, ls, y, InsideOf(p.base, e, x), Apply(p.base, s, e).local);
    }
  }

  lemma {:induction false} PathExists<M, T, A, C, R>(
      p: StreamProgram<M, T, A, C, R>, l: Local<A, C>, trace: seq<Input<M, T>>)
    returns (xs: seq<Local<A, C>>, iss: seq<seq<Local<A, C>>>)
    ensures InputPath(p, l, trace, xs, iss)
    decreases |trace|
  {
    if trace == [] {
      xs, iss := [l], [];
    } else {
      var n := |trace| - 1;
      var ys, jss := PathExists(p, l, trace[..n]);
      var x, i := ys[n], trace[n];
      var ls := if i.FromMailbox? then InsideOf(p.base, Entry(i.payload, Completed), x) else [];
      ApplyLinks(p.base, State(x, [], Live), Entry(if i.FromMailbox? then i.payload else Stop, Completed));
      xs, iss := ys + [AbsorbOne(p, x, i)], jss + [ls];
      forall k | 0 <= k < |trace| ensures InputLink(p, trace[k], xs[k], iss[k], xs[k + 1]) {
        if k < n { assert InputLink(p, trace[..n][k], ys[k], jss[k], ys[k + 1]); }
      }
    }
  }

  // Who is found ready when the loop looks.
  datatype Ready = Mailbox | Item | Nobody

  // What clients do before the i-th race: the payloads they get accepted, and whether the last sender
  // goes. Once it has gone nothing more arrives.
  datatype Clients<!M> = Clients(arrivals: nat -> seq<Payload<M>>, closes: nat -> bool)

  datatype RaceEnd = StopReached | MailboxClosed | StreamOver | RestartReached | NotOver

  // Unfinished: the run is looked at before its end, or cut off there by the end of the runtime.
  datatype StreamFailure = FailedToStart | PanickedOnRestart | Unfinished

  datatype StreamMark = RanStarted | RanFinished | RanStopped

  // The i-th accepted payload was taken as the j-th input; if it is a task, what it answered there is
  // its reply.
  ghost predicate AnsweredAt<M, T, A, C, R>(
      p: StreamProgram<M, T, A, C, R>, begun: Local<A, C>, accepted: seq<Payload<M>>,
      replies: seq<Actors.CallStatus<R>>,
      trace: seq<Input<M, T>>, i: nat, j: nat)
  {
    && i < |accepted| == |replies| && j < |trace| && trace[j] == FromMailbox(accepted[i])
       && |MailboxPart(trace[..j])| == i
    && (accepted[i].Task? ==>
          replies[i] == Actors.Replied(TaskAnswer(p.base, accepted[i].work, Absorb(p, begun, trace[..j]))))
  }

  ghost predicate Answered<M, T, A, C, R>(
      p: StreamProgram<M, T, A, C, R>, begun: Local<A, C>, accepted: seq<Payload<M>>,
      replies: seq<Actors.CallStatus<R>>,
      trace: seq<Input<M, T>>, i: nat)
  {
    exists j: nat :: AnsweredAt(p, begun, accepted, replies, trace, i, j)
  }

  // Whoever was taken has its answer, if it was a task; `rest` is what has become of the others.
  ghost predicate Settled<M, T, A, C, R>(
      p: StreamProgram<M, T, A, C, R>, begun: Local<A, C>, accepted: seq<Payload<M>>,
      replies: seq<Actors.CallStatus<R>>,
      trace: seq<Input<M, T>>, rest: Actors.CallStatus<R>)
  {
    && |replies| == |accepted| && |MailboxPart(trace)| <= |accepted|
    && (forall i: nat :: i < |MailboxPart(trace)| ==> Answered(p, begun, accepted, replies, trace, i))
    && (forall i :: |MailboxPart(trace)| <= i < |accepted| ==> replies[i] == rest)
  }

  // A reply is what the handler's own answer says of the locals at its end, along the path of the inputs.
  lemma RepliesAlong<M, T, A, C, R>(
      p: StreamProgram<M, T, A, C, R>, begun: Local<A, C>, accepted: seq<Payload<M>>,
      replies: seq<Actors.CallStatus<R>>, trace: seq<Input<M, T>>, i: nat, j: nat, xs: seq<Local<A, C>>,
      iss: seq<seq<Local<A, C>>>)
    requires AnsweredAt(p, begun, accepted, replies, trace, i, j) && InputPath(p, begun, trace, xs, iss)
    requires accepted[i].Task?
    ensures replies[i].Replied? && Says(p.base, Entry(accepted[i], Completed), iss[j], replies[i].reply)
  {
    AbsorbIsPath(p, begun, trace, xs, iss, j);
    assert InputLink(p, trace[j], xs[j], iss[j], xs[j + 1]);
    SaysAnswer(p.base, Entry(accepted[i], Completed), xs[j], iss[j], xs[j + 1], replies[i].reply);
  }

  function Waits<R>(n: nat): seq<Actors.CallStatus<R>> { seq(n, _ => Actors.Waiting) }

  function Cancels<R>(n: nat): seq<Actors.CallStatus<R>> { seq(n, _ => Actors.Canceled) }

  lemma SettledMore<M, T, A, C, R>(
      p: StreamProgram<M, T, A, C, R>, begun: Local<A, C>, accepted: seq<Payload<M>>,
      replies: seq<Actors.CallStatus<R>>,
      trace: seq<Input<M, T>>, more: seq<Payload<M>>)
    requires Settled(p, begun, accepted, replies, trace, Actors.Waiting)
    ensures Settled(p, begun, accepted + more, replies + Waits(|more|), trace, Actors.Waiting)
  {
    forall i: nat | i < |MailboxPart(trace)|
      ensures Answered(p, begun, accepted + more, replies + Waits(|more|), trace, i)
    {
      assert Answered(p, begun, accepted, replies, trace, i);
      var j: nat :| AnsweredAt(p, begun, accepted, replies, trace, i, j);
      assert AnsweredAt(p, begun, accepted + more, replies + Waits(|more|), trace, i, j);
    }
  }

  // One more input leaves the answers of the earlier ones alone.
  lemma AnswersStay<M, T, A, C, R>(
      p: StreamProgram<M, T, A, C, R>, begun: Local<A, C>, accepted: seq<Payload<M>>,
      replies: seq<Actors.CallStatus<R>>,
      trace: seq<Input<M, T>>, x: Input<M, T>, replies': seq<Actors.CallStatus<R>>, i: nat)
    requires Settled(p, begun, accepted, replies, trace, Actors.Waiting) && i < |MailboxPart(trace)|
    requires |replies'| == |replies| && replies'[i] == replies[i]
    ensures Answered(p, begun, accepted, replies', trace + [x], i)
  {
    assert Answered(p, begun, accepted, replies, trace, i);
    var j: nat :| AnsweredAt(p, begun, accepted, replies, trace, i, j);
    assert (trace + [x])[..j] == trace[..j];
    assert AnsweredAt(p, begun, accepted, replies', trace + [x], i, j);
  }

  lemma SettledItem<M, T, A, C, R>(
      p: StreamProgram<M, T, A, C, R>, begun: Local<A, C>, accepted: seq<Payload<M>>,
      replies: seq<Actors.CallStatus<R>>,
      trace: seq<Input<M, T>>, msg: T)
    requires Settled(p, begun, accepted, replies, trace, Actors.Waiting)
    ensures Settled(p, begun, accepted, replies, trace + [FromStream(msg)], Actors.Waiting)
  {
    assert (trace + [FromStream(msg)])[..|trace|] == trace;
    assert MailboxPart(trace + [FromStream(msg)]) == MailboxPart(trace);
    forall i: nat | i < |MailboxPart(trace)|
      ensures Answered(p, begun, accepted, replies, trace + [FromStream(msg)], i)
    {
      AnswersStay(p, begun, accepted, replies, trace, FromStream(msg), replies, i);
    }
  }

  function WithAnswer<M, T, A, C, R>(
      p: StreamProgram<M, T, A, C, R>, l: Local<A, C>, replies: seq<Actors.CallStatus<R>>, n: nat, event: Payload<M>):
      seq<Actors.CallStatus<R>>
    requires n < |replies|
  {
    if event.Task? then replies[n := Actors.Replied(TaskAnswer(p.base, event.work, l))] else replies
  }

  lemma SettledEvent<M, T, A, C, R>(
      p: StreamProgram<M, T, A, C, R>, begun: Local<A, C>, accepted: seq<Payload<M>>,
      replies: seq<Actors.CallStatus<R>>,
      trace: seq<Input<M, T>>, event: Payload<M>)
    requires Settled(p, begun, accepted, replies, trace, Actors.Waiting)
    requires |MailboxPart(trace)| < |accepted| && accepted[|MailboxPart(trace)|] == event
    ensures Settled(p, begun, accepted, WithAnswer(p, Absorb(p, begun, trace), replies, |MailboxPart(trace)|, event),
                    trace + [FromMailbox(event)], Actors.Waiting)
  {
    var n := |MailboxPart(trace)|;
    var x: Input<M, T> := FromMailbox(event);
    var after := WithAnswer(p, Absorb(p, begun, trace), replies, n, event);
    assert (trace + [x])[..|trace|] == trace;
    assert MailboxPart(trace + [x]) == MailboxPart(trace) + [event];
    forall i: nat | i < n + 1 ensures Answered(p, begun, accepted, after, trace + [x], i) {
      if i < n { AnswersStay(p, begun, accepted, replies, trace, x, after, i); }
      else { assert AnsweredAt(p, begun, accepted, after, trace + [x], n, |trace|); }
    }
  }

  lemma SettledClose<M, T, A, C, R>(
      p: StreamProgram<M, T, A, C, R>, begun: Local<A, C>, accepted: seq<Payload<M>>,
      replies: seq<Actors.CallStatus<R>>,
      trace: seq<Input<M, T>>)
    requires Settled(p, begun, accepted, replies, trace, Actors.Waiting)
    ensures var n := |MailboxPart(trace)|;
            Settled(p, begun, accepted, replies[..n] + Cancels(|replies| - n), trace, Actors.Canceled)
  {
    var n := |MailboxPart(trace)|;
    var after := replies[..n] + Cancels(|replies| - n);
    forall i: nat | i < n ensures Answered(p, begun, accepted, after, trace, i) {
      assert Answered(p, begun, accepted, replies, trace, i);
      var j: nat :| AnsweredAt(p, begun, accepted, replies, trace, i, j);
      assert AnsweredAt(p, begun, accepted, after, trace, i, j);
    }
  }

  // The last input alone can be a Stop or a Restart, and is exactly if the race ended that way.
  ghost predicate EndsWith<M, T>(end: RaceEnd, trace: seq<Input<M, T>>) {
    && (forall i :: 0 <= i < |trace| - 1 ==> Plain(trace[i]))
    && (trace != [] ==> var last := trace[|trace| - 1];
          && (end == StopReached <==> last == FromMailbox(Stop))
          && (end == RestartReached <==> last == FromMailbox(Restart)))
    && (end == StopReached || end == RestartReached ==> trace != [])
  }

  ghost predicate AllPlain<M, T>(trace: seq<Input<M, T>>) { forall k :: 0 <= k < |trace| ==> Plain(trace[k]) }

  function EndOf<M>(event: Payload<M>): RaceEnd {
    match event
    case Task(_, _) => NotOver
    case Stop => StopReached
    case Restart => RestartReached
  }

  lemma EndsAt<M, T>(trace: seq<Input<M, T>>, event: Payload<M>)
    requires AllPlain(trace)
    ensures EndsWith(EndOf(event), trace + [FromMailbox(event)])
    ensures EndOf(event) == NotOver ==> AllPlain(trace + [FromMailbox(event)])
  {
    var ys := trace + [FromMailbox(event)];
    forall k | 0 <= k < |trace| ensures Plain(ys[k]) { assert ys[k] == trace[k]; }
  }

  lemma EndsBare<M, T>(trace: seq<Input<M, T>>, end: RaceEnd)
    requires AllPlain(trace) && end != StopReached && end != RestartReached
    ensures EndsWith(end, trace)
  {
    if trace != [] { assert Plain(trace[|trace| - 1]); }
  }

  // ---------------------------------------------------------------- who wins which race

  predicate ClosedBy<M>(clients: Clients<M>, i: nat) { clients.closes(i) || (i > 0 && ClosedBy(clients, i - 1)) }

  // Everything that was accepted when the i-th race is over whose arrivals are the i-th.
  function ArrivedBy<M>(clients: Clients<M>, i: nat): seq<Payload<M>> {
    if i == 0 then clients.arrivals(0)
    else ArrivedBy(clients, i - 1) + if ClosedBy(clients, i - 1) then [] else clients.arrivals(i)
  }

  // How many payloads had been taken when race i began.
  function TakenBy<M, T>(trace: seq<Input<M, T>>, won: seq<nat>, i: nat): nat
    requires |won| == |trace|
  {
    if trace == [] then 0 else
      var n := |trace| - 1;
      TakenBy(trace[..n], won[..n], i) + if trace[n].FromMailbox? && won[n] < i then 1 else 0
  }

  // Race i found the stream ready and took its item; or found the mailbox ready and took a payload,
  // if all that had arrived was not taken already and more could come; or found nobody ready.
  ghost predicate Played<M, T>(
      clients: Clients<M>, ready: nat -> Ready, trace: seq<Input<M, T>>, won: seq<nat>, i: nat)
    requires |won| == |trace|
  {
    match ready(i)
    case Item => i in won
    case Mailbox => i in won || (TakenBy(trace, won, i) == |ArrivedBy(clients, i + 1)| && !ClosedBy(clients, i + 1))
    case Nobody => i !in won
  }

  // The first `used` races were played, and won[j] is the one at which the j-th input was taken.
  ghost predicate Raced<M, T>(
      clients: Clients<M>, ready: nat -> Ready, trace: seq<Input<M, T>>, won: seq<nat>, used: nat)
  {
    && |won| == |trace| && (forall j, k :: 0 <= j < k < |won| ==> won[j] < won[k])
    && (forall j :: 0 <= j < |won| ==>
          won[j] < used && ready(won[j]) == if trace[j].FromMailbox? then Mailbox else Item)
    && forall i: nat {:trigger ready(i)} :: i < used ==> Played(clients, ready, trace, won, i)
  }

  // What race i says when it is over: it was played like those before it, or it decided the end.
  ghost predicate DecidedAt<M, T>(
      clients: Clients<M>, ready: nat -> Ready, end: RaceEnd, i: nat, trace: seq<Input<M, T>>, won: seq<nat>)
  {
    match end
    case NotOver => Raced(clients, ready, trace, won, i + 1)
    case MailboxClosed => Raced(clients, ready, trace, won, i) && ready(i) == Mailbox
    case StreamOver => Raced(clients, ready, trace, won, i) && ready(i) == Item
    case _ => Raced(clients, ready, trace, won, i + 1) && won != [] && won[|won| - 1] == i
  }

  // All the races: the first `used` were played and there were no more, or the next one decided the end.
  ghost predicate Decided<M, T>(
      clients: Clients<M>, ready: nat -> Ready, races: nat, end: RaceEnd, used: nat, trace: seq<Input<M, T>>,
      won: seq<nat>, accepted: seq<Payload<M>>, closed: bool)
  {
    if end == NotOver
    then used == races && Raced(clients, ready, trace, won, races)
         && accepted == ArrivedBy(clients, used) && closed == ClosedBy(clients, used)
    else used < races && DecidedAt(clients, ready, end, used, trace, won)
         && accepted == ArrivedBy(clients, used + 1) && closed == ClosedBy(clients, used + 1)
  }

  lemma {:induction false} TakenBefore<M, T>(
      trace: seq<Input<M, T>>, won: seq<nat>, x: Input<M, T>, w: nat, i: nat)
    requires |won| == |trace|
    ensures TakenBy(trace + [x], won + [w], i) == TakenBy(trace, won, i) + if x.FromMailbox? && w < i then 1 else 0
  {
    assert (trace + [x])[..|trace|] == trace && (won + [w])[..|won|] == won;
  }

  // Race i takes an input.
  lemma RacedTake<M, T>(
      clients: Clients<M>, ready: nat -> Ready, trace: seq<Input<M, T>>, won: seq<nat>, i: nat, x: Input<M, T>)
    requires Raced(clients, ready, trace, won, i) && ready(i) == if x.FromMailbox? then Mailbox else Item
    ensures Raced(clients, ready, trace + [x], won + [i], i + 1)
  {
    forall r: nat | r < i + 1 ensures Played(clients, ready, trace + [x], won + [i], r) {
      TakenBefore(trace, won, x, i, r);
      if r == i { assert (won + [i])[|won|] == i; }
      else {
        assert Played(clients, ready, trace, won, r);
        assert r in won <==> r in won + [i];
      }
    }
  }

  lemma {:induction false} AllTakenBefore<M, T>(trace: seq<Input<M, T>>, won: seq<nat>, i: nat)
    requires |won| == |trace| && forall j :: 0 <= j < |won| ==> won[j] < i
    ensures TakenBy(trace, won, i) == |MailboxPart(trace)|
    decreases |trace|
  {
    if trace != [] { AllTakenBefore(trace[..|trace| - 1], won[..|won| - 1], i); }
  }

  // Race i takes nothing: nobody was ready, or the mailbox had nothing yet.
  lemma RacedIdle<M, T>(
      clients: Clients<M>, ready: nat -> Ready, trace: seq<Input<M, T>>, won: seq<nat>, i: nat)
    requires Raced(clients, ready, trace, won, i)
    requires ready(i) == Nobody || (ready(i) == Mailbox && |MailboxPart(trace)| == |ArrivedBy(clients, i + 1)|
                                    && !ClosedBy(clients, i + 1))
    ensures Raced(clients, ready, trace, won, i + 1)
  {
    AllTakenBefore(trace, won, i);
    forall r: nat | r < i + 1 ensures Played(clients, ready, trace, won, r) {
      if r < i { assert Played(clients, ready, trace, won, r); }
    }
  }

  // ---------------------------------------------------------------- nobody who is ready is passed over

  // How many of the races from a up to b the mailbox is found ready at.
  function Wins(ready: nat -> Ready, a: nat, b: nat): nat {
    if b <= a then 0 else Wins(ready, a, b - 1) + if ready(b - 1) == Mailbox then 1 else 0
  }

  lemma {:induction false} ArrivedMore<M>(clients: Clients<M>, i: nat, j: nat)
    requires i <= j
    ensures ArrivedBy(clients, i) <= ArrivedBy(clients, j)
    ensures ClosedBy(clients, i) ==> ClosedBy(clients, j) && ArrivedBy(clients, j) == ArrivedBy(clients, i)
  {
    if i < j { ArrivedMore(clients, i, j - 1); }
  }

  lemma {:induction false} TakenMore<M, T>(trace: seq<Input<M, T>>, won: seq<nat>, i: nat)
    requires |won| == |trace|
    ensures TakenBy(trace, won, i) <= TakenBy(trace, won, i + 1) <= |MailboxPart(trace)|
    ensures (exists j :: 0 <= j < |won| && won[j] == i && trace[j].FromMailbox?) ==>
              TakenBy(trace, won, i) < TakenBy(trace, won, i + 1)
    decreases |trace|
  {
    if trace != [] {
      var n := |trace| - 1;
      TakenMore(trace[..n], won[..n], i);
      if j :| 0 <= j < |won| && won[j] == i && trace[j].FromMailbox? {
        if j < n { assert won[..n][j] == i && trace[..n][j].FromMailbox?; }
      }
    }
  }

  // Whatever had arrived when race a began is taken at the mailbox's turns, one at each.
  lemma {:induction false} KeepsTaking<M, T>(
      clients: Clients<M>, ready: nat -> Ready, trace: seq<Input<M, T>>, won: seq<nat>, used: nat, a: nat, b: nat)
    requires Raced(clients, ready, trace, won, used) && a <= b <= used
    ensures TakenBy(trace, won, b) >= |ArrivedBy(clients, a + 1)| || TakenBy(trace, won, b) >= Wins(ready, a, b)
  {
    if a < b {
      var i := b - 1;
      KeepsTaking(clients, ready, trace, won, used, a, i);
      TakenMore(trace, won, i);
      if ready(i) == Mailbox {
        assert Played(clients, ready, trace, won, i);
        if i in won {
          var j :| 0 <= j < |won| && won[j] == i;
          assert trace[j].FromMailbox?;
        } else {
          ArrivedMore(clients, a + 1, i + 1);
        }
      }
    }
  }

  lemma {:induction false} PlainBox<M, T>(trace: seq<Input<M, T>>)
    requires AllPlain(trace)
    ensures forall k :: 0 <= k < |MailboxPart(trace)| ==> MailboxPart(trace)[k].Task?
    decreases |trace|
  {
    if trace != [] {
      assert AllPlain(trace[..|trace| - 1]);
      PlainBox(trace[..|trace| - 1]);
      assert Plain(trace[|trace| - 1]);
    }
  }

  // Which payloads were taken, by the way the races ended: tasks, and at most one Stop or Restart at the end.
  lemma TakenSort<M, T>(trace: seq<Input<M, T>>, end: RaceEnd)
    requires EndsWith(end, trace)
    ensures var m := |MailboxPart(trace)|;
            if end == StopReached || end == RestartReached
            then m > 0 && MailboxPart(trace)[m - 1] == (if end == StopReached then Stop else Restart)
                 && forall k :: 0 <= k < m - 1 ==> MailboxPart(trace)[k].Task?
            else forall k :: 0 <= k < m ==> MailboxPart(trace)[k].Task?
  {
    if end == StopReached || end == RestartReached {
      var n := |trace| - 1;
      assert AllPlain(trace[..n]) by { assert forall k :: 0 <= k < n ==> trace[..n][k] == trace[k]; }
      PlainBox(trace[..n]);
    } else {
      PlainBox(trace);
    }
  }

  // When the races are over everything was taken that had arrived, or there was one for each turn of the mailbox.
  lemma TakenAtEnd<M, T>(
      clients: Clients<M>, ready: nat -> Ready, races: nat, trace: seq<Input<M, T>>, won: seq<nat>, a: nat)
    requires Raced(clients, ready, trace, won, races) && a <= races
    ensures |MailboxPart(trace)| >= |ArrivedBy(clients, a + 1)| || |MailboxPart(trace)| >= Wins(ready, a, races)
  {
    KeepsTaking(clients, ready, trace, won, races, a, races);
    TakenMore(trace, won, races);
  }

  // What race a finds of the first n + 1 payloads is there when the races end, if they end by a closed mailbox
  // or for want of races.
  lemma StillThere<M>(clients: Clients<M>, a: nat, i: nat)
    ensures ArrivedBy(clients, a + 1) <= ArrivedBy(clients, i) || ArrivedBy(clients, i) <= ArrivedBy(clients, a + 1)
    ensures ClosedBy(clients, i) || a + 1 <= i ==> ArrivedBy(clients, a + 1) <= ArrivedBy(clients, i)
  {
    if a + 1 <= i { ArrivedMore(clients, a + 1, i); } else { ArrivedMore(clients, i, a + 1); }
  }

  lemma WinsNeedRaces(ready: nat -> Ready, a: nat, b: nat)
    ensures Wins(ready, a, b) > 0 ==> a < b
  {
  }

  lemma SameBefore<P>(xs: seq<P>, ys: seq<P>, k: nat)
    requires xs <= ys || ys <= xs
    ensures k < |xs| && k < |ys| ==> xs[k] == ys[k]
  {
  }

  // A payload that has arrived when race a begins, behind n tasks, is taken if the mailbox is found ready at more
  // than n of the races from then on, unless the stream ends first; and if it is a Stop the loop obeys it.
  lemma TakenInTurn<M, T>(
      clients: Clients<M>, ready: nat -> Ready, races: nat, end: RaceEnd, used: nat, trace: seq<Input<M, T>>,
      won: seq<nat>, accepted: seq<Payload<M>>, closed: bool, box: seq<Payload<M>>, a: nat, arrived: seq<Payload<M>>,
      n: nat)
    requires Decided(clients, ready, races, end, used, trace, won, accepted, closed) && EndsWith(end, trace)
    requires MailboxPart(trace) + box == accepted && (end == MailboxClosed ==> closed && box == [])
    requires arrived == ArrivedBy(clients, a + 1) && n < |arrived| && Wins(ready, a, races) > n
    requires forall k :: 0 <= k < n ==> arrived[k].Task?
    ensures end == StreamOver
            || (|MailboxPart(trace)| > n && MailboxPart(trace)[n] == arrived[n])
    ensures arrived[n] == Stop ==> end == StopReached || end == StreamOver
    ensures arrived[n] == Restart ==> end == RestartReached || end == StreamOver
  {
    var i, m := if end == NotOver then used else used + 1, |MailboxPart(trace)|;
    TakenSort(trace, end);
    StillThere(clients, a, i);
    WinsNeedRaces(ready, a, races);
    assert forall k :: 0 <= k < m ==> MailboxPart(trace)[k] == accepted[k];
    if end == NotOver { TakenAtEnd(clients, ready, races, trace, won, a); }
    if end == StopReached || end == RestartReached { SameBefore(arrived, accepted, m - 1); }
  }

  class StreamEnvironment<M, T, A(0), C, R> {
    const prog: StreamProgram<M, T, A, C, R>
    const stream: Stream<T>
    var ctx: C
    var payloadStream: seq<Payload<M>>
    var closed: bool
    var taken: nat
    var notified: bool
    // what has become of the reply of each accepted payload, if it has one
    var replies: seq<Actors.CallStatus<R>>
    ghost var accepted: seq<Payload<M>>
    ghost var trace: seq<Input<M, T>>
    ghost var hooks: seq<StreamMark>

    constructor (prog: StreamProgram<M, T, A, C, R>, ctx: C, stream: Stream<T>)
      ensures this.prog == prog && this.ctx == ctx && this.stream == stream && New()
    {
      this.prog, this.ctx, this.stream := prog, ctx, stream;
      payloadStream, closed, taken, notified, replies := [], false, 0, false, [];
      accepted, trace, hooks := [], [], [];
    }

    ghost predicate New()
      reads this
    {
      && payloadStream == [] && !closed && taken == 0 && !notified && replies == []
      && accepted == [] && trace == [] && hooks == []
    }

    ghost predicate EndsAs(end: RaceEnd)
      reads this
    {
      && EndsWith(end, trace) && (end == StreamOver ==> stream(taken) == None)
      && (end == MailboxClosed ==> closed && payloadStream == [])
    }

    ghost predicate Stands(begun: Local<A, C>, l: Local<A, C>)
      reads this
    {
      && Interleaves(trace, accepted, payloadStream, stream, taken)
         && Settled(prog, begun, accepted, replies, trace, Actors.Waiting)
      && l == Absorb(prog, begun, trace) && l.ctx == ctx
    }

    ghost predicate OnlyPlain()
      reads this
    {
      AllPlain(trace)
    }

    method Arrive(clients: Clients<M>, i: nat, ghost begun: Local<A, C>, ghost l: Local<A, C>)
      requires Stands(begun, l)
      requires if i == 0 then !closed && accepted == []
               else accepted == ArrivedBy(clients, i - 1) && closed == ClosedBy(clients, i - 1)
      modifies this`payloadStream, this`closed, this`accepted, this`replies
      ensures Stands(begun, l) && accepted == ArrivedBy(clients, i) && closed == ClosedBy(clients, i)
    {
      if !closed {
        SettledMore(prog, begun, accepted, replies, trace, clients.arrivals(i));
        payloadStream, accepted := payloadStream + clients.arrivals(i), accepted + clients.arrivals(i);
        replies := replies + Waits(|clients.arrivals(i)|);
        closed := clients.closes(i);
      }
    }

    // One arm of the `select!`: the payload stream yielded event.
    method TakeEvent(begun: Local<A, C>, l: Local<A, C>) returns (l': Local<A, C>, end: RaceEnd)
      requires payloadStream != [] && Stands(begun, l)
      modifies this`ctx, this`payloadStream, this`trace, this`replies
      ensures Stands(begun, l') && end == EndOf(old(payloadStream[0]))
      ensures trace == old(trace) + [FromMailbox(old(payloadStream[0]))]
    {
      var event, n := payloadStream[0], |replies| - |payloadStream|;
      TakePayload(trace, accepted, payloadStream, stream, taken);
      AbsorbSnoc(prog, begun, trace, FromMailbox(event));
      SettledEvent(prog, begun, accepted, replies, trace, event);
      payloadStream, trace := payloadStream[1..], trace + [FromMailbox(event)];
      match event {
        case Task(f, _) =>
          replies := replies[n := Actors.Replied(TaskAnswer(prog.base, f, l))];
          l' := RunTask(prog.base, f, l);
          ctx := l'.ctx;
          end := NotOver;
        case Stop => l', end := l, StopReached;
        case Restart => l', end := l, RestartReached;
      }
    }

    // The other arm: the stream yielded msg.
    method TakeMessage(begun: Local<A, C>, l: Local<A, C>, msg: T) returns (l': Local<A, C>)
      requires stream(taken) == Some(msg) && Stands(begun, l)
      modifies this`ctx, this`taken, this`trace
      ensures Stands(begun, l') && trace == old(trace) + [FromStream(msg)]
    {
      TakeItem(trace, accepted, payloadStream, stream, taken, msg);
      AbsorbSnoc(prog, begun, trace, FromStream(msg));
      SettledItem(prog, begun, accepted, replies, trace, msg);
      taken, trace := taken + 1, trace + [FromStream(msg)];
      l' := prog.handle(msg, l);
      ctx := l'.ctx;
    }

    // One `select!`. The loser of a race is left untouched, one that is not ready is not taken. The timeout
    // configuration is not looked at.
    method Select(
        begun: Local<A, C>, l: Local<A, C>, clients: Clients<M>, ready: nat -> Ready, i: nat, ghost won: seq<nat>)
      returns (l': Local<A, C>, end: RaceEnd, ghost won': seq<nat>)
      requires Stands(begun, l) && OnlyPlain() && Raced(clients, ready, trace, won, i)
      requires accepted == ArrivedBy(clients, i + 1) && closed == ClosedBy(clients, i + 1)
      modifies this`ctx, this`payloadStream, this`taken, this`trace, this`replies
      ensures Stands(begun, l') && EndsAs(end) && (end == NotOver ==> OnlyPlain())
      ensures DecidedAt(clients, ready, end, i, trace, won')
    {
      l', end, won' := l, NotOver, won;
      match ready(i) {
        case Mailbox =>
          if payloadStream != [] {
            RacedTake(clients, ready, trace, won, i, FromMailbox(payloadStream[0]));
            EndsAt(trace, payloadStream[0]);
            won' := won + [i];
            l', end := TakeEvent(begun, l);
          } else if closed {
            end := MailboxClosed;
            EndsBare(trace, end);
          } else {
            RacedIdle(clients, ready, trace, won, i);
            EndsBare(trace, end);
          }
        case Item =>
          match stream(taken) {
            case Some(msg) =>
              RacedTake(clients, ready, trace, won, i, FromStream(msg));
              won' := won + [i];
              l' := TakeMessage(begun, l, msg);
            case None =>
              end := StreamOver;
          }
          EndsBare(trace, end);
        case Nobody =>
          RacedIdle(clients, ready, trace, won, i);
          EndsBare(trace, end);
      }
    }

    // The `loop` over any number of races, while clients send and the stream may go on for ever.
    method Race(begun: Local<A, C>, clients: Clients<M>, ready: nat -> Ready, races: nat)
      returns (l: Local<A, C>, end: RaceEnd, ghost used: nat, ghost won: seq<nat>)
      requires Stands(begun, begun) && trace == []
      requires accepted == ArrivedBy(clients, 0) && closed == ClosedBy(clients, 0)
      modifies this`ctx, this`payloadStream, this`closed, this`taken, this`accepted, this`trace, this`replies
      ensures Stands(begun, l) && EndsAs(end)
      ensures Decided(clients, ready, races, end, used, trace, won, accepted, closed)
    {
      l, won := begun, [];
      for i := 0 to races
        invariant Stands(begun, l) && OnlyPlain()
        invariant Raced(clients, ready, trace, won, i)
        invariant accepted == ArrivedBy(clients, i) && closed == ClosedBy(clients, i)
      {
        Arrive(clients, i + 1, begun, l);
        l, end, won := Select(begun, l, clients, ready, i, won);
        if end != NotOver { return l, end, i, won; }
      }
      EndsBare(trace, NotOver);
      end, used := NotOver, races;
    }

    // The end of the loop's future, on whatever path: dropping the receiver drops the payloads not taken.
    method DropReceiver(ghost begun: Local<A, C>)
      requires Settled(prog, begun, accepted, replies, trace, Actors.Waiting) && |payloadStream| <= |replies|
      requires |MailboxPart(trace)| + |payloadStream| == |accepted|
      modifies this`replies
      ensures Settled(prog, begun, accepted, replies, trace, Actors.Canceled)
    {
      SettledClose(prog, begun, accepted, replies, trace);
      replies := replies[..|replies| - |payloadStream|] + Cancels(|payloadStream|);
    }

    // What follows the `loop`.
    method FinishAndStop(begun: Local<A, C>, l: Local<A, C>) returns (actor: A)
      requires Stands(begun, l)
      modifies this`ctx, this`hooks, this`notified, this`replies
      ensures Local(actor, ctx) == prog.base.stopped(prog.finished(l))
      ensures hooks == old(hooks) + [RanFinished, RanStopped] && notified
      ensures Settled(prog, begun, accepted, replies, trace, Actors.Canceled)
    {
      var done := prog.finished(l);
      hooks := hooks + [RanFinished];
      done := prog.base.stopped(done);
      ctx, hooks, notified, actor := done.ctx, hooks + [RanStopped], true, done.actor;
      DropReceiver(begun);
    }

    method Started(actor: A, clients: Clients<M>) returns (begun: Local<A, C>, ok: bool)
      requires New()
      modifies this`ctx, this`hooks, this`payloadStream, this`closed, this`accepted, this`replies
      ensures begun == prog.base.started(old(Local(actor, ctx))) && ok == prog.base.startOk(old(Local(actor, ctx)))
      ensures Stands(begun, begun) && hooks == [RanStarted]
      ensures accepted == ArrivedBy(clients, 0) && closed == ClosedBy(clients, 0)
    {
      ok := prog.base.startOk(Local(actor, ctx));
      begun := prog.base.started(Local(actor, ctx));
      ctx, hooks := begun.ctx, hooks + [RanStarted];
      Arrive(clients, 0, begun, begun);
    }

    // Every reply is settled at the end of the loop, also when it panics or never started: the task of
    // each payload that was taken has answered, in its place among payloads and items, every other
    // call is canceled.
    method CreateLoopOnStream(actor: A, clients: Clients<M>, ready: nat -> Ready, races: nat)
      returns (r: Result<A, StreamFailure>, ghost end: RaceEnd, ghost used: nat, ghost won: seq<nat>)
      requires New()
      modifies this
      ensures Interleaves(trace, accepted, payloadStream, stream, taken) && EndsAs(end)
      ensures Settled(prog, prog.base.started(old(Local(actor, ctx))), accepted, replies, trace,
                      if r == Err(Unfinished) then Actors.Waiting else Actors.Canceled)
      ensures r == Err(FailedToStart) <==> !prog.base.startOk(old(Local(actor, ctx)))
      ensures r == Err(FailedToStart) ==> trace == []
      ensures r != Err(FailedToStart) ==> Decided(clients, ready, races, end, used, trace, won, accepted, closed)
      ensures r != Err(FailedToStart) ==> (r == Err(PanickedOnRestart) <==> end == RestartReached)
      // a clean exit has one of three reasons, and ends in `finished`, `stopped` and the notification
      ensures r != Err(FailedToStart) ==> (r.Ok? <==> end in {StopReached, MailboxClosed, StreamOver})
      ensures hooks == if r.Ok? then [RanStarted, RanFinished, RanStopped] else [RanStarted]
      ensures notified == r.Ok?
      ensures r.Ok? ==>
                Local(r.value, ctx)
                == prog.base.stopped(prog.finished(Absorb(prog, prog.base.started(old(Local(actor, ctx))), trace)))
    {
      var begun, ok := Started(actor, clients);
      if !ok {
        DropReceiver(begun);
        return Err(FailedToStart), NotOver, 0, [];
      }
      var l, e, u, w := Race(begun, clients, ready, races);
      end, used, won := e, u, w;
      if e == NotOver { return Err(Unfinished), end, used, won; }
      if e == RestartReached {
        DropReceiver(begun);
        return Err(PanickedOnRestart), end, used, won;
      }
      var last := FinishAndStop(begun, l);
      return Ok(last), end, used, won;
    }
  }
}
