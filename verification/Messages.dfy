/** What travels through an actor's mailbox (src/environment/payload.rs). */
module Messages {
  datatype Option<+T> = None | Some(value: T)

  datatype Result<+T, +E> = Ok(value: T) | Err(error: E)

  // Every call and ping owns one oneshot reply channel, named by its id.
  type CallId = int

  // A boxed task either runs the handler of a message or, for a ping, nothing at all.
  datatype Work<M> = Ping | Handle(msg: M)

  datatype Payload<M> = Task(work: Work<M>, reply: Option<CallId>) | Restart | Stop
}
