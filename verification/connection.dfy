/** The two connections of server/redis.js and their authentication step. The client
    library is opaque: a command is recorded as issued, and its outcome is the `(err, data)`
    pair the library hands to the command's callback, or `None` when it never calls back. */
module Connection {
  import opened Js
  import opened Optional
  import opened Promise

  /** An opaque command sent on a connection: its name and argument list. */
  datatype Command = Command(name: string, args: seq<Value>)

  /** The `(err, data)` pair a command's callback receives. */
  datatype Reply = Reply(err: Value, data: Value)

  /** `client` carries commands and the reconnect policy; `sub` is the subscription connection. */
  datatype Conn = CommandConn | SubscriberConn

  datatype Issued = Issued(conn: Conn, cmd: Command)

  /** What an operation did: the commands it issued, in order, and the state of the promise it returned. */
  datatype Outcome = Outcome(issued: seq<Issued>, result: State)

  function AuthCommand(password: string): Command
  {
    Command("auth", [Str(password)])
  }

  /** The callback was invoked with a truthy error. */
  predicate Fails(reply: Option<Reply>)
  {
    reply.Some? && Truthy(reply.value.err)
  }

  /** The callback was invoked with a falsy error. */
  predicate Succeeds(reply: Option<Reply>)
  {
    reply.Some? && !Truthy(reply.value.err)
  }

  /** The state of a fresh promise whose `resolvePromise` callback receives `reply`, if any. */
  function Settled(reply: Option<Reply>): (q: State)
    ensures q.Pending? <==> reply.None?
    ensures Fails(reply) ==> q == Rejected(reply.value.err)
    ensures Succeeds(reply) ==> q == Resolved(reply.value.data)
  {
    match reply
    case None => Pending
    case Some(r) => Callback(Pending, r.err, r.data)
  }

  /** The file-local `auth(conn)`: with no password it resolves `true` and sends nothing;
      otherwise it sends one `auth` command and takes that command's outcome. */
  function Auth(conn: Conn, password: Option<string>, reply: Option<Reply>): (o: Outcome)
    ensures password.None? <==> o.issued == []
    ensures password.None? ==> o.result == Resolved(Bool(true))
    ensures password.Some? ==> o.issued == [Issued(conn, AuthCommand(password.value))]
    ensures password.Some? ==> (o.result.Pending? <==> reply.None?)
    ensures password.Some? && Fails(reply) ==> o.result == Rejected(reply.value.err)
    ensures password.Some? && Succeeds(reply) ==> o.result == Resolved(reply.value.data)
  {
    if password.None? then
      Outcome([], Resolved(Bool(true)))
    else
      Outcome([Issued(conn, AuthCommand(password.value))], Settled(reply))
  }

  /** The exported `auth`: awaits `auth` on the command connection, then on the subscription
      connection. A rejection of the first await ends the async function with that rejection
      before `sub` is touched; a first promise that never settles leaves it waiting with `sub`
      untouched. On success it resolves `undefined`. */
  function AuthAll(password: Option<string>, clientReply: Option<Reply>, subReply: Option<Reply>): (o: Outcome)
    ensures password.None? <==> o.issued == []
    ensures password.None? ==> o.result == Resolved(Undefined)
    ensures password.Some? ==> o.issued[0] == Issued(CommandConn, AuthCommand(password.value))
    ensures password.Some? && !Succeeds(clientReply) ==> o.issued == [Issued(CommandConn, AuthCommand(password.value))]
    ensures password.Some? && Fails(clientReply) ==> o.result == Rejected(clientReply.value.err)
    ensures password.Some? && clientReply.None? ==> o.result == Pending
    ensures password.Some? && Succeeds(clientReply) ==>
      o.issued == [Issued(CommandConn, AuthCommand(password.value)), Issued(SubscriberConn, AuthCommand(password.value))]
    ensures password.Some? && Succeeds(clientReply) && Fails(subReply) ==> o.result == Rejected(subReply.value.err)
    ensures password.Some? && Succeeds(clientReply) && subReply.None? ==> o.result == Pending
    ensures o.result.Resolved? <==> password.None? || (Succeeds(clientReply) && Succeeds(subReply))
    ensures o.result.Resolved? ==> o.result.value == Undefined
  {
    var first := Auth(CommandConn, password, clientReply);
    match first.result
    case Pending => first
    case Rejected(e) => first
    case Resolved(_) =>
      var second := Auth(SubscriberConn, password, subReply);
      var result := if second.result.Resolved? then Resolved(Undefined) else second.result;
      Outcome(first.issued + second.issued, result)
  }

  /** The command connection is always authenticated before the subscription connection,
      and the subscription connection only once the command connection has succeeded. */
  lemma AuthOrder(password: Option<string>, clientReply: Option<Reply>, subReply: Option<Reply>)
    ensures var issued := AuthAll(password, clientReply, subReply).issued;
      forall i, j :: 0 <= i < j < |issued| ==> issued[i].conn == CommandConn && issued[j].conn == SubscriberConn
    ensures var issued := AuthAll(password, clientReply, subReply).issued;
      forall i :: (0 <= i < |issued| && issued[i].conn == SubscriberConn) ==> Succeeds(clientReply)
  {
    var issued := AuthAll(password, clientReply, subReply).issued;
    assert |issued| <= 2;
    if |issued| == 2 {
      assert issued[0].conn == CommandConn && issued[1].conn == SubscriberConn;
    }
  }
}
