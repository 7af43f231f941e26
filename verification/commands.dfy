/** The command wrappers exported by server/redis.js. Each one applies its parameter
    defaults, issues exactly one command on the command connection and settles its promise
    through the `resolvePromise` callback. What the store does with the command is not
    modelled: its reply is an arbitrary `(err, data)` pair, or none when the library never
    calls back. */
module Commands {
  import opened Js
  import opened Optional
  import opened Promise
  import opened Connection

  datatype Op =
    | Incr | Decr | Hmset | Exists | Hexists | Set | Get | Hgetall
    | Zrangebyscore | Zadd | Sadd | Hmget | Sismember | Smembers | Srem

  const DefaultKey := Str("key")

  /** The client method each wrapper calls: a lower-case command name. */
  function Name(op: Op): (name: string)
    ensures name != [] && forall i :: 0 <= i < |name| ==> 'a' <= name[i] <= 'z'
  {
    match op
    case Incr => "incr"
    case Decr => "decr"
    case Hmset => "hmset"
    case Exists => "exists"
    case Hexists => "hexists"
    case Set => "set"
    case Get => "get"
    case Hgetall => "hgetall"
    case Zrangebyscore => "zrangebyscore"
    case Zadd => "zadd"
    case Sadd => "sadd"
    case Hmget => "hmget"
    case Sismember => "sismember"
    case Smembers => "smembers"
    case Srem => "srem"
  }

  /** Distinct wrappers call distinct client methods. */
  lemma NameInjective(op: Op, op': Op)
    requires op != op'
    ensures Name(op) != Name(op')
  {
  }

  /** The wrapper's parameters, in order, given by their default values; a parameter
      without a default (`value`) defaults to `undefined`. */
  function Defaults(op: Op): (ds: seq<Value>)
    ensures ds != [] && ds[0] == DefaultKey
  {
    match op
    case Incr => [DefaultKey]
    case Decr => [DefaultKey]
    case Hmset => [DefaultKey, Arr([])]
    case Exists => [DefaultKey]
    case Hexists => [DefaultKey, Str("")]
    case Set => [DefaultKey, Undefined]
    case Get => [DefaultKey]
    case Hgetall => [DefaultKey]
    case Zrangebyscore => [DefaultKey, Num(0.0), Num(1.0)]
    case Zadd => [DefaultKey, Str(""), Undefined]
    case Sadd => [DefaultKey, Undefined]
    case Hmget => [DefaultKey, Str("")]
    case Sismember => [DefaultKey, Str("")]
    case Smembers => [DefaultKey]
    case Srem => [DefaultKey, Str("")]
  }

  /** JavaScript default parameters: the wrapper sees one value per declared parameter;
      a missing argument, or one passed as `undefined`, takes the default; surplus
      arguments are ignored. */
  function Arguments(op: Op, given: seq<Value>): (args: seq<Value>)
    ensures |args| == |Defaults(op)|
    ensures forall i :: 0 <= i < |args| && i < |given| && given[i] != Undefined ==> args[i] == given[i]
    ensures forall i :: 0 <= i < |args| && (i >= |given| || given[i] == Undefined) ==> args[i] == Defaults(op)[i]
  {
    var ds := Defaults(op);
    seq(|ds|, i requires 0 <= i < |ds| => if i < |given| && given[i] != Undefined then given[i] else ds[i])
  }

  /** Arguments given in full, none of them `undefined`, are forwarded verbatim. */
  lemma FullArgumentsForwarded(op: Op, given: seq<Value>)
    requires |given| == |Defaults(op)|
    requires forall i :: 0 <= i < |given| ==> given[i] != Undefined
    ensures Arguments(op, given) == given
  {
    var args := Arguments(op, given);
    assert forall i :: 0 <= i < |args| ==> args[i] == given[i];
  }

  /** Applying the defaults a second time changes nothing. */
  lemma ArgumentsIdempotent(op: Op, given: seq<Value>)
    ensures Arguments(op, Arguments(op, given)) == Arguments(op, given)
  {
    var args := Arguments(op, given);
    var again := Arguments(op, args);
    forall i | 0 <= i < |again|
      ensures again[i] == args[i]
    {
      if args[i] == Undefined {
        assert again[i] == Defaults(op)[i];
        assert Defaults(op)[i] == Undefined;
      }
    }
  }

  /** Calling a wrapper: one command on the command connection, whose callback settles
      the returned promise. */
  function Call(op: Op, given: seq<Value>, reply: Option<Reply>): (o: Outcome)
    ensures |o.issued| == 1 && o.issued[0].conn == CommandConn
    ensures o.issued[0].cmd.name == Name(op)
    ensures o.issued[0].cmd.args == Arguments(op, given)
    ensures o.result.Pending? <==> reply.None?
    ensures o.result.Rejected? <==> Fails(reply)
    ensures Fails(reply) ==> o.result == Rejected(reply.value.err)
    ensures Succeeds(reply) ==> o.result == Resolved(reply.value.data)
  {
    Outcome([Issued(CommandConn, Command(Name(op), Arguments(op, given)))], Settled(reply))
  }

  /** Every wrapper called with its key omitted, or passed as `undefined`, targets the
      literal key `"key"`. */
  lemma OmittedKeyIsLiteral(op: Op, given: seq<Value>, reply: Option<Reply>)
    requires given == [] || given[0] == Undefined
    ensures Call(op, given, reply).issued[0].cmd.args[0] == Str("key")
  {
    assert Arguments(op, given)[0] == Defaults(op)[0];
  }
}
