/** A JavaScript promise seen through its `resolve` and `reject` functions, and the
    error-first-callback adapter `resolvePromise` of server/redis.js. */
module Promise {
  import opened Js

  /** The state of a promise: it settles at most once. */
  datatype State = Pending | Resolved(value: Value) | Rejected(reason: Value)

  /** One call of the executor's `resolve` or `reject` function. */
  datatype Settlement = Resolve(value: Value) | Reject(reason: Value)

  /** The state a settlement would put a pending promise in. */
  function Target(s: Settlement): State
  {
    match s
    case Resolve(v) => Resolved(v)
    case Reject(e) => Rejected(e)
  }

  /** Calling `resolve` or `reject`: a pending promise takes the settlement, a settled one ignores it. */
  function Settle(p: State, s: Settlement): (q: State)
    ensures !q.Pending?
    ensures !p.Pending? ==> q == p
    ensures p.Pending? ==> (q.Resolved? <==> s.Resolve?)
    ensures p.Pending? ==> q == Target(s)
  {
    if p.Pending? then Target(s) else p
  }

  /** Applying a sequence of settlement calls in order. */
  function SettleAll(p: State, ss: seq<Settlement>): State
    decreases |ss|
  {
    if ss == [] then p else SettleAll(Settle(p, ss[0]), ss[1..])
  }

  /** Once settled, a promise keeps its state whatever is called afterwards. */
  lemma {:induction false} SettledStays(p: State, ss: seq<Settlement>)
    requires !p.Pending?
    ensures SettleAll(p, ss) == p
    decreases |ss|
  {
    if ss != [] {
      SettledStays(Settle(p, ss[0]), ss[1..]);
    }
  }

  /** Only the first settlement call counts. */
  lemma {:induction false} FirstSettlementWins(ss: seq<Settlement>)
    requires ss != []
    ensures SettleAll(Pending, ss) == Target(ss[0])
  {
    SettledStays(Target(ss[0]), ss[1..]);
  }

  /** The calls the callback built by `resolvePromise(resolve, reject)` makes when invoked
      with `(err, data)`: `reject(err)` when `err` is truthy, then `resolve(data)` in every case. */
  function CallbackSettlements(err: Value, data: Value): (ss: seq<Settlement>)
    ensures ss != [] && ss[|ss| - 1] == Resolve(data)
    ensures ss[0] == (if Truthy(err) then Reject(err) else Resolve(data))
    ensures |ss| == if Truthy(err) then 2 else 1
  {
    (if Truthy(err) then [Reject(err)] else []) + [Resolve(data)]
  }

  /** Invoking the callback of `resolvePromise` on a promise in state `p`. A truthy error
      rejects with that error and the `resolve(data)` that follows has no effect; a falsy
      error resolves with `data`; a promise already settled is left as it is. */
  function Callback(p: State, err: Value, data: Value): (q: State)
    ensures p.Pending? && Truthy(err) ==> q == Rejected(err)
    ensures p.Pending? && !Truthy(err) ==> q == Resolved(data)
    ensures !p.Pending? ==> q == p
  {
    var ss := CallbackSettlements(err, data);
    if p.Pending? then
      FirstSettlementWins(ss);
      SettleAll(p, ss)
    else
      SettledStays(p, ss);
      SettleAll(p, ss)
  }

  /** When `err` is truthy the trailing `resolve(data)` reaches an already rejected promise
      and is ignored. */
  lemma TrailingResolveIgnored(err: Value, data: Value)
    requires Truthy(err)
    ensures Settle(Settle(Pending, Reject(err)), Resolve(data)) == Rejected(err)
    ensures Callback(Pending, err, data) == Settle(Settle(Pending, Reject(err)), Resolve(data))
  {
  }

  /** The callback settles a pending promise exactly once: whatever further callback
      invocations follow, the state after the first invocation stays. */
  lemma CallbackSettlesOnce(err: Value, data: Value, later: seq<(Value, Value)>)
    ensures !Callback(Pending, err, data).Pending?
    ensures Repeat(Callback(Pending, err, data), later) == Callback(Pending, err, data)
  {
    var q := Callback(Pending, err, data);
    RepeatSettled(q, later);
  }

  /** Invoking the callback again for each `(err, data)` pair, in order. */
  function Repeat(p: State, calls: seq<(Value, Value)>): State
    decreases |calls|
  {
    if calls == [] then p else Repeat(Callback(p, calls[0].0, calls[0].1), calls[1..])
  }

  lemma {:induction false} RepeatSettled(p: State, calls: seq<(Value, Value)>)
    requires !p.Pending?
    ensures Repeat(p, calls) == p
    decreases |calls|
  {
    if calls != [] {
      RepeatSettled(Callback(p, calls[0].0, calls[0].1), calls[1..]);
    }
  }
}
