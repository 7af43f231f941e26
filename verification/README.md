# Redis adapter of the chat demo server, in Dafny

`server/redis.js` wraps the `redis` client library for the chat server. It reads the
endpoint and password settings and splits the endpoint into host and port. It gives the
command connection a reconnect policy (`retry_strategy`). It turns the library's
error-first callbacks into promises (`resolvePromise`), authenticates both connections
(`auth`), and exports one promise-returning wrapper per store command. This project models
that logic as pure functions over immutable values:

- `optional.dfy` — `Option`, for settings and replies that may be absent.
- `js.dfy` — JavaScript values as data (primitives, arrays, plain objects, errors), with truthiness (`Truthy`), `||` (`Or`)
  and the guarded read of an error's `code` (`CodeOf`).
- `promise.dfy` — a settle-once promise (`Pending`, `Resolved`, `Rejected`) and the callback
  that `resolvePromise` builds.
- `retry.dfy` — `retry_strategy` as written and as evidently intended. It also models a run of
  consecutive failed connection attempts driven by either policy.
- `endpoint.dfy` — the endpoint and password defaults, `split(":")` with its inverse
  `join(":")`, and the host/port destructuring.
- `connection.dfy` — the file-local `auth` and the exported `auth`.
- `commands.dfy` — the command wrappers: default parameters, one opaque command, promise settlement.

The store's commands are opaque. A call is recorded as an issued `Command` (name and
arguments), and its outcome is whatever `(err, data)` pair the library passes to the
callback, or no call at all. That reply is a parameter of the model.

The exported `auth` (lines 58-61) awaits `auth(sub)` as well as `auth(client)`. `sub`
already gets the password as a connection option at lines 51-53. So when a password is
set, it is sent to `sub` twice. `Connection.AuthAll` models the explicit `auth` command;
the connection option is library configuration.

## Model

| member | source | states |
|---|---|---|
| Js.Truthy | server/redis.js:32 | JavaScript's ToBoolean, which decides the retry guard here and `if (err)` at line 12: exactly `undefined`, `null`, `false`, `0`, `NaN` and `""` are falsy; every object, including an empty array, is truthy |
| Js.Or | server/redis.js:32 | `a \|\| b` yields one of its operands, not a boolean: the left operand when that one is truthy, the right one otherwise; the result is truthy iff either operand is |
| Js.CodeOf | server/redis.js:32 | `error.code` is read only behind a truthiness guard; an error object yields its `code`, a plain object its `code` field if it has one, and other values have none |
| Promise.Settle | server/redis.js:13-15 | a call of `resolve(v)`/`reject(e)` settles a pending promise as `Resolved(v)`/`Rejected(e)` and leaves a settled one unchanged |
| Promise.SettledStays | server/redis.js:13-15 | a settled promise keeps its state under any later sequence of `resolve`/`reject` calls |
| Promise.FirstSettlementWins | server/redis.js:13-15 | of any non-empty sequence of settlement calls on a pending promise, only the first counts |
| Promise.CallbackSettlements | server/redis.js:11-16 | the callback always ends with `resolve(data)`; with a truthy `err` it makes two calls, `reject(err)` first, and otherwise only that one |
| Promise.Callback | server/redis.js:10-17 | on a pending promise, a truthy `err` gives `Rejected(err)` and a falsy one gives `Resolved(data)`; a settled promise is unchanged |
| Promise.TrailingResolveIgnored | server/redis.js:12-15 | with a truthy `err`, the `resolve(data)` after `reject(err)` has no effect |
| Promise.CallbackSettlesOnce | server/redis.js:10-17 | the first invocation of the callback settles the promise, and no later invocation changes it |
| Promise.RepeatSettled | server/redis.js:10-17 | repeated callback invocations leave a settled promise as it is |
| Retry.Backoff | server/redis.js:35 | the delay is the smaller of `attempt * 100` and 3000: it never exceeds either |
| Retry.BackoffShape | server/redis.js:35 | the delay is 3000 for every attempt from 30 on, linear below that, and positive for attempt 1 and above |
| Retry.BackoffMonotonic | server/redis.js:35 | the delay is non-decreasing in the attempt number |
| Retry.ReconnectGuard | server/redis.js:32 | the guard as parsed is always truthy: `true` for an ECONNREFUSED error, the literal `"ETIMEDOUT"` otherwise |
| Retry.TimeAndAttemptLimits | server/redis.js:37-46 | more than an hour of retrying gives the "Retry time exhausted" error whatever the attempt; within the hour, more than 10 attempts gives `undefined`; otherwise the backoff |
| Retry.RetryStrategy | server/redis.js:31-47 | the policy as written returns the backoff delay for every input, never an `Error` or `undefined` |
| Retry.IntendedRetryStrategy | server/redis.js:32-46 | with the corrected guard, the "Retry time exhausted" error comes exactly when the error is not one of the three codes and more than an hour has passed; `undefined` exactly when it is not one of them, within the hour, after more than 10 attempts; every retry waits the backoff |
| Retry.StopBranchesUnreachable | server/redis.js:32-44 | neither the "Retry time exhausted" branch nor the attempt-limit branch is ever taken |
| Retry.GuardIgnoresTimeLimit | server/redis.js:32-40 | with no error, attempt 11 and more than an hour elapsed, the as-written policy retries after 1100 ms; the corrected one reports the error |
| Retry.GuardIgnoresAttemptLimit | server/redis.js:32-44 | with no error and attempt 11 within the hour, the as-written policy retries; the corrected one stops |
| Retry.Reconnect | server/redis.js:31-47 | in a driver that consults only the policy, a run of failed attempts has at most one delay per attempt and ends only on a non-retry decision |
| Retry.AsWrittenNeverEnds | server/redis.js:31-47 | in the modelled driver, the as-written policy never asks to stop: every run keeps retrying, with delay `min((attempt + i) * 100, 3000)` before attempt `i + 1` |
| Retry.LimitsEndRun | server/redis.js:37-46 | under the time and attempt limits, a run from attempt `a >= 1` ends after at most `11 - a` retries |
| Retry.IntendedEndsWithinTenRetries | server/redis.js:32-46 | with the corrected guard, a connection failing for another reason is given up after at most 10 retries |
| Endpoint.EnvValue | server/redis.js:5-6 | an unset variable reads as `undefined`; the value is truthy exactly when the variable is set and not empty |
| Endpoint.EndpointSetting | server/redis.js:5 | the endpoint is the JavaScript `\|\|` of the variable (`undefined` when unset) and `"127.0.0.1:6379"`, and is never empty |
| Endpoint.PasswordSetting | server/redis.js:6 | the password, read as `null` when absent, is the JavaScript `\|\|` of the variable and `null` |
| Endpoint.Split | server/redis.js:8 | `split(":")` yields at least one piece, no piece contains `:`, and joining the pieces with `:` gives the endpoint back |
| Endpoint.SplitAfterPiece | server/redis.js:8 | a colon-free piece followed by `:` splits off as the first piece |
| Endpoint.SplitPiece | server/redis.js:8 | a colon-free string splits to itself alone |
| Endpoint.SplitJoin | server/redis.js:8 | splitting the join of colon-free pieces gives the pieces back |
| Endpoint.HostPort | server/redis.js:8 | the host is the text before the first `:`; the port is the text between the first and second `:`, or undefined exactly when there is no `:` |
| Endpoint.DefaultAddress | server/redis.js:5-8 | with the endpoint unset, the host is `127.0.0.1` and the port `6379` |
| Connection.Settled | server/redis.js:10-17 | a fresh promise handed to the `resolvePromise` callback stays pending exactly when no reply comes, is rejected with a truthy error and resolved with the data otherwise |
| Connection.Auth | server/redis.js:19-25 | with no password it resolves `true` and sends nothing; otherwise it sends exactly one `auth(password)` and takes that command's outcome: pending without a reply, rejected with a truthy error, resolved with the data otherwise |
| Connection.AuthAll | server/redis.js:58-61 | authenticates `client` then `sub`; unless `client` succeeds, `sub` is not tried and the result is `client`'s rejection or pending; after that, a failure on `sub` rejects with `sub`'s error; it resolves `undefined` exactly when there is no password or both succeed |
| Connection.AuthOrder | server/redis.js:58-61 | every command sent to `client` precedes every command sent to `sub`, and `sub` is only reached after `client` succeeded |
| Commands.Name | server/redis.js:62-93 | each wrapper calls the client method of its own lower-case command name |
| Commands.NameInjective | server/redis.js:62-93 | distinct wrappers call distinct client methods |
| Commands.Defaults | server/redis.js:62-93 | every wrapper's first parameter is the key, defaulting to `"key"` |
| Commands.Arguments | server/redis.js:62-93 | one value per declared parameter; a given, non-undefined argument is forwarded verbatim; a missing or undefined one takes its default |
| Commands.FullArgumentsForwarded | server/redis.js:62-93 | a full list of defined arguments is forwarded unchanged |
| Commands.ArgumentsIdempotent | server/redis.js:62-93 | applying the defaults again changes nothing |
| Commands.Call | server/redis.js:62-93 | a wrapper issues exactly one command on `client`, under the wrapped method's name and with the defaulted arguments; it stays pending without a reply, is rejected with a truthy error and resolved with the data otherwise |
| Commands.OmittedKeyIsLiteral | server/redis.js:62-93 | with the key omitted or undefined, every wrapper targets the literal key `"key"` |

## Findings

| source | as written | input that shows it | evidently intended | confidence | as-written member | corrected member |
|---|---|---|---|---|---|---|
| server/redis.js:32 | `error && error.code === "ECONNREFUSED" \|\| "ETIMEDOUT" \|\| "CONNECTION_BROKEN"` is always truthy, so the policy never asks the client to stop reconnecting; lines 37-46 are dead | `{error: undefined, attempt: 11, total_retry_time: 3600001}` returns 1100 instead of the "Retry time exhausted" error | compare `error.code` with each of the three codes, so other failures reach the one-hour and ten-attempt limits | high (proved; not executed) | Retry.RetryStrategy, Retry.GuardIgnoresTimeLimit | Retry.IntendedRetryStrategy, Retry.IntendedEndsWithinTenRetries |

## Left out

- Creating the clients (`redis.createClient`), the socket transport and real reconnection timing belong to the client library and are not modelled.
- Retry.Reconnect: assumes the library calls the policy after each failed attempt, numbers the next attempt one higher and adds the returned delay to the elapsed retry time. The library is not part of this model.
- Retry.Reconnect: limits the client library enforces itself, apart from the policy (a connect timeout, for one), are not modelled. So the run lemmas speak about what the policy asks for, not about when the real client gives up.
- Retry.Reconnect: keeps one `error` for the whole run, whereas the library passes each failed attempt its own error. The as-written policy ignores the error, so nothing about it changes. For the corrected policy, the run lemmas cover runs whose every error lies outside the three codes.
- Reading `dotenv` and the process environment is I/O. The two variables are parameters (`Option<string>`) of `EndpointSetting` and `PasswordSetting`.
- The numeric coercion `+port` (whitespace, hexadecimal, NaN) is not modelled. The port stays an optional string.
- JavaScript numbers are reals plus `NaN`. The infinities, the sign of zero and floating-point rounding are not modelled; no modelled operation computes with these values. The retry policy's `attempt` and `total_retry_time` are integers, as the library counts them.
- JavaScript objects are modelled by content: object identity, prototypes and non-enumerable properties are not modelled.
- The `password` connection option of `sub` (lines 51-53) is library configuration, not modelled.
- What the store does with each command (INCR, SET/GET, SADD, ZADD, ...) is not modelled. Each reply is an arbitrary `(err, data)` pair, so store-level round trips such as `set` then `get` are out of scope.
- The interleaving of concurrent wrapper calls is up to the client library, not this file, and is not modelled.
- A reply that the library never delivers is modelled as `None`: the promise stays pending. Whether and when the library calls back is up to the library.
