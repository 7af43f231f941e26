/** The connection settings of server/redis.js: defaults for the endpoint and the password,
    and the split of the endpoint into host and port. */
module Endpoint {
  import opened Optional
  import opened Js

  const DefaultEndpoint := "127.0.0.1:6379"
  const Separator := ':'

  /** An environment variable as JavaScript sees it: `undefined` when unset, a string otherwise. */
  function EnvValue(env: Option<string>): (v: Value)
    ensures v == Undefined <==> env.None?
    ensures Truthy(v) <==> env.Some? && env.value != []
  {
    match env
    case None => Undefined
    case Some(s) => Str(s)
  }

  /** The endpoint setting is the environment variable joined to the default by `||`:
      an unset or empty variable falls back to the default. */
  function EndpointSetting(env: Option<string>): (e: string)
    ensures e != []
    ensures Str(e) == Or(EnvValue(env), Str(DefaultEndpoint))
  {
    if env.Some? && env.value != [] then env.value else DefaultEndpoint
  }

  /** The password setting is the environment variable joined to `null` by `||`: an unset
      or empty variable means no password. */
  function PasswordSetting(env: Option<string>): (p: Option<string>)
    ensures (if p.None? then Null else Str(p.value)) == Or(EnvValue(env), Null)
  {
    if env.Some? && env.value != [] then env else None
  }

  /** `parts.join(":")`. */
  function Join(parts: seq<string>): string
    requires parts != []
    decreases |parts|
  {
    if |parts| == 1 then parts[0] else parts[0] + [Separator] + Join(parts[1..])
  }

  /** `s.split(":")`: the maximal separator-free pieces of `s`, in order; `""` splits to `[""]`. */
  function Split(s: string): (parts: seq<string>)
    ensures parts != []
    ensures forall i :: 0 <= i < |parts| ==> Separator !in parts[i]
    ensures Join(parts) == s
    decreases |s|
  {
    if s == [] then [[]]
    else
      var rest := Split(s[1..]);
      if s[0] == Separator then
        [[]] + rest
      else
        assert [s[0]] + Join(rest) == s;
        [[s[0]] + rest[0]] + rest[1..]
  }

  /** Splitting a separator-free piece followed by a separator. */
  lemma {:induction false} SplitAfterPiece(a: string, t: string)
    requires Separator !in a
    ensures Split(a + [Separator] + t) == [a] + Split(t)
    decreases |a|
  {
    if a == [] {
      assert a + [Separator] + t == [Separator] + t;
      assert ([Separator] + t)[1..] == t;
    } else {
      SplitAfterPiece(a[1..], t);
      assert (a + [Separator] + t)[1..] == a[1..] + [Separator] + t;
      assert [a[0]] + a[1..] == a;
    }
  }

  /** A separator-free string splits to itself. */
  lemma {:induction false} SplitPiece(a: string)
    requires Separator !in a
    ensures Split(a) == [a]
    decreases |a|
  {
    if a != [] {
      SplitPiece(a[1..]);
      assert [a[0]] + a[1..] == a;
    }
  }

  /** Joining separator-free pieces and splitting again gives the pieces back. */
  lemma {:induction false} SplitJoin(parts: seq<string>)
    requires parts != []
    requires forall i :: 0 <= i < |parts| ==> Separator !in parts[i]
    ensures Split(Join(parts)) == parts
    decreases |parts|
  {
    if |parts| == 1 {
      SplitPiece(parts[0]);
    } else {
      SplitJoin(parts[1..]);
      SplitAfterPiece(parts[0], Join(parts[1..]));
      assert [parts[0]] + parts[1..] == parts;
    }
  }

  /** The host and the optional port, as destructured from the split endpoint. */
  datatype Address = Address(host: string, port: Option<string>)

  /** Array destructuring of the split endpoint: the host is the text before the first
      separator; the port is the text between the first and the second separator, or
      undefined when there is no separator. Anything after a second separator is dropped. */
  function HostPort(endpoint: string): (a: Address)
    ensures Separator !in a.host && a.host <= endpoint
    ensures a.port.None? <==> Separator !in endpoint
    ensures a.port.None? ==> a.host == endpoint
    ensures a.port.Some? ==>
      && Separator !in a.port.value
      && a.host + [Separator] + a.port.value <= endpoint
      && (|a.host| + 1 + |a.port.value| < |endpoint| ==> endpoint[|a.host| + 1 + |a.port.value|] == Separator)
  {
    var parts := Split(endpoint);
    if |parts| == 1 then
      Address(parts[0], None)
    else
      JoinShape(parts);
      Address(parts[0], Some(parts[1]))
  }

  /** The first two pieces of a join of two or more pieces, with their separators. */
  lemma JoinShape(parts: seq<string>)
    requires |parts| >= 2
    ensures |parts| == 2 ==> Join(parts) == parts[0] + [Separator] + parts[1]
    ensures |parts| > 2 ==> Join(parts) == parts[0] + [Separator] + parts[1] + [Separator] + Join(parts[2..])
  {
    assert parts[1..][1..] == parts[2..];
  }

  /** With the variable unset the client connects to 127.0.0.1 on port 6379. */
  lemma {:induction false} DefaultAddress()
    ensures HostPort(EndpointSetting(None)) == Address("127.0.0.1", Some("6379"))
  {
    var parts := ["127.0.0.1", "6379"];
    assert Join(parts) == DefaultEndpoint;
    SplitJoin(parts);
  }
}
