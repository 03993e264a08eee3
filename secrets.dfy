/** The local secret server (src/service/secrets.ts): a registry from random
    keys to secrets, served over HTTP on 127.0.0.1 so that an engine's
    password command can fetch a secret with curl.  The module-level
    `server`, `serverPort` and `registry` are the fields of one
    `SecretService`; the socket is reduced to whether it listens, and a
    request to its target string.  The random key is a parameter. */
module Secrets {
  import opened Wrappers
  import opened Text

  const DefaultPort: int := 58118
  const Host: string := "127.0.0.1"
  const SecretName: string := "secret"
  /** Node's message when `close` is called on a server that no longer
      listens. */
  const ServerNotRunning: string := "Server is not running."

  predicate IsBase64UrlChar(c: char)
  {
    ('A' <= c <= 'Z') || ('a' <= c <= 'z') || ('0' <= c <= '9') || c == '-' || c == '_'
  }

  /** The shape of `crypto.randomBytes(8).toString('base64url')`: eleven
      characters of the URL-safe alphabet, no padding. */
  predicate IsKey(key: string)
  {
    |key| == 11 && forall i :: 0 <= i < |key| ==> IsBase64UrlChar(key[i])
  }

  /** The request target a registration's URL leads to. */
  function RequestTarget(key: string): string
  {
    "/?" + SecretName + "=" + key
  }

  /** The URL `registerSecret` hands out. */
  function SecretUrl(port: int, key: string): string
  {
    "http://" + Host + ":" + IntToString(port) + RequestTarget(key)
  }

  /** The shell command `registerSecret` hands out. */
  function CurlCommand(url: string): string
  {
    "curl \"" + url + "\""
  }

  datatype Registration = Registration(key: string, url: string, command: string)

  // ---------------------------------------------------------------------
  // reading the `secret` query parameter

  /** The index of the first c in s, or |s| when there is none. */
  function IndexOf(s: string, c: char): (i: nat)
    ensures i <= |s|
    ensures forall j :: 0 <= j < i ==> s[j] != c
    ensures i < |s| ==> s[i] == c
  {
    if s == [] then 0 else if s[0] == c then 0 else 1 + IndexOf(s[1..], c)
  }

  /** The query of a request target: after the first '?', before the
      fragment. */
  function QueryOf(target: string): string
  {
    var t := target[..IndexOf(target, '#')];
    var q := IndexOf(t, '?');
    if q == |t| then "" else t[q + 1..]
  }

  function NameOf(part: string): string
  {
    part[..IndexOf(part, '=')]
  }

  /** A part without '=' has the empty value. */
  function ValueOf(part: string): string
  {
    var e := IndexOf(part, '=');
    if e == |part| then "" else part[e + 1..]
  }

  /** `searchParams.get(name)`: the value of the first part with that name. */
  function FirstValue(parts: seq<string>, name: string): (r: Option<string>)
    ensures r.None? <==> forall i :: 0 <= i < |parts| ==> NameOf(parts[i]) != name
    ensures r.Some? ==>
      exists i :: 0 <= i < |parts| && NameOf(parts[i]) == name && r.value == ValueOf(parts[i])
        && (forall j :: 0 <= j < i ==> NameOf(parts[j]) != name)
  {
    if parts == [] then None
    else if NameOf(parts[0]) == name then Some(ValueOf(parts[0]))
    else
      var r := FirstValue(parts[1..], name);
      assert forall i :: 1 <= i < |parts| ==> parts[i] == parts[1..][i - 1];
      r
  }

  function SecretParam(target: string): Option<string>
  {
    FirstValue(Split(QueryOf(target), '&'), SecretName)
  }

  /** The target of a registration's URL yields its key back. */
  lemma SecretParamOfTarget(key: string)
    requires IsKey(key)
    ensures SecretParam(RequestTarget(key)) == Some(key)
  {
    var target := RequestTarget(key);
    assert target == "/?secret=" + key;
    assert forall i :: 9 <= i < |target| ==> target[i] == key[i - 9];
    assert '#' !in target;
    assert target[..IndexOf(target, '#')] == target;
    assert IndexOf(target, '?') == 1;
    var q := target[2..];
    assert q == "secret=" + key;
    assert '&' !in q;
    SplitNoSeparator(q, '&');
    assert q[6] == '=' && q[..6] == SecretName;
    assert IndexOf(q, '=') == 6;
    assert NameOf(q) == SecretName && ValueOf(q) == key;
  }

  // ---------------------------------------------------------------------
  // the request decision

  datatype Response = Response(status: int, body: string)

  /** `httpListener`: no key or an empty one is a bad request, an unknown key
      is not found, and a known key is answered with its secret. */
  function Respond(registry: map<string, string>, key: Option<string>): (r: Response)
    ensures r.status == 400 <==> key.None? || key.value == ""
    ensures r.status == 404 <==> key.Some? && key.value != "" && key.value !in registry
    ensures r.status == 200 <==> key.Some? && key.value != "" && key.value in registry
    ensures r.status == 200 ==> r.body == registry[key.value]
    ensures r.status != 200 ==> r.body == ""
  {
    if key.None? || key.value == "" then Response(400, "")
    else if key.value !in registry then Response(404, "")
    else Response(200, registry[key.value])
  }

  class SecretService {
    /** Whether `server` was ever assigned; nothing resets it. */
    var serverCreated: bool
    var listening: bool
    var serverPort: int
    var registry: map<string, string>

    constructor ()
      ensures !serverCreated && !listening && serverPort == 0 && registry == map[]
    {
      serverCreated := false;
      listening := false;
      serverPort := 0;
      registry := map[];
    }

    /** `start`: a no-op once a server exists; otherwise creates one and
        listens on the port. */
    method Start(port: int)
      modifies this
      ensures old(serverCreated) ==> unchanged(this)
      ensures !old(serverCreated) ==>
        serverCreated && listening && serverPort == port && registry == old(registry)
    {
      if serverCreated {
        return;
      }
      serverCreated := true;
      serverPort := port;
      listening := true;
    }

    /** `stop`: nothing without a server; otherwise clears the registry and
        closes the server, which fails when it was already closed. */
    method Stop() returns (r: Result<Unit>)
      modifies this
      ensures !old(serverCreated) ==> r == Ok(Unit) && unchanged(this)
      ensures old(serverCreated) ==>
        registry == map[] && serverCreated && !listening && serverPort == old(serverPort)
      ensures old(serverCreated) && old(listening) ==> r == Ok(Unit)
      ensures old(serverCreated) && !old(listening) ==> r == Err(ServerNotRunning)
    {
      if !serverCreated {
        return Ok(Unit);
      }
      ClearAll();
      if !listening {
        return Err(ServerNotRunning);
      }
      listening := false;
      r := Ok(Unit);
    }

    /** `registerSecret`: maps the key to the secret and hands out the URL
        on the current port and the curl command fetching it. */
    method RegisterSecret(secret: string, key: string) returns (reg: Registration)
      requires IsKey(key)
      modifies this`registry
      ensures registry == old(registry)[key := secret]
      ensures reg.key == key && reg.url == SecretUrl(serverPort, key) && reg.command == CurlCommand(reg.url)
    {
      registry := registry[key := secret];
      var url := SecretUrl(serverPort, key);
      reg := Registration(key, url, CurlCommand(url));
    }

    /** The registration's `unregister`: drops its own key only. */
    method Unregister(reg: Registration)
      modifies this`registry
      ensures registry == old(registry) - {reg.key}
    {
      registry := registry - {reg.key};
    }

    /** `clearAll`. */
    method ClearAll()
      modifies this`registry
      ensures registry == map[]
    {
      registry := map[];
    }

    /** A request to the server: answered from the registry, which it does
        not change. */
    method HandleRequest(target: string) returns (r: Response)
      ensures r == Respond(registry, SecretParam(target))
    {
      r := Respond(registry, SecretParam(target));
    }
  }

  /** A registered secret is served as often as it is asked for, until its
      registration is dropped; dropping it leaves other registrations
      served. */
  method ServedUntilUnregistered(s: SecretService, secret: string, key: string, other: string)
    returns (first: Response, again: Response, after: Response, otherAfter: Response)
    requires IsKey(key) && IsKey(other) && key != other && other in s.registry
    modifies s
    ensures first == Response(200, secret) && again == Response(200, secret)
    ensures after == Response(404, "")
    ensures otherAfter == Response(200, old(s.registry[other]))
  {
    var reg := s.RegisterSecret(secret, key);
    SecretParamOfTarget(key);
    first := s.HandleRequest(RequestTarget(key));
    again := s.HandleRequest(RequestTarget(key));
    s.Unregister(reg);
    after := s.HandleRequest(RequestTarget(key));
    SecretParamOfTarget(other);
    otherAfter := s.HandleRequest(RequestTarget(other));
  }

  /** Once stopped, the server stays down: `start` sees the old server and
      does nothing, and a second `stop` fails. */
  method StopIsFinal(s: SecretService, port: int) returns (second: Result<Unit>)
    requires !s.serverCreated
    modifies s
    ensures !s.listening && s.registry == map[]
    ensures second == Err(ServerNotRunning)
  {
    s.Start(DefaultPort);
    var first := s.Stop();
    s.Start(port);
    second := s.Stop();
  }
}
