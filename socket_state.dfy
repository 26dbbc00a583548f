/** The mode state of an `asio_tcp_socket` as a value, and what every public
    operation does to it. The class in AsioTcp is proved against these functions;
    the lemmas here state what holds over any sequence of operations. */
module SocketState {

  import opened Optional

  /** Opaque handle to a shared `boost::asio::ssl::context`. */
  datatype TlsContext = TlsContext(id: nat)

  /** A TLS stream object: the context it was created over, and a serial number
      standing for the identity of that allocation (a TLS session lives in it). */
  datatype Stream = Stream(ctx: TlsContext, serial: nat)

  /** Which object an I/O call was handed to: the TLS stream or the raw socket. */
  datatype Path = Tls | Plain

  /** The role passed to the TLS stream's handshake. */
  datatype Role = Client | Server

  /** `use_tls_`, `ssl_stream_` (None while the unique_ptr is null), `ssl_ctx_`,
      and how many streams this socket has created so far. */
  datatype State = State(useTls: bool, stream: Option<Stream>, ctx: Option<TlsContext>, created: nat)

  /** The state a freshly constructed socket is in. */
  const Initial: State := State(false, None, None, 0)

  /** The guard `use_tls_ && ssl_stream_` shared by I/O routing and the handshakes. */
  predicate TlsReady(s: State) {
    s.useTls && s.stream.Some?
  }

  /** The path taken by `async_receive` and both `async_write` overloads. */
  function Route(s: State): (p: Path)
    ensures p == Tls <==> TlsReady(s)
  {
    if TlsReady(s) then Tls else Plain
  }

  /** Every stream the socket holds was created by it, and TLS mode is on exactly
      when a stream exists. */
  predicate Consistent(s: State) {
    (s.useTls <==> s.stream.Some?) && (s.stream.Some? ==> s.stream.value.serial < s.created)
  }

  /** How `set_tls_context` ends: it returns a boolean, or the creation of the
      TLS stream throws (allocation failure, or the stream constructor failing). */
  datatype SetOutcome = Returned(ok: bool) | Threw

  /** `set_tls_context`: the context is stored first; a null context is refused;
      otherwise a new stream is created over it (unless that creation throws) and
      TLS mode is switched on. `creationThrows` is the library's answer. */
  function SetTlsContext(s: State, c: Option<TlsContext>, creationThrows: bool): (r: (State, SetOutcome))
    ensures r.0.ctx == c
    ensures r.1 == Returned(false) <==> c.None?
    ensures r.1 == Threw <==> c.Some? && creationThrows
    ensures r.1 != Returned(true) ==>
              r.0.useTls == s.useTls && r.0.stream == s.stream && r.0.created == s.created
    ensures r.1 == Returned(true) ==>
              TlsReady(r.0) && r.0.stream == Some(Stream(c.value, s.created)) && r.0.created == s.created + 1
    ensures Consistent(s) ==> Consistent(r.0)
    ensures Consistent(s) && r.1 == Returned(true) ==> r.0.stream != s.stream
  {
    if c.None? then (s.(ctx := None), Returned(false))
    else if creationThrows then (s.(ctx := c), Threw)
    else (State(true, Some(Stream(c.value, s.created)), c, s.created + 1), Returned(true))
  }

  /** Outcome of a handshake call: the role handed to the TLS stream (None when
      no handshake is attempted) and the boolean returned. `ec` is the error
      code value the library reports; zero means success. */
  datatype HandshakeOutcome = HandshakeOutcome(attempted: Option<Role>, ok: bool)

  function Handshake(s: State, role: Role, ec: int): (o: HandshakeOutcome)
    ensures o.attempted.None? <==> !TlsReady(s)
    ensures o.attempted.Some? ==> o.attempted.value == role
    ensures o.ok <==> TlsReady(s) && ec == 0
  {
    if !TlsReady(s) then HandshakeOutcome(None, false)
    else HandshakeOutcome(Some(role), ec == 0)
  }

  /** A call on the socket's public interface, with the library's answer where the
      call depends on one. */
  datatype Op =
    | SetContext(c: Option<TlsContext>, creationThrows: bool)
    | HandshakeClient(ec: int)
    | HandshakeServer(ec: int)
    | Receive
    | WriteBuffers
    | WriteWithCondition

  /** A `set_tls_context` call that returns true. */
  predicate Installs(op: Op) {
    op.SetContext? && op.c.Some? && !op.creationThrows
  }

  predicate Throws(op: Op) {
    op.SetContext? && op.c.Some? && op.creationThrows
  }

  /** The state after one operation: only `set_tls_context` writes the fields. */
  function Apply(s: State, op: Op): State {
    match op
    case SetContext(c, t) => SetTlsContext(s, c, t).0
    case _ => s
  }

  function Run(s: State, ops: seq<Op>): State
    decreases |ops|
  {
    if ops == [] then s else Run(Apply(s, ops[0]), ops[1..])
  }

  lemma InitialIsPlain()
    ensures !Initial.useTls && Initial.stream.None? && Initial.ctx.None?
    ensures Consistent(Initial) && Route(Initial) == Plain
  {
  }

  lemma {:induction false} ConsistentPreserved(s: State, ops: seq<Op>)
    requires Consistent(s)
    ensures Consistent(Run(s, ops))
    decreases |ops|
  {
    if ops != [] {
      ConsistentPreserved(Apply(s, ops[0]), ops[1..]);
    }
  }

  /** A non-null context is the one the current stream was created over. */
  predicate ContextMatchesStream(s: State) {
    s.ctx.Some? ==> s.stream.Some? && s.stream.value.ctx == s.ctx.value
  }

  /** As long as no stream creation throws, the stored context and the stream agree. */
  lemma {:induction false} ContextMatchesWithoutThrow(s: State, ops: seq<Op>)
    requires ContextMatchesStream(s)
    requires forall i :: 0 <= i < |ops| ==> !Throws(ops[i])
    ensures ContextMatchesStream(Run(s, ops))
    decreases |ops|
  {
    if ops != [] {
      assert !Throws(ops[0]);
      var t := Apply(s, ops[0]);
      assert ContextMatchesStream(t);
      forall i | 0 <= i < |ops[1..]|
        ensures !Throws(ops[1..][i])
      {
        assert ops[1..][i] == ops[i + 1];
      }
      ContextMatchesWithoutThrow(t, ops[1..]);
    }
  }

  /** When stream creation throws on a plain socket, the new context is stored
      but no stream exists, so I/O still goes to the raw socket. */
  lemma ThrowLeavesContextWithoutStream(c: TlsContext)
    ensures var t := Apply(Initial, SetContext(Some(c), true));
      t.ctx == Some(c) && t.stream.None? && !ContextMatchesStream(t) && Route(t) == Plain
  {
  }

  /** No operation ever switches `use_tls_` back off. */
  lemma {:induction false} TlsNeverReverts(s: State, ops: seq<Op>)
    requires s.useTls
    ensures Run(s, ops).useTls
    decreases |ops|
  {
    if ops != [] {
      TlsNeverReverts(Apply(s, ops[0]), ops[1..]);
    }
  }

  /** TLS mode is on after a run exactly when it was on before or the run
      contains a `set_tls_context` that returned true. */
  lemma {:induction false} TlsIffInstalled(s: State, ops: seq<Op>)
    ensures Run(s, ops).useTls <==> s.useTls || exists i :: 0 <= i < |ops| && Installs(ops[i])
    decreases |ops|
  {
    if ops != [] {
      var t := Apply(s, ops[0]);
      TlsIffInstalled(t, ops[1..]);
      if exists i :: 0 <= i < |ops| && Installs(ops[i]) {
        var i :| 0 <= i < |ops| && Installs(ops[i]);
        if i > 0 {
          assert Installs(ops[1..][i - 1]);
        }
      }
      if exists j :: 0 <= j < |ops[1..]| && Installs(ops[1..][j]) {
        var j :| 0 <= j < |ops[1..]| && Installs(ops[1..][j]);
        assert Installs(ops[j + 1]);
      }
    }
  }

  /** From construction, I/O goes through the TLS stream, and a handshake is
      attempted, exactly when some earlier `set_tls_context` returned true. */
  lemma RoutingFromConstruction(ops: seq<Op>, role: Role, ec: int)
    ensures Route(Run(Initial, ops)) == Tls <==> exists i :: 0 <= i < |ops| && Installs(ops[i])
    ensures Handshake(Run(Initial, ops), role, ec).attempted.Some? <==>
              exists i :: 0 <= i < |ops| && Installs(ops[i])
  {
    ConsistentPreserved(Initial, ops);
    TlsIffInstalled(Initial, ops);
  }

  /** The value of `ssl_ctx_` after a run is the argument of the last
      `set_tls_context` in it, or the old value if there was none. */
  function LastContext(c0: Option<TlsContext>, ops: seq<Op>): Option<TlsContext>
    decreases |ops|
  {
    if ops == [] then c0
    else if ops[|ops| - 1].SetContext? then ops[|ops| - 1].c
    else LastContext(c0, ops[..|ops| - 1])
  }

  lemma {:induction false} RunSplit(s: State, ops: seq<Op>)
    requires ops != []
    ensures Run(s, ops) == Apply(Run(s, ops[..|ops| - 1]), ops[|ops| - 1])
    decreases |ops|
  {
    if |ops| > 1 {
      RunSplit(Apply(s, ops[0]), ops[1..]);
      assert ops[1..][..|ops[1..]| - 1] == ops[..|ops| - 1][1..];
    }
  }

  lemma {:induction false} ContextIsLastSet(s: State, ops: seq<Op>)
    ensures Run(s, ops).ctx == LastContext(s.ctx, ops)
    decreases |ops|
  {
    if ops != [] {
      RunSplit(s, ops);
      ContextIsLastSet(s, ops[..|ops| - 1]);
    }
  }

  /** A null `set_tls_context` after a successful one nulls the context but
      leaves TLS mode, the stream, and hence TLS routing and handshakes, in place. */
  lemma FailedSetKeepsTls(s: State, c: TlsContext)
    ensures var t := Run(s, [SetContext(Some(c), false), SetContext(None, false)]);
      t.useTls && t.stream == Some(Stream(c, s.created)) && t.ctx.None? && Route(t) == Tls
  {
    var ops := [SetContext(Some(c), false), SetContext(None, false)];
    var u := Apply(s, ops[0]);
    assert ops[1..] == [SetContext(None, false)];
    assert Run(u, [SetContext(None, false)]) == Run(Apply(u, SetContext(None, false)), []);
  }
}
