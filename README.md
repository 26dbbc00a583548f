# TCP transport core of vsomeip with TLS: a Dafny model

This project models two small pieces of state logic in the vsomeip transport layer.

1. `asio_tcp_socket`: the Boost.Asio TCP socket and how it switches between plain and TLS mode. The socket
   keeps three fields: `use_tls_`, the TLS stream `ssl_stream_`, and the shared context `ssl_ctx_`.
   `set_tls_context` writes them. `async_receive` and both `async_write` overloads read them to pick
   between the TLS stream and the raw socket. `handshake_client` and `handshake_server` read them too.
   The model also covers `asio_tcp_acceptor::async_accept` (the check on the socket's family) and the
   option setters, which turn a syscall's return value into a boolean.
2. `bench_internal`: the internal benchmark probe. `enabled()` caches a tri-state flag (`-1` unset, `0`,
   `1`) read once from `VSOMEIP_BENCH_INTERNAL`. `scope_timer` and `log_event` append one record to the
   log, or none, depending on that flag.

Layout:

- `optional.dfy`: module `Optional`, the option type used for null pointers and absent variables.
- `socket_state.dfy`: module `SocketState`, the socket's mode state as a value (`State`). It has pure
  functions for `set_tls_context`, routing and handshakes, and a trace semantics (`Run`) over any
  sequence of socket calls. The lemmas state what holds over every such sequence.
- `asio_tcp_socket.dfy`: module `AsioTcp`, the classes `AsioTcpSocket` and `AsioTcpAcceptor`.
  `SetTlsContext` changes fields under `modifies`, and its postcondition links the new state to
  `SocketState.SetTlsContext`. The I/O and handshake methods change nothing. Each returns the one
  library call it makes: the target (`Tls` or `Plain`) and the request it forwards.
- `instrumentation.dfy`: module `Instrumentation`. The class `BenchProbe` holds the `enabled()` cache
  and the log. The class `ScopeTimer` models the constructor and the destructor. A trace semantics
  (`RunProbe`) covers any sequence of timer constructions, timer destructions and events, nested or interleaved.
  It is built from the same step functions (`OpenTimer`, `CloseTimer`, `EventStep`) that the class methods
  are proved against, and it gives the record lemmas.

Inputs from outside the model:

- The handshake's error-code value. Zero means success.
- Whether creating the TLS stream throws.
- The return values of `setsockopt` and `fcntl`.
- The environment at each `getenv` call, as a map.
- Clock readings (`now_ns`).
- Which concrete family the socket passed to `async_accept` belongs to.

Behaviour of the code worth knowing, which the model states as it is:

- TLS mode starts at `set_tls_context`, not at a handshake. A call with a non-null context that returns
  true sets `use_tls_` at once. From then on all I/O goes through the TLS stream, even before any handshake.
  Handshakes and I/O have no `modifies` clause in the model (`AsioTcp.AsioTcpSocket.HandshakeClient`,
  `AsioTcp.AsioTcpSocket.HandshakeServer`), so a failed handshake leaves TLS mode on.
- A second `set_tls_context` is not refused. Each successful call destroys the current stream and creates
  a new one, which drops any TLS session the old stream had. In the model, each stream carries a serial
  number standing for its identity, and the new stream always differs from the old one.
- A later call with a null context returns false. It nulls the stored context but keeps TLS mode and the
  stream (`SocketState.FailedSetKeepsTls`, `SocketState.ContextIsLastSet`).
- `ssl_ctx_` is assigned before the stream is created. If creating the stream throws, the new context stays
  stored while the stream and TLS mode keep their old values (`SocketState.ThrowLeavesContextWithoutStream`).

## Model

| member | source | states |
|---|---|---|
| `AsioTcp.AsioTcpSocket.constructor` | implementation/endpoints/include/asio_tcp_socket.hpp:23-24 | a new socket is in plain mode: `use_tls_` false, no stream, no context |
| `SocketState.InitialIsPlain` | implementation/endpoints/include/asio_tcp_socket.hpp:23-24 | the initial state is consistent and routes I/O to the raw socket |
| `AsioTcp.AsioTcpSocket.SetTlsContext` | implementation/endpoints/include/asio_tcp_socket.hpp:79-85 | always stores the argument as the context; with null it returns false and leaves TLS mode and stream alone; if creating the stream throws, the new context stays stored and the rest is unchanged; otherwise it returns true, replaces the stream by a new one (distinct from the old) over that context and turns TLS mode on; TLS mode never turns off; the new state is `SocketState.SetTlsContext` of the old one |
| `SocketState.SetTlsContext` | implementation/endpoints/include/asio_tcp_socket.hpp:79-85 | the context is overwritten in every outcome; false iff the context is null; a throw iff stream creation fails on a non-null context; on success the socket is TLS-ready with a newly created stream over that context, different from the previous one; consistency is preserved |
| `SocketState.Route` | implementation/endpoints/include/asio_tcp_socket.hpp:57-77 | I/O goes to the TLS stream iff `use_tls_ && ssl_stream_`, otherwise to the raw socket |
| `SocketState.Handshake` | implementation/endpoints/include/asio_tcp_socket.hpp:86-97 | no handshake is attempted unless TLS mode is on and a stream exists; an attempt uses the requested role; the result is true iff the attempt reports error code zero |
| `AsioTcp.AsioTcpSocket.HandshakeClient` | implementation/endpoints/include/asio_tcp_socket.hpp:86-91 | returns false without attempting unless TLS-ready; otherwise attempts in the client role and returns true iff the error code is zero; the mode state is unchanged |
| `AsioTcp.AsioTcpSocket.HandshakeServer` | implementation/endpoints/include/asio_tcp_socket.hpp:92-97 | the same in the server role |
| `AsioTcp.AsioTcpSocket.AsyncReceive` | implementation/endpoints/include/asio_tcp_socket.hpp:57-63 | makes exactly one read call, with the caller's buffer, on the TLS stream iff `use_tls_ && ssl_stream_`, otherwise on the raw socket; the mode state is unchanged |
| `AsioTcp.AsioTcpSocket.AsyncWrite` | implementation/endpoints/include/asio_tcp_socket.hpp:64-70 | makes exactly one composed write of the caller's buffer sequence, to the TLS stream iff TLS-ready, otherwise to the raw socket |
| `AsioTcp.AsioTcpSocket.AsyncWriteWithCondition` | implementation/endpoints/include/asio_tcp_socket.hpp:71-77 | makes exactly one composed write of the buffer with the caller's completion condition, routed the same way |
| `AsioTcp.AsioTcpSocket.SetUserTimeout` | implementation/endpoints/include/asio_tcp_socket.hpp:41-43 | sets `IPPROTO_TCP`/`TCP_USER_TIMEOUT` on this socket's descriptor to the timeout; true iff setsockopt did not return -1 |
| `AsioTcp.AsioTcpSocket.BindToDevice` | implementation/endpoints/include/asio_tcp_socket.hpp:46-49 | sets `SOL_SOCKET`/`SO_BINDTODEVICE` on this socket's descriptor to the device name's bytes, with the byte count cast to `socklen_t`; true iff setsockopt did not return -1 |
| `AsioTcp.AsioTcpSocket.CanReadFdFlags` | implementation/endpoints/include/asio_tcp_socket.hpp:50 | issues `fcntl(F_GETFD)` on this socket's descriptor; true iff it did not return -1 |
| `AsioTcp.AsioTcpAcceptor.constructor` | implementation/endpoints/include/asio_tcp_socket.hpp:109 | the acceptor wraps the given library acceptor |
| `AsioTcp.AsioTcpAcceptor.AsyncAccept` | implementation/endpoints/include/asio_tcp_socket.hpp:131-138 | a socket of another family gets exactly one immediate `invalid_argument` completion and the acceptor is not called; an `asio_tcp_socket` gets no immediate completion, and its inner raw socket is handed to the acceptor; exactly one of the two happens |
| `AsioTcp.AsioTcpAcceptor.SetNativeOptionFreeBind` | implementation/endpoints/include/asio_tcp_socket.hpp:125-128 | sets `IPPROTO_IP`/`IP_FREEBIND` on the acceptor's descriptor to 1; true iff setsockopt returned exactly 0 |
| `SocketState.ConsistentPreserved` | implementation/endpoints/include/asio_tcp_socket.hpp:79-104 | over any sequence of calls, TLS mode is on iff a stream exists, and every stream was created by this socket |
| `SocketState.ContextMatchesWithoutThrow` | implementation/endpoints/include/asio_tcp_socket.hpp:79-85 | over any sequence of calls in which no stream creation throws, a non-null context is the one the current stream was created over |
| `SocketState.ThrowLeavesContextWithoutStream` | implementation/endpoints/include/asio_tcp_socket.hpp:80-82 | when stream creation throws on a plain socket, the new context is stored without a stream, and I/O stays on the raw socket |
| `SocketState.TlsNeverReverts` | implementation/endpoints/include/asio_tcp_socket.hpp:79-104 | once `use_tls_` is true, no sequence of calls makes it false |
| `SocketState.TlsIffInstalled` | implementation/endpoints/include/asio_tcp_socket.hpp:79-85 | after a sequence of calls, TLS mode is on iff it was on before or some `set_tls_context` returned true |
| `SocketState.RoutingFromConstruction` | implementation/endpoints/include/asio_tcp_socket.hpp:57-97 | from construction, I/O uses the TLS stream, and handshakes are attempted, iff some earlier `set_tls_context` returned true |
| `SocketState.ContextIsLastSet` | implementation/endpoints/include/asio_tcp_socket.hpp:79-81 | after a sequence of calls, `ssl_ctx_` holds the argument of the last `set_tls_context`, null included |
| `SocketState.FailedSetKeepsTls` | implementation/endpoints/include/asio_tcp_socket.hpp:79-85 | a null `set_tls_context` after a successful one nulls the context but keeps TLS mode, the stream and TLS routing |
| `Instrumentation.FlagFromEnv` | implementation/utility/include/instrumentation.hpp:16-17 | the stored flag is 0 or 1, and it is 1 iff `VSOMEIP_BENCH_INTERNAL` is present and exactly "1" |
| `Instrumentation.BenchProbe.constructor` | implementation/utility/include/instrumentation.hpp:14 | the cache starts unset (-1) and the log starts empty |
| `Instrumentation.BenchProbe.Enabled` | implementation/utility/include/instrumentation.hpp:13-20 | reads the environment only when the cache is unset; a set cache is never changed; returns true iff the cache holds 1 |
| `Instrumentation.SetCacheIsStable` | implementation/utility/include/instrumentation.hpp:13-20 | once the cache is set, any further calls, in any environments, keep it and all return the same answer |
| `Instrumentation.FirstReadWins` | implementation/utility/include/instrumentation.hpp:13-20 | over any series of calls, the cache and every answer are decided by the environment at the first call |
| `Instrumentation.Elapsed` | implementation/utility/include/instrumentation.hpp:35 | unsigned 64-bit subtraction: the plain difference when the clock has not gone backwards, wrapped by 2^64 otherwise |
| `Instrumentation.ScopeTimer.constructor` | implementation/utility/include/instrumentation.hpp:31-32 | consults `enabled()`; the start time is the clock reading when enabled and 0 otherwise; the byte count defaults to 0; the effect is `OpenTimer` |
| `Instrumentation.ScopeTimer.Destroy` | implementation/utility/include/instrumentation.hpp:33-38 | appends exactly one record (name, now - start, bytes) when enabled and none otherwise; the cache is unchanged; with a monotonic clock the elapsed time is the plain difference of the two readings; the effect is `CloseTimer` |
| `Instrumentation.BenchProbe.LogEvent` | implementation/utility/include/instrumentation.hpp:41-45 | appends exactly one record carrying the given name, ns and bytes unchanged iff enabled; otherwise the log is untouched; the effect is `EventStep` |
| `Instrumentation.DisabledEmitsNothing` | implementation/utility/include/instrumentation.hpp:33-45 | with the flag at 0, no sequence of timer constructions, destructions and events writes any record |
| `Instrumentation.EnabledEmitsRecords` | implementation/utility/include/instrumentation.hpp:31-45 | with the flag at 1, any sequence of calls, nested or interleaved, appends exactly `Emitted`: one record per destroyed live timer, carrying the time since its opening clock reading, and one per event, in order |
| `Instrumentation.EmittedCount` | implementation/utility/include/instrumentation.hpp:33-45 | when every destructor belongs to a live timer, the number of records is the number of destroyed scopes plus the number of events |
| `Instrumentation.RecordsFromStart` | implementation/utility/include/instrumentation.hpp:13-45 | from process start, the log holds exactly `Emitted` if the first `enabled()` call, of whatever kind, read "1", and nothing otherwise; with well-nested scopes that is one record per scope and event |
| `Instrumentation.NestedScopeIsLoggedAfterInnerEvent` | implementation/utility/include/instrumentation.hpp:31-45 | a scope opened while the variable is "1" that encloses an event run after the variable is gone: the event is logged, then the scope with its elapsed time |

## Left out

- Boost.Asio and OpenSSL behaviour is not modelled. That covers asynchronous completion delivery, the bytes transferred, the
  TLS negotiation and the handler objects. Calls appear only as the target and request handed over, and library
  results appear only as input values.
- The one-line delegations are not modelled: `is_open`, `native_handle`, `open`, `bind`, `close`, `cancel`, `shutdown`,
  the `set_option` overloads, `local_endpoint`, `remote_endpoint`, `async_connect`, and the acceptor's `is_open`,
  `native_handle`, `open`, `bind`, `close`, `listen` and `set_option`. They forward to the library and hold no logic.
- Platform `#if` selection is not modelled. The setters are modelled as compiled on Linux. `tcp_socket.hpp`, which holds
  the base-class fallback for other platforms, is not part of this model.
- The model does not capture the lifetime of the shared context. When a null `set_tls_context` releases `ssl_ctx_`, the
  model does not say whether the existing stream keeps the old context alive.
- A thrown exception is modelled only as the `Threw` outcome of `set_tls_context`. How it propagates to the caller is
  not modelled.
- Clock values (`now_ns`) and the logger's text format are not modelled. Clock readings are inputs, and the log is a
  sequence of abstract records.
- Concurrency is not modelled. `enabled()` checks and stores its cache without synchronisation, so two threads making
  the first call race. The scheduling of handlers is not modelled either.
- The model does not enforce a single cache per process. `st` is a process-wide static, and the model stands it for
  with one `BenchProbe` object. Nothing stops a client of the model from making several probes with separate caches.
- The SSL example client and server and the SSL benchmark programs are application wiring and are not modelled.
