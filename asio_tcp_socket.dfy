/** The Boost.Asio implementation of the transport's TCP socket and acceptor.
    Library calls are not executed here: each method returns the call it hands to
    the library, and the library's answers (handshake error codes, syscall return
    values) are parameters. */
module AsioTcp {

  import opened Optional
  import opened SocketState

  /** `unsigned int` and `socklen_t`: 32-bit unsigned. */
  const U32_RANGE: nat := 0x1_0000_0000
  type U32 = x: int | 0 <= x < U32_RANGE

  type Buffer = seq<bv8>

  /** Opaque identity of the raw `boost::asio::ip::tcp::socket` member. */
  datatype RawSocket = RawSocket(id: nat)

  /** Opaque completion condition of the composed write. */
  datatype CompletionCondition = CompletionCondition(id: nat)

  /** An asynchronous I/O request and the object it is handed to. */
  datatype IoKind =
    | ReadSome(buffer: Buffer)
    | WriteAll(buffers: seq<Buffer>)
    | WriteUntil(buffer: Buffer, condition: CompletionCondition)
  datatype IoCall = IoCall(target: Path, kind: IoKind)

  /** The descriptor an option-setting call targets: a socket's or an acceptor's. */
  datatype Handle = SocketHandle(socket: RawSocket) | AcceptorHandle(acceptor: nat)

  /** The option-setting system calls, with the descriptor and arguments they carry. */
  datatype OptLevel = IpProtoTcp | SolSocket | IpProtoIp
  datatype OptName = TcpUserTimeout | SoBindToDevice | IpFreeBind
  datatype OptValue = UnsignedValue(u: U32) | DeviceName(name: seq<bv8>, len: U32) | IntValue(i: int)
  datatype Syscall =
    | SetSockOpt(fd: Handle, level: OptLevel, name: OptName, value: OptValue)
    | FcntlGetFd(fd: Handle)

  class AsioTcpSocket {
    const socket: RawSocket
    var useTls: bool
    var stream: Option<Stream>
    var ctx: Option<TlsContext>
    var created: nat

    function Mode(): State
      reads this
    {
      State(useTls, stream, ctx, created)
    }

    constructor (socket: RawSocket)
      ensures this.socket == socket
      ensures !useTls && stream.None? && ctx.None?
      ensures Mode() == Initial
    {
      this.socket := socket;
      useTls, stream, ctx, created := false, None, None, 0;
    }

    /** Installs a TLS context. A null context is refused but still overwrites
        the stored context; a second call is not refused and replaces the stream
        by a new one. `creationThrows` says whether creating the stream throws. */
    method SetTlsContext(c: Option<TlsContext>, creationThrows: bool) returns (outcome: SetOutcome)
      modifies this`useTls, this`stream, this`ctx, this`created
      ensures (Mode(), outcome) == SocketState.SetTlsContext(old(Mode()), c, creationThrows)
      ensures ctx == c
      ensures outcome == Returned(false) <==> c.None?
      ensures outcome == Threw <==> c.Some? && creationThrows
      ensures outcome != Returned(true) ==> useTls == old(useTls) && stream == old(stream)
      ensures outcome == Returned(true) ==>
                useTls && stream == Some(Stream(c.value, old(created))) && created == old(created) + 1
      ensures Consistent(old(Mode())) && outcome == Returned(true) ==> stream != old(stream)
      ensures old(useTls) ==> useTls
    {
      ctx := c;
      if ctx.None? {
        return Returned(false);
      }
      if creationThrows {
        return Threw;
      }
      stream := Some(Stream(c.value, created));
      created := created + 1;
      useTls := true;
      outcome := Returned(true);
    }

    method HandshakeClient(ec: int) returns (ok: bool, attempted: Option<Role>)
      ensures attempted.None? <==> !(useTls && stream.Some?)
      ensures attempted.Some? ==> attempted.value == Client
      ensures ok <==> attempted.Some? && ec == 0
      ensures HandshakeOutcome(attempted, ok) == Handshake(Mode(), Client, ec)
    {
      if !useTls || stream.None? {
        return false, None;
      }
      attempted := Some(Client);
      ok := ec == 0;
    }

    method HandshakeServer(ec: int) returns (ok: bool, attempted: Option<Role>)
      ensures attempted.None? <==> !(useTls && stream.Some?)
      ensures attempted.Some? ==> attempted.value == Server
      ensures ok <==> attempted.Some? && ec == 0
      ensures HandshakeOutcome(attempted, ok) == Handshake(Mode(), Server, ec)
    {
      if !useTls || stream.None? {
        return false, None;
      }
      attempted := Some(Server);
      ok := ec == 0;
    }

    method AsyncReceive(buffer: Buffer) returns (call: IoCall)
      ensures call.target == Tls <==> useTls && stream.Some?
      ensures call.target == Route(Mode())
      ensures call.kind == ReadSome(buffer)
    {
      if useTls && stream.Some? {
        call := IoCall(Tls, ReadSome(buffer));
      } else {
        call := IoCall(Plain, ReadSome(buffer));
      }
    }

    method AsyncWrite(buffers: seq<Buffer>) returns (call: IoCall)
      ensures call.target == Tls <==> useTls && stream.Some?
      ensures call.target == Route(Mode())
      ensures call.kind == WriteAll(buffers)
    {
      if useTls && stream.Some? {
        call := IoCall(Tls, WriteAll(buffers));
      } else {
        call := IoCall(Plain, WriteAll(buffers));
      }
    }

    method AsyncWriteWithCondition(buffer: Buffer, cc: CompletionCondition) returns (call: IoCall)
      ensures call.target == Tls <==> useTls && stream.Some?
      ensures call.target == Route(Mode())
      ensures call.kind == WriteUntil(buffer, cc)
    {
      if useTls && stream.Some? {
        call := IoCall(Tls, WriteUntil(buffer, cc));
      } else {
        call := IoCall(Plain, WriteUntil(buffer, cc));
      }
    }

    /** `ret` is what setsockopt returned. */
    method SetUserTimeout(timeout: U32, ret: int) returns (ok: bool, call: Syscall)
      ensures call == SetSockOpt(SocketHandle(socket), IpProtoTcp, TcpUserTimeout, UnsignedValue(timeout))
      ensures ok <==> ret != -1
    {
      call := SetSockOpt(SocketHandle(socket), IpProtoTcp, TcpUserTimeout, UnsignedValue(timeout));
      ok := ret != -1;
    }

    /** The device name's bytes are passed without their terminator; the byte
        count is cast to `socklen_t`. `ret` is what setsockopt returned. */
    method BindToDevice(device: seq<bv8>, ret: int) returns (ok: bool, call: Syscall)
      ensures call.SetSockOpt? && call.fd == SocketHandle(socket)
      ensures call.level == SolSocket && call.name == SoBindToDevice
      ensures call.value == DeviceName(device, |device| % U32_RANGE)
      ensures |device| < U32_RANGE ==> call.value.len == |device|
      ensures ok <==> ret != -1
    {
      call := SetSockOpt(SocketHandle(socket), SolSocket, SoBindToDevice, DeviceName(device, |device| % U32_RANGE));
      ok := ret != -1;
    }

    /** `ret` is what fcntl(F_GETFD) returned. */
    method CanReadFdFlags(ret: int) returns (ok: bool, call: Syscall)
      ensures call == FcntlGetFd(SocketHandle(socket))
      ensures ok <==> ret != -1
    {
      call := FcntlGetFd(SocketHandle(socket));
      ok := ret != -1;
    }
  }

  /** The argument of `async_accept`: a socket of this family, or one of any
      other concrete family. */
  datatype SocketRef = Asio(sock: AsioTcpSocket) | OtherFamily

  datatype ErrorCondition = InvalidArgument

  class AsioTcpAcceptor {
    /** Opaque identity of the `boost::asio::ip::tcp::acceptor` member. */
    const acceptor: nat

    constructor (acceptor: nat)
      ensures this.acceptor == acceptor
    {
      this.acceptor := acceptor;
    }

    /** `immediate` lists the completions delivered directly to the handler;
        `accepted` the raw socket handed to the library's accept, if any. */
    method AsyncAccept(target: SocketRef) returns (immediate: seq<ErrorCondition>, accepted: Option<RawSocket>)
      ensures target.OtherFamily? ==> immediate == [InvalidArgument] && accepted.None?
      ensures target.Asio? ==> immediate == [] && accepted == Some(target.sock.socket)
      ensures |immediate| + (if accepted.Some? then 1 else 0) == 1
    {
      if target.OtherFamily? {
        immediate, accepted := [InvalidArgument], None;
        return;
      }
      immediate, accepted := [], Some(target.sock.socket);
    }

    /** `ret` is what setsockopt returned; unlike the socket's setters this one
        succeeds only on exactly 0. */
    method SetNativeOptionFreeBind(ret: int) returns (ok: bool, call: Syscall)
      ensures call == SetSockOpt(AcceptorHandle(acceptor), IpProtoIp, IpFreeBind, IntValue(1))
      ensures ok <==> ret == 0
    {
      call := SetSockOpt(AcceptorHandle(acceptor), IpProtoIp, IpFreeBind, IntValue(1));
      ok := ret == 0;
    }
  }
}
