/** Addresses, errors and the operating-system capabilities the connector uses.
    The OS-level operations are not modelled: each is an oracle, a function value
    supplied by the caller that says what the operation yields. */
module Net {
  import opened Wrappers

  /** A TCP port, the source's `u16`. */
  type Port = p: int | 0 <= p < 0x1_0000

  datatype IpAddr = V4(v4: bv32) | V6(v6: bv128)

  datatype SocketAddr = SocketAddr(ip: IpAddr, port: Port)

  /** Why a destination was refused before any I/O. */
  datatype InvalidUrl = MissingScheme | NotHttp | MissingAuthority

  /** `io::Error`: an `InvalidInput` error wrapping an `InvalidUrl`, or any error
      reported by the resolver or the operating system. */
  datatype IoError = InvalidInput(url: InvalidUrl) | Os(code: int)

  /** A connected TCP stream, known only by its identity. */
  datatype Socket = Socket(id: nat)

  /** What every dial of one connection attempt is given besides the address. */
  datatype DialOptions = DialOptions(localAddr: Option<IpAddr>, reuseAddress: bool)

  /** The dial capability.
      `connect(addr, opts)` is the synchronous socket set-up (build, bind, start the
      non-blocking connect): it fails or yields a connect future.
      `attempt(addr)` is what polling the connect future towards `addr` yields now. */
  datatype Network = Network(
    connect: (SocketAddr, DialOptions) -> Result<(), IoError>,
    attempt: SocketAddr -> Poll<Result<Socket, IoError>>)

  /** A dial towards `a` that fails: its set-up succeeds and its connect future
      completes with an error. */
  predicate Fails(net: Network, opts: DialOptions, a: SocketAddr)
  {
    net.connect(a, opts).Success? && net.attempt(a).Ready? && net.attempt(a).value.Failure?
  }
}
