/**
 * The parts of the server configuration that the modelled code reads.
 * The configuration loader itself is not part of this model.
 */
module Config {
  import opened Types

  /** The HTTP protocol a listener serves. */
  datatype ServerProtocol = Http1 | Http2

  /** The kind of socket a connection was accepted on. */
  datatype ServerSocketType = Unix | Tcp

  /** Per-server settings used when serving a connection. */
  datatype ServerConfiguration = ServerConfiguration(
    serverProtocol: ServerProtocol,
    connectionMaxLifetime: Duration,
    connectionGracefulShutdownTimeout: Duration)
}
