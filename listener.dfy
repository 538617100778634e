/**
 * The configuration decisions of the listening socket: which port to bind
 * (`get_bind_addr`) and whether to wrap the socket in TLS (the
 * `cert_file`/`key_file` check of `get_socket`).
 */
module Listener {
  import opened Base

  /** The `bind_host`/`bind_port` options; `bind_port` has no default. */
  datatype BindOptions = BindOptions(bindHost: string, bindPort: Option<int>)

  datatype BindAddress = BindAddress(host: string, port: Option<int>)

  /** `(conf.bind_host, conf.bind_port or default_port)` */
  function GetBindAddr(conf: BindOptions, defaultPort: Option<int>): (r: BindAddress)
    ensures r.host == conf.bindHost
    ensures conf.bindPort.Some? && conf.bindPort.value != 0 ==> r.port == conf.bindPort
    ensures conf.bindPort.None? || conf.bindPort == Some(0) ==> r.port == defaultPort
  {
    match conf.bindPort
    case Some(p) => BindAddress(conf.bindHost, if p != 0 then Some(p) else defaultPort)
    case None => BindAddress(conf.bindHost, defaultPort)
  }

  /** Python truthiness of an optional path option: set and non-empty. */
  predicate IsSet(path: Option<string>) {
    path.Some? && path.value != ""
  }

  datatype ConfigError = CertAndKeyRequired

  /** The TLS decision of `get_socket`: `use_ssl = cert_file or key_file`,
      and an error when TLS is wanted but one of the two is missing.
      The boolean says whether the socket is wrapped. */
  function UseSsl(certFile: Option<string>, keyFile: Option<string>): (r: Result<bool, ConfigError>)
    ensures r.Failure? <==> IsSet(certFile) != IsSet(keyFile)
    ensures r == Success(true) <==> IsSet(certFile) && IsSet(keyFile)
    ensures r == Success(false) <==> !IsSet(certFile) && !IsSet(keyFile)
  {
    var useSsl := IsSet(certFile) || IsSet(keyFile);
    if useSsl && (!IsSet(certFile) || !IsSet(keyFile)) then Failure(CertAndKeyRequired)
    else Success(useSsl)
  }
}
