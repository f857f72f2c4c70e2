/**
 * The server-listener API: how a stored listener is presented (which protocols need
 * TLS material) and how an update request is validated and normalised before it is
 * written.
 */
module Listeners {
  import opened Wrappers
  import opened Api
  import Text

  type i32 = x: int | -0x8000_0000 <= x <= 0x7FFF_FFFF

  /** A listener row as the repository stores it. */
  datatype ServerListener = ServerListener(
    protocol: string,
    enabled: bool,
    bindAddress: string,
    port: i32,
    tlsCert: Option<string>,
    tlsKey: Option<string>)

  /** A listener as the API presents it: key material reduced to presence flags. */
  datatype ListenerResponse = ListenerResponse(
    protocol: string,
    enabled: bool,
    bindAddress: string,
    port: i32,
    hasTlsCert: bool,
    hasTlsKey: bool,
    requiresTls: bool,
    description: string)

  /** The protocols with a TLS layer. */
  predicate IsTlsProtocol(protocol: string) {
    protocol == "dot" || protocol == "doh" || protocol == "doq" || protocol == "doh3"
  }

  /** The table that `From<ServerListener>` consults: TLS requirement and description per protocol. */
  function ProtocolInfo(protocol: string): (bool, string) {
    match protocol
    case "udp" => (false, "标准 UDP DNS (端口 53)")
    case "dot" => (true, "DNS over TLS (端口 853)")
    case "doh" => (true, "DNS over HTTPS (端口 443)")
    case "doq" => (true, "DNS over QUIC (端口 853)")
    case "doh3" => (true, "DNS over HTTP/3 (端口 443)")
    case _ => (false, "未知协议")
  }

  /** `From<ServerListener> for ListenerResponse`. */
  function FromListener(l: ServerListener): (r: ListenerResponse)
    ensures r.protocol == l.protocol && r.enabled == l.enabled
    ensures r.bindAddress == l.bindAddress && r.port == l.port
    ensures r.hasTlsCert <==> l.tlsCert.Some?
    ensures r.hasTlsKey <==> l.tlsKey.Some?
    ensures r.requiresTls <==> IsTlsProtocol(l.protocol)
  {
    var (requiresTls, description) := ProtocolInfo(l.protocol);
    ListenerResponse(l.protocol, l.enabled, l.bindAddress, l.port,
                     l.tlsCert.Some?, l.tlsKey.Some?, requiresTls, description)
  }

  /** UDP and unknown protocols need no TLS; the four encrypted transports do. */
  lemma RequiresTlsTable(protocol: string)
    ensures ProtocolInfo(protocol).0 <==> IsTlsProtocol(protocol)
    ensures protocol == "udp" ==> !ProtocolInfo(protocol).0
    ensures ProtocolInfo(protocol).1 == "未知协议" <==>
      !(protocol == "udp" || IsTlsProtocol(protocol))
  {
  }

  /** The fields a client may change; a missing field stays as stored. */
  datatype UpdateListenerRequest = UpdateListenerRequest(
    enabled: Option<bool>,
    bindAddress: Option<string>,
    port: Option<i32>,
    tlsCert: Option<string>,
    tlsKey: Option<string>)

  /** The update handed to the repository. */
  datatype UpdateServerListener = UpdateServerListener(
    enabled: Option<bool>,
    bindAddress: Option<string>,
    port: Option<i32>,
    tlsCert: Option<string>,
    tlsKey: Option<string>)

  const CERT_MARKER: string := "-----BEGIN CERTIFICATE-----"
  const KEY_MARKER: string := "-----BEGIN"

  const PORT_ERROR: ApiError := ApiError(VALIDATION_ERROR, "端口必须在 1-65535 之间")
  const CERT_ERROR: ApiError := ApiError(VALIDATION_ERROR, "证书格式无效，请提供 PEM 格式的证书")
  const KEY_ERROR: ApiError := ApiError(VALIDATION_ERROR, "私钥格式无效，请提供 PEM 格式的私钥")

  /** An absent port is never rejected; a supplied one must lie in 1..=65535. */
  predicate PortAccepted(port: Option<i32>) {
    port.None? || 1 <= port.value <= 65535
  }

  /** A supplied PEM value fails when it is not blank and lacks its marker. */
  predicate BadPem(value: Option<string>, marker: string) {
    value.Some? && Text.Trim(value.value) != [] && !Text.Contains(value.value, marker)
  }

  /** `map(|s| if s.trim().is_empty() { None } else { Some(s) }).flatten()`. */
  function DropBlank(value: Option<string>): (r: Option<string>)
    ensures r.Some? <==> value.Some? && !Text.IsBlank(value.value)
    ensures r.Some? ==> r == value
  {
    Text.TrimEmptyIffBlank(if value.Some? then value.value else "");
    match value
    case None => None
    case Some(s) => if Text.Trim(s) == [] then None else Some(s)
  }

  /**
   * The checks of `update_listener` before it touches the repository: port, then
   * certificate, then key, the first failure winning; on success the update to write,
   * with blank key material turned into "no change".
   */
  function PrepareUpdate(req: UpdateListenerRequest): (r: Result<UpdateServerListener, ApiError>)
    ensures !PortAccepted(req.port) ==> r == Err(PORT_ERROR)
    ensures PortAccepted(req.port) && BadPem(req.tlsCert, CERT_MARKER) ==> r == Err(CERT_ERROR)
    ensures (PortAccepted(req.port) && !BadPem(req.tlsCert, CERT_MARKER) && BadPem(req.tlsKey, KEY_MARKER))
      ==> r == Err(KEY_ERROR)
    ensures r.Ok? <==>
      (PortAccepted(req.port) && !BadPem(req.tlsCert, CERT_MARKER) && !BadPem(req.tlsKey, KEY_MARKER))
    ensures r.Ok? ==>
      (r.value.enabled == req.enabled && r.value.bindAddress == req.bindAddress && r.value.port == req.port)
    ensures r.Ok? ==> r.value.tlsCert == DropBlank(req.tlsCert) && r.value.tlsKey == DropBlank(req.tlsKey)
  {
    if req.port.Some? && (req.port.value < 1 || req.port.value > 65535) then Err(PORT_ERROR)
    else if req.tlsCert.Some? && Text.Trim(req.tlsCert.value) != [] && !Text.Contains(req.tlsCert.value, CERT_MARKER) then
      Err(CERT_ERROR)
    else if req.tlsKey.Some? && Text.Trim(req.tlsKey.value) != [] && !Text.Contains(req.tlsKey.value, KEY_MARKER) then
      Err(KEY_ERROR)
    else
      Ok(UpdateServerListener(req.enabled, req.bindAddress, req.port,
                              DropBlank(req.tlsCert), DropBlank(req.tlsKey)))
  }

  /** What a blank or marked certificate leads to: accepted, and blank means "no change". */
  lemma PemAcceptance(req: UpdateListenerRequest)
    requires req.port.None? && req.tlsKey.None? && req.tlsCert.Some?
    ensures Text.IsBlank(req.tlsCert.value) ==> PrepareUpdate(req) == Ok(UpdateServerListener(req.enabled, req.bindAddress, None, None, None))
    ensures Text.Contains(req.tlsCert.value, CERT_MARKER) && !Text.IsBlank(req.tlsCert.value) ==>
      PrepareUpdate(req).Ok? && PrepareUpdate(req).value.tlsCert == req.tlsCert
    ensures !Text.IsBlank(req.tlsCert.value) && !Text.Contains(req.tlsCert.value, CERT_MARKER) ==>
      PrepareUpdate(req) == Err(CERT_ERROR)
  {
    Text.TrimEmptyIffBlank(req.tlsCert.value);
  }

  /**
   * The whole `update_listener` outcome, given what the repository's update returned:
   * a validation error, a database error, the listener being absent, or the updated
   * listener as the API presents it.
   */
  function UpdateListener(protocol: string, req: UpdateListenerRequest,
                          stored: UpdateServerListener -> Result<Option<ServerListener>, string>)
    : (r: Result<ListenerResponse, ApiError>)
    ensures PrepareUpdate(req).Err? ==> r == Err(PrepareUpdate(req).error)
    ensures PrepareUpdate(req).Ok? && stored(PrepareUpdate(req).value).Err? ==>
      r.Err? && r.error.code == DATABASE_ERROR
    ensures PrepareUpdate(req).Ok? && stored(PrepareUpdate(req).value) == Ok(None) ==>
      r == Err(ApiError(NOT_FOUND, "监听器 '" + protocol + "' 不存在"))
    ensures r.Ok? <==>
      (PrepareUpdate(req).Ok? && stored(PrepareUpdate(req).value).Ok? && stored(PrepareUpdate(req).value).value.Some?)
    ensures r.Ok? ==> r.value == FromListener(stored(PrepareUpdate(req).value).value.value)
  {
    match PrepareUpdate(req)
    case Err(e) => Err(e)
    case Ok(update) =>
      match stored(update)
      case Err(e) => Err(ApiError(DATABASE_ERROR, "更新失败: " + e))
      case Ok(None) => Err(ApiError(NOT_FOUND, "监听器 '" + protocol + "' 不存在"))
      case Ok(Some(l)) => Ok(FromListener(l))
  }

  /** The warning `update_listener` logs: an enabled TLS listener missing a certificate or key. */
  predicate TlsWarning(protocol: string, l: ServerListener) {
    l.enabled && IsTlsProtocol(protocol) && (l.tlsCert.None? || l.tlsKey.None?)
  }

  /**
   * The warning's protocol list and the presentation table agree: for the listener the
   * repository returned for the path's protocol (the row it updated is keyed by that
   * protocol), a warning is logged exactly when the response says TLS is required, the
   * listener is on, and a certificate or key is missing.
   */
  lemma WarningMatchesRequiresTls(protocol: string, l: ServerListener)
    requires l.protocol == protocol
    ensures TlsWarning(protocol, l) <==>
      var r := FromListener(l); r.enabled && r.requiresTls && !(r.hasTlsCert && r.hasTlsKey)
  {
  }
}
