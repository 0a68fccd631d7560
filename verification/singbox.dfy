/**
 * Where things sit in a generated sing-box client configuration: the paths
 * the config generator writes and the share-link builder reads.
 */
module SingBox {
  import opened Json

  /** `template["outbounds"]`: the list of outbounds. */
  const Outbounds: Path := [Key("outbounds")]
  /** `outbounds[0]`: the proxy outbound. */
  const Outbound: Path := [Key("outbounds"), Index(0)]
  const OutboundType: Path := [Key("outbounds"), Index(0), Key("type")]
  /** The outbound's WebSocket transport and its HTTP headers. */
  const Transport: Path := [Key("outbounds"), Index(0), Key("transport")]
  const Headers: Path := [Key("outbounds"), Index(0), Key("transport"), Key("headers")]
  /** The outbound's TLS settings. */
  const Tls: Path := [Key("outbounds"), Index(0), Key("tls")]
  const TlsServerName: Path := [Key("outbounds"), Index(0), Key("tls"), Key("server_name")]
  /** `dns.servers`, and its first two entries. */
  const DnsServers: Path := [Key("dns"), Key("servers")]
  const DnsServer0: Path := [Key("dns"), Key("servers"), Index(0)]
  const DnsServer1: Path := [Key("dns"), Key("servers"), Index(1)]
  /** The TUN inbound. */
  const Inbound0: Path := [Key("inbounds"), Index(0)]
  /** The mixed-proxy inbound. */
  const Inbound1: Path := [Key("inbounds"), Index(1)]
}
