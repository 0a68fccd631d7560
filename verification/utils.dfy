/**
 * Helpers shared by the handlers (internal/utils/utils.go): the second deep
 * copy, the VLESS share-link builder and the scheme choice.
 */
module Utils {
  import opened Wrappers
  import opened Json
  import J = Json
  import Config
  import opened SingBox

  /**
   * `utils.DeepCopyMap`: the same recursive type switch as the template
   * manager's copy, so the same definition; the copy equals its input.
   */
  function DeepCopyMap(original: Object): (r: Object)
    ensures r == original
  {
    DeepCopyMapIsIdentity(original);
    J.DeepCopyMap(original)
  }

  /** One error per failed read of GenerateVlessURL, in the order they are tried. */
  datatype UrlError =
    | InvalidOutbounds
    | InvalidOutbound
    | InvalidServer
    | InvalidTransport
    | InvalidPath
    | InvalidHeaders
    | InvalidHost

  /** `m[key].(string)`. */
  function StringField(m: Object, key: string): Option<string> {
    if key in m && m[key].Str? then Some(m[key].s) else None
  }

  /** `m[key].(map[string]interface{})`. */
  function ObjectField(m: Object, key: string): Option<Object> {
    if key in m && m[key].Obj? then Some(m[key].fields) else None
  }

  /** The port to print: a number as it is, anything else (or nothing) 443. */
  function PortField(m: Object): int {
    if "server_port" in m && m["server_port"].Num? then m["server_port"].n else 443
  }

  /** The link format, with no escaping of any part. */
  function FormatUrl(uuid: string, server: string, port: int, path: string, host: string): (url: string)
    ensures "vless://" <= url
  {
    "vless://" + (uuid + "@" + server + ":" + Config.FormatInt(port)
      + "?type=ws&path=" + path + "&host=" + host + "&security=tls&fp=chrome")
  }

  // Reads through paths, used to state what GenerateVlessURL needs.

  /** The string at `p`, if there is one. */
  function StrAt(j: Json, p: Path): Option<string> {
    match Lookup(j, p)
    case Some(Str(s)) => Some(s)
    case _ => None
  }

  /** The port at `p` as GenerateVlessURL reads it. */
  function PortAt(j: Json, p: Path): int {
    match Lookup(j, p)
    case Some(Num(n)) => n
    case _ => 443
  }

  /** `outbounds` is a non-empty array. */
  predicate HasOutbounds(j: Json) {
    Lookup(j, Outbounds).Some? && Lookup(j, Outbounds).value.Arr? && |Lookup(j, Outbounds).value.items| > 0
  }

  /** Reading a key of the object at `p`, through a path or on the object itself, agrees. */
  lemma ReadChild(j: Json, p: Path, key: string)
    requires ObjAt(j, p)
    ensures StrAt(j, p + [Key(key)]) == StringField(Lookup(j, p).value.fields, key)
    ensures ObjAt(j, p + [Key(key)]) <==> ObjectField(Lookup(j, p).value.fields, key).Some?
    ensures ObjAt(j, p + [Key(key)]) ==>
            Lookup(j, p + [Key(key)]).value.fields == ObjectField(Lookup(j, p).value.fields, key).value
    ensures key == "server_port" ==> PortAt(j, p + [Key(key)]) == PortField(Lookup(j, p).value.fields)
  {
    LookupChild(j, p, key);
  }

  /** Each object on the way to the headers sits inside the one before. */
  lemma OutboundNesting(j: Json)
    requires j.Obj?
    ensures ObjAt(j, Headers) ==> ObjAt(j, Transport)
    ensures ObjAt(j, Transport) ==> ObjAt(j, Outbound)
    ensures ObjAt(j, Outbound) ==> HasOutbounds(j)
    ensures HasOutbounds(j) <==>
            "outbounds" in j.fields && j.fields["outbounds"].Arr? && |j.fields["outbounds"].items| > 0
    ensures HasOutbounds(j) ==>
            (ObjAt(j, Outbound) <==> j.fields["outbounds"].items[0].Obj?)
            && Lookup(j, Outbound) == Some(j.fields["outbounds"].items[0])
  {
    LookupChild(j, [], "outbounds");
    LookupSnoc(j, Outbounds, Index(0));
    LookupChild(j, Outbound, "transport");
    LookupChild(j, Transport, "headers");
  }

  /**
   * Read the first outbound's server, port, WebSocket path and Host header
   * and print the share link, failing at the first read that does not find
   * what it expects. The contract restates the chain through paths: each
   * error happens exactly when every earlier read succeeded and its own
   * read failed, and success yields the link of the four values found.
   */
  function GenerateVlessURL(template: Object, uuid: string): (r: Result<string, UrlError>)
    ensures var t := Obj(template);
            r == Failure(InvalidOutbounds) <==> !HasOutbounds(t)
    ensures var t := Obj(template);
            r == Failure(InvalidOutbound) <==> HasOutbounds(t) && !ObjAt(t, Outbound)
    ensures var t := Obj(template);
            r == Failure(InvalidServer) <==> ObjAt(t, Outbound) && StrAt(t, Outbound + [Key("server")]).None?
    ensures var t := Obj(template);
            r == Failure(InvalidTransport) <==>
              ObjAt(t, Outbound) && StrAt(t, Outbound + [Key("server")]).Some? && !ObjAt(t, Transport)
    ensures var t := Obj(template);
            r == Failure(InvalidPath) <==>
              ObjAt(t, Transport) && StrAt(t, Outbound + [Key("server")]).Some?
              && StrAt(t, Transport + [Key("path")]).None?
    ensures var t := Obj(template);
            r == Failure(InvalidHeaders) <==>
              ObjAt(t, Transport) && StrAt(t, Outbound + [Key("server")]).Some?
              && StrAt(t, Transport + [Key("path")]).Some? && !ObjAt(t, Headers)
    ensures var t := Obj(template);
            r == Failure(InvalidHost) <==>
              ObjAt(t, Headers) && StrAt(t, Outbound + [Key("server")]).Some?
              && StrAt(t, Transport + [Key("path")]).Some? && StrAt(t, Headers + [Key("Host")]).None?
    ensures var t := Obj(template);
            r.Success? ==>
              && StrAt(t, Outbound + [Key("server")]).Some?
              && StrAt(t, Transport + [Key("path")]).Some?
              && StrAt(t, Headers + [Key("Host")]).Some?
              && r.value == FormatUrl(uuid, StrAt(t, Outbound + [Key("server")]).value,
                                      PortAt(t, Outbound + [Key("server_port")]),
                                      StrAt(t, Transport + [Key("path")]).value,
                                      StrAt(t, Headers + [Key("Host")]).value)
  {
    var t := Obj(template);
    OutboundNesting(t);
    if "outbounds" !in template || !template["outbounds"].Arr? || |template["outbounds"].items| == 0 then
      Failure(InvalidOutbounds)
    else
      var first := template["outbounds"].items[0];
      if !first.Obj? then Failure(InvalidOutbound)
      else ReadOutbound(t, first.fields, uuid)
  }

  /** The reads of GenerateVlessURL from the first outbound on. */
  function ReadOutbound(t: Json, outbound: Object, uuid: string): (r: Result<string, UrlError>)
    requires Lookup(t, Outbound) == Some(Obj(outbound))
    ensures r.Failure? ==> r.error in {InvalidServer, InvalidTransport, InvalidPath, InvalidHeaders, InvalidHost}
    ensures r == Failure(InvalidServer) <==> StrAt(t, Outbound + [Key("server")]).None?
    ensures r == Failure(InvalidTransport) <==>
              StrAt(t, Outbound + [Key("server")]).Some? && !ObjAt(t, Transport)
    ensures r.Failure? && r.error in {InvalidPath, InvalidHeaders, InvalidHost} ==>
              StrAt(t, Outbound + [Key("server")]).Some? && ObjAt(t, Transport)
    ensures StrAt(t, Outbound + [Key("server")]).Some? && ObjAt(t, Transport) ==>
              r == ReadTransport(t, Lookup(t, Transport).value.fields, uuid,
                                 StrAt(t, Outbound + [Key("server")]).value,
                                 PortAt(t, Outbound + [Key("server_port")]))
  {
    ReadChild(t, Outbound, "server");
    ReadChild(t, Outbound, "server_port");
    ReadChild(t, Outbound, "transport");
    match StringField(outbound, "server")
    case None => Failure(InvalidServer)
    case Some(server) =>
      var serverPort := PortField(outbound);
      match ObjectField(outbound, "transport")
      case None => Failure(InvalidTransport)
      case Some(transport) => ReadTransport(t, transport, uuid, server, serverPort)
  }

  /** The reads of GenerateVlessURL from the WebSocket transport on. */
  function ReadTransport(t: Json, transport: Object, uuid: string, server: string, port: int)
    : (r: Result<string, UrlError>)
    requires Lookup(t, Transport) == Some(Obj(transport))
    ensures r.Failure? ==> r.error in {InvalidPath, InvalidHeaders, InvalidHost}
    ensures r == Failure(InvalidPath) <==> StrAt(t, Transport + [Key("path")]).None?
    ensures r == Failure(InvalidHeaders) <==>
              StrAt(t, Transport + [Key("path")]).Some? && !ObjAt(t, Headers)
    ensures r == Failure(InvalidHost) <==>
              StrAt(t, Transport + [Key("path")]).Some? && ObjAt(t, Headers)
              && StrAt(t, Headers + [Key("Host")]).None?
    ensures r.Success? ==>
              && StrAt(t, Transport + [Key("path")]).Some?
              && StrAt(t, Headers + [Key("Host")]).Some?
              && r.value == FormatUrl(uuid, server, port, StrAt(t, Transport + [Key("path")]).value,
                                      StrAt(t, Headers + [Key("Host")]).value)
  {
    ReadChild(t, Transport, "path");
    ReadChild(t, Transport, "headers");
    match StringField(transport, "path")
    case None => Failure(InvalidPath)
    case Some(path) =>
      match ObjectField(transport, "headers")
      case None => Failure(InvalidHeaders)
      case Some(headers) =>
        ReadChild(t, Headers, "Host");
        match StringField(headers, "Host")
        case None => Failure(InvalidHost)
        case Some(host) => Success(FormatUrl(uuid, server, port, path, host))
  }

  /** `https` behind TLS, `http` otherwise. */
  function GetScheme(hasTLS: bool): (r: string)
    ensures hasTLS <==> r == "https"
    ensures !hasTLS <==> r == "http"
  {
    if hasTLS then "https" else "http"
  }
}
