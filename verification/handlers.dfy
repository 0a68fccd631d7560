/**
 * The decisions of the HTTP handlers (internal/handlers/handlers.go), as
 * pure functions from what a request carries to what the handler answers.
 * Writing the response, rendering HTML and drawing the QR code are left
 * out; the outcome records the data those steps would be given.
 */
module Handlers {
  import opened Wrappers
  import opened Json
  import opened Strings
  import opened SingBox
  import Config
  import I18n
  import Templates
  import Utils

  /** What a handler answers. */
  datatype Outcome =
    | NotFound
    | BadRequest(message: string)
    | MethodNotAllowed
    | InternalError(message: string)
      /** The home page: its language, texts and the form's default values. */
    | HomePage(language: string, texts: I18n.Texts, defaults: Config.DynamicConfig)
      /** The configuration page with the share link its QR code encodes. */
    | ConfigPage(language: string, texts: I18n.Texts, configType: string, uuid: string, vlessURL: string)
      /** A JSON file download. */
    | Download(filename: string, config: Object)
      /** A PNG of the QR code of `url`. */
    | QRCode(url: string)

  /** The configuration type and UUID a path names. */
  datatype Route = Route(configType: string, uuid: string)

  /** No `/` inside. */
  predicate Segment(s: string) {
    '/' !in s
  }

  // ---------------------------------------------------------------------
  // Home page
  // ---------------------------------------------------------------------

  /** Only the root path is the home page; its language comes from `lang`. */
  function HomePageHandler(translations: I18n.Translations, path: string, query: Config.Query): (r: Outcome)
    ensures r == NotFound <==> path != "/"
    ensures r != NotFound ==> r.HomePage?
    ensures r.HomePage? ==>
              && r.language == I18n.DetectLanguage(Config.QueryGet(query, "lang"))
              && r.language in I18n.SupportedLanguages
              && r.texts == I18n.GetTexts(translations, r.language)
              && r.defaults == Config.DefaultDynamicConfig()
  {
    if path != "/" then NotFound
    else
      var language := I18n.DetectLanguage(Config.QueryGet(query, "lang"));
      HomePage(language, I18n.GetTexts(translations, language), Config.DefaultDynamicConfig())
  }

  /**
   * The home page and every configuration page answered for the same query
   * speak the same language with the same texts: the `lang` parameter when
   * it is supported, English otherwise.
   */
  lemma PagesShareLanguage(store: Templates.Store, translations: I18n.Translations, path: string,
                           query: Config.Query)
    ensures var home := HomePageHandler(translations, "/", query);
            var lang := Config.QueryGet(query, "lang");
            && home.HomePage?
            && home.language == (if lang in I18n.SupportedLanguages then lang else "en")
            && (var page := ConfigPageHandler(store, translations, path, query);
                page.ConfigPage? ==> page.language == home.language && page.texts == home.texts)
  {
  }

  // ---------------------------------------------------------------------
  // Path parsing
  // ---------------------------------------------------------------------

  /**
   * `/<type>/<uuid>`: trimmed of slashes, the path is two non-empty
   * segments joined by one slash.
   */
  function ParseConfigPagePath(path: string): (r: Option<Route>)
    ensures r.Some? ==>
              && Trim(path, '/') == r.value.configType + "/" + r.value.uuid
              && r.value.configType != "" && r.value.uuid != ""
              && Segment(r.value.configType) && Segment(r.value.uuid)
  {
    var parts := Split(Trim(path, '/'), '/');
    if |parts| != 2 || parts[0] == "" || parts[1] == "" then None
    else
      assert Join(parts[1..], '/') == parts[1];
      Some(Route(parts[0], parts[1]))
  }

  /** Every path of that shape is accepted, with its two segments. */
  lemma ConfigPagePathAccepted(path: string, configType: string, uuid: string)
    requires Trim(path, '/') == configType + "/" + uuid
    requires configType != "" && uuid != "" && Segment(configType) && Segment(uuid)
    ensures ParseConfigPagePath(path) == Some(Route(configType, uuid))
  {
    SplitTwo(configType, uuid);
  }

  /** Two separator-free pieces joined by a slash split back into themselves. */
  lemma SplitTwo(a: string, b: string)
    requires Segment(a) && Segment(b)
    ensures Split(a + "/" + b, '/') == [a, b]
  {
    var parts := [a, b];
    assert forall i :: 0 <= i < |parts| ==> '/' !in parts[i];
    SplitJoin(parts, '/');
    assert parts[1..] == [b];
  }

  /**
   * `/config/<type>/<uuid>.json`: trimmed of slashes, the path is "config",
   * a non-empty type and a file name ending in ".json", joined by slashes.
   * The UUID is the file name without ".json" and may be empty.
   */
  function ParseDownloadPath(path: string): (r: Option<Route>)
    ensures r.Some? ==>
              && Trim(path, '/') == "config/" + r.value.configType + "/" + r.value.uuid + ".json"
              && r.value.configType != ""
              && Segment(r.value.configType) && Segment(r.value.uuid)
  {
    var parts := Split(Trim(path, '/'), '/');
    if |parts| != 3 || parts[0] != "config" || parts[1] == "" || !HasSuffix(parts[2], ".json") then None
    else
      var uuid := TrimSuffix(parts[2], ".json");
      DownloadParts(parts);
      Some(Route(parts[1], uuid))
  }

  /** The three pieces of a download path, put back together. */
  lemma DownloadParts(parts: seq<string>)
    requires |parts| == 3 && parts[0] == "config" && HasSuffix(parts[2], ".json") && Segment(parts[2])
    ensures Join(parts, '/') == "config/" + parts[1] + "/" + TrimSuffix(parts[2], ".json") + ".json"
    ensures Segment(TrimSuffix(parts[2], ".json"))
  {
    var uuid := TrimSuffix(parts[2], ".json");
    JoinThree(parts);
    assert "config" + "/" == "config/";
    assert parts[2] == uuid + ".json";
    assert uuid == parts[2][..|uuid|];
  }

  lemma JoinThree(parts: seq<string>)
    requires |parts| == 3
    ensures Join(parts, '/') == parts[0] + "/" + parts[1] + "/" + parts[2]
  {
    assert parts[1..][1..] == parts[2..];
    assert Join(parts[2..], '/') == parts[2];
    assert Join(parts[1..], '/') == parts[1] + "/" + parts[2];
  }

  /** Three separator-free pieces joined by slashes split back into themselves. */
  lemma SplitThree(a: string, b: string, c: string)
    requires Segment(a) && Segment(b) && Segment(c)
    ensures Split(a + "/" + b + "/" + c, '/') == [a, b, c]
  {
    var parts := [a, b, c];
    assert forall i :: 0 <= i < |parts| ==> '/' !in parts[i];
    SplitJoin(parts, '/');
    JoinThree(parts);
  }

  /** Splitting a well-formed download path gives its three pieces. */
  lemma SplitDownloadPath(configType: string, uuid: string)
    requires Segment(configType) && Segment(uuid)
    ensures var file := uuid + ".json";
            && Split("config/" + configType + "/" + uuid + ".json", '/') == ["config", configType, file]
            && HasSuffix(file, ".json") && TrimSuffix(file, ".json") == uuid
  {
    var file := uuid + ".json";
    NotInConcat(uuid, ".json", '/');
    SuffixOfConcat(uuid, ".json");
    SplitThree("config", configType, file);
    DownloadPathShape(configType, uuid);
  }

  /** The download path read as three slash-joined pieces. */
  lemma DownloadPathShape(configType: string, uuid: string)
    ensures "config/" + configType + "/" + uuid + ".json" == "config" + "/" + configType + "/" + (uuid + ".json")
  {
    assert "config" + "/" == "config/";
  }

  /** Every path of that shape is accepted, with its type and UUID. */
  lemma DownloadPathAccepted(path: string, configType: string, uuid: string)
    requires Trim(path, '/') == "config/" + configType + "/" + uuid + ".json"
    requires configType != "" && Segment(configType) && Segment(uuid)
    ensures ParseDownloadPath(path) == Some(Route(configType, uuid))
  {
    SplitDownloadPath(configType, uuid);
  }

  // ---------------------------------------------------------------------
  // Configuration page and download
  // ---------------------------------------------------------------------

  const UrlFailure: string := "Failed to generate configuration URL"

  /**
   * Parse the path, generate the configuration from the query, build its
   * share link. A bad path or an unknown type is NotFound; a configuration
   * the link cannot be read from is an internal error.
   */
  function ConfigPageHandler(store: Templates.Store, translations: I18n.Translations, path: string, query: Config.Query)
    : (r: Outcome)
    ensures r == NotFound <==>
              ParseConfigPagePath(path).None? || ParseConfigPagePath(path).value.configType !in store
    ensures r == NotFound || r == InternalError(UrlFailure) || r.ConfigPage?
    ensures r.ConfigPage? ==>
              && ParseConfigPagePath(path) == Some(Route(r.configType, r.uuid))
              && r.language == I18n.DetectLanguage(Config.QueryGet(query, "lang"))
              && r.language in I18n.SupportedLanguages
              && r.texts == I18n.GetTexts(translations, r.language)
  {
    match ParseConfigPagePath(path)
    case None => NotFound
    case Some(Route(configType, uuid)) => RoutePage(store, translations, configType, uuid, query)
  }

  /** ConfigPageHandler once the path has given a type and a UUID. */
  function RoutePage(store: Templates.Store, translations: I18n.Translations, configType: string, uuid: string,
                     query: Config.Query): (r: Outcome)
    ensures r == NotFound <==> configType !in store
    ensures r == NotFound || r == InternalError(UrlFailure) || r.ConfigPage?
    ensures r.ConfigPage? ==>
              && r.configType == configType && r.uuid == uuid
              && r.language == I18n.DetectLanguage(Config.QueryGet(query, "lang"))
              && r.language in I18n.SupportedLanguages
              && r.texts == I18n.GetTexts(translations, r.language)
  {
    var language := I18n.DetectLanguage(Config.QueryGet(query, "lang"));
    var dynamicCfg := Config.ParseDynamicConfig(query);
    match Templates.GenerateConfig(store, configType, uuid, dynamicCfg)
    case Failure(_) => NotFound
    case Success(doc) =>
      match Utils.GenerateVlessURL(doc, uuid)
      case Failure(_) => InternalError(UrlFailure)
      case Success(url) => ConfigPage(language, I18n.GetTexts(translations, language), configType, uuid, url)
  }

  /** The share link of a generated configuration. */
  function GeneratedLink(uuid: string, cfg: Config.DynamicConfig): string {
    Utils.FormatUrl(uuid, cfg.server, cfg.serverPort, cfg.wsPath, cfg.server)
  }

  /**
   * From template to share link: the link can be read from a generated
   * configuration exactly when the template's outbound has transport
   * headers, and it then carries the request's server (also as the Host),
   * port and WebSocket path.
   */
  lemma GeneratedConfigLink(store: Templates.Store, templateType: string, uuid: string, cfg: Config.DynamicConfig)
    requires templateType in store
    ensures ObjAt(Obj(store[templateType]), Headers) ==>
            Utils.GenerateVlessURL(Templates.GenerateConfig(store, templateType, uuid, cfg).value, uuid)
            == Success(GeneratedLink(uuid, cfg))
    ensures Utils.GenerateVlessURL(Templates.GenerateConfig(store, templateType, uuid, cfg).value, uuid).Success?
            <==> ObjAt(Obj(store[templateType]), Headers)
  {
    var t := Obj(store[templateType]);
    Templates.GeneratedWebSocket(store, templateType, uuid, cfg);
    if ObjAt(t, Headers) {
      GeneratedLinkFields(store, templateType, uuid, cfg);
    }
  }

  /** With transport headers in the template, the link builder reads back the request's values. */
  lemma GeneratedLinkFields(store: Templates.Store, templateType: string, uuid: string, cfg: Config.DynamicConfig)
    requires templateType in store
    requires ObjAt(Obj(store[templateType]), Headers)
    ensures var r := Obj(Templates.GenerateConfig(store, templateType, uuid, cfg).value);
            && ObjAt(r, Headers)
            && Utils.StrAt(r, Outbound + [Key("server")]) == Some(cfg.server)
            && Utils.PortAt(r, Outbound + [Key("server_port")]) == cfg.serverPort
            && Utils.StrAt(r, Transport + [Key("path")]) == Some(cfg.wsPath)
            && Utils.StrAt(r, Headers + [Key("Host")]) == Some(cfg.server)
  {
    var t := Obj(store[templateType]);
    var r := Obj(Templates.GenerateConfig(store, templateType, uuid, cfg).value);
    Templates.GeneratedServer(store, templateType, uuid, cfg);
    Templates.GeneratedWebSocket(store, templateType, uuid, cfg);
    LookupChild(r, Headers, "Host");
  }

  /**
   * The configuration page for a known type: its link is the generated
   * configuration's link when the template has transport headers, and the
   * page fails with an internal error otherwise.
   */
  lemma ConfigPageOutcome(store: Templates.Store, translations: I18n.Translations, path: string, query: Config.Query)
    ensures ParseConfigPagePath(path).Some? && ParseConfigPagePath(path).value.configType in store ==>
            var route := ParseConfigPagePath(path).value;
            var language := I18n.DetectLanguage(Config.QueryGet(query, "lang"));
            ConfigPageHandler(store, translations, path, query)
            == if ObjAt(Obj(store[route.configType]), Headers)
               then ConfigPage(language, I18n.GetTexts(translations, language), route.configType, route.uuid,
                               GeneratedLink(route.uuid, Config.ParseDynamicConfig(query)))
               else InternalError(UrlFailure)
  {
    if ParseConfigPagePath(path).Some? && ParseConfigPagePath(path).value.configType in store {
      var route := ParseConfigPagePath(path).value;
      RoutePageOutcome(store, translations, route.configType, route.uuid, query);
    }
  }

  /** ConfigPageOutcome once the path has given a type and a UUID. */
  lemma RoutePageOutcome(store: Templates.Store, translations: I18n.Translations, configType: string, uuid: string,
                         query: Config.Query)
    requires configType in store
    ensures var language := I18n.DetectLanguage(Config.QueryGet(query, "lang"));
            RoutePage(store, translations, configType, uuid, query)
            == if ObjAt(Obj(store[configType]), Headers)
               then ConfigPage(language, I18n.GetTexts(translations, language), configType, uuid,
                               GeneratedLink(uuid, Config.ParseDynamicConfig(query)))
               else InternalError(UrlFailure)
  {
    GeneratedConfigLink(store, configType, uuid, Config.ParseDynamicConfig(query));
  }

  /** The download file name for a configuration type. */
  function DownloadFilename(configType: string): (name: string)
    ensures HasSuffix(name, "-config.json")
    ensures TrimSuffix(name, "-config.json") == configType
  {
    var name := configType + "-config.json";
    assert name[|name| - 12..] == "-config.json";
    name
  }

  /**
   * Parse the path, generate the configuration from the query and hand it
   * out as `<type>-config.json`. A bad path or an unknown type is NotFound.
   */
  function ConfigDownloadHandler(store: Templates.Store, path: string, query: Config.Query): (r: Outcome)
    ensures r == NotFound <==>
              ParseDownloadPath(path).None? || ParseDownloadPath(path).value.configType !in store
    ensures r != NotFound ==> r.Download?
    ensures r.Download? ==>
              var route := ParseDownloadPath(path).value;
              && r.filename == DownloadFilename(route.configType)
              && Templates.GenerateConfig(store, route.configType, route.uuid, Config.ParseDynamicConfig(query))
                 == Success(r.config)
  {
    match ParseDownloadPath(path)
    case None => NotFound
    case Some(Route(configType, uuid)) =>
      match Templates.GenerateConfig(store, configType, uuid, Config.ParseDynamicConfig(query))
      case Failure(_) => NotFound
      case Success(doc) => Download(DownloadFilename(configType), doc)
  }

  // ---------------------------------------------------------------------
  // QR code
  // ---------------------------------------------------------------------

  const MissingUrl: string := "URL parameter is required"
  const NotVlessUrl: string := "Invalid VLESS URL"

  /**
   * POST only; then the form's `url` must be non-empty and a `vless://`
   * link. `url` is what the form lookup found ("" when nothing).
   */
  function QRCodeHandler(httpMethod: string, url: string): (r: Outcome)
    ensures r == MethodNotAllowed <==> httpMethod != "POST"
    ensures r == BadRequest(MissingUrl) <==> httpMethod == "POST" && url == ""
    ensures r == BadRequest(NotVlessUrl) <==> httpMethod == "POST" && url != "" && !HasPrefix(url, "vless://")
    ensures r == QRCode(url) <==> httpMethod == "POST" && HasPrefix(url, "vless://")
    ensures r.QRCode? ==> r == QRCode(url)
  {
    if httpMethod != "POST" then MethodNotAllowed
    else if url == "" then BadRequest(MissingUrl)
    else if !HasPrefix(url, "vless://") then BadRequest(NotVlessUrl)
    else QRCode(url)
  }

  /** The link on every configuration page is one the QR endpoint accepts. */
  lemma ConfigPageLinkScannable(store: Templates.Store, translations: I18n.Translations, path: string, query: Config.Query)
    ensures var r := ConfigPageHandler(store, translations, path, query);
            r.ConfigPage? ==> QRCodeHandler("POST", r.vlessURL) == QRCode(r.vlessURL)
  {
    var r := ConfigPageHandler(store, translations, path, query);
    if r.ConfigPage? {
      var route := ParseConfigPagePath(path).value;
      ConfigPageOutcome(store, translations, path, query);
    }
  }

  // ---------------------------------------------------------------------
  // The handlers' own generateConfig
  // ---------------------------------------------------------------------

  /**
   * Copy a template and set the outbound's UUID when its type is "vless".
   * The copy is what changes: the template passed in is a value and stays
   * as it was.
   */
  function GenerateConfigWithUuid(template: Object, uuid: string): (r: Object)
    ensures Lookup(Obj(r), Outbound + [Key("uuid")])
            == if Lookup(Obj(template), OutboundType) == Some(Str("vless")) then Some(Str(uuid))
               else Lookup(Obj(template), Outbound + [Key("uuid")])
    ensures forall q :: Disjoint(Outbound + [Key("uuid")], q) ==> Lookup(Obj(r), q) == Lookup(Obj(template), q)
  {
    var copy := Utils.DeepCopyMap(template);
    Templates.SetUuidSlot(copy, uuid);
    forall q | Disjoint(Outbound + [Key("uuid")], q)
      ensures Lookup(Obj(Templates.SetUuid(copy, uuid)), q) == Lookup(Obj(copy), q)
    {
      Templates.SetUuidFrame(copy, uuid, q);
    }
    Templates.SetUuid(copy, uuid)
  }
}
