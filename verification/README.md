# vless-generator in Dafny

A functional model of the request-to-configuration pipeline of
vless-generator. vless-generator is an HTTP service that turns a sing-box
JSON template into a client configuration for one VLESS user.

- **Request parameters.** A request's query string is read into a
  `DynamicConfig`: server, port, WebSocket path, DNS and DoH servers, TUN
  address, mixed port and TUN MTU. A missing, empty or malformed parameter
  keeps the built-in default.
- **Configuration generation.** The template manager copies the stored
  template and overwrites a fixed set of slots in the copy. It also sets
  the user's UUID in the first outbound when that outbound's type is
  `vless`.
- **Share link.** The utilities build the `vless://` share link from the
  generated configuration.
- **Handlers.** They route the home page, the configuration page
  (`/<type>/<uuid>`), the JSON download (`/config/<type>/<uuid>.json`) and
  the QR-code endpoint.
- **Language.** The i18n layer picks the page language and its texts.

How things are modelled:

- JSON values are a `Json` datatype, and a template is a
  `map<string, Json>`.
- A location inside a document is a `Path` of object keys and array
  indices.
- Go's in-place updates become pure functions on values.
- The update step is a list of guarded single-slot writes (`Writes`).
  Each write is "if the guard holds and the parent is an object, set this
  key".
- The eleven writes the generator performs are shown to target pairwise
  independent slots. Each slot's final value can therefore be read off on
  its own: the new value if its guard held and its parent object existed,
  otherwise what the template had.
- Every other location of the template is unchanged.

The modules, in dependency order:

- `Wrappers`: `Option` and `Result`.
- `Json`: the document type, path lookup, the guarded `Put`, and the deep
  copy.
- `Writes`: guarded writes, their sequential application, and the
  independence argument.
- `Config`: `DynamicConfig`, the query, and `strconv.Atoi` with
  `FormatInt` as its inverse.
- `Keys`: listing the keys of a map.
- `I18n`: language detection and text lookup.
- `SingBox`: the sing-box paths the generator and the link builder touch.
- `Templates`: the template manager.
- `Utils`: the second deep copy, the share link, and the scheme choice.
- `Strings`: the Go `strings` functions the handlers use.
- `Handlers`: the four request handlers. Each is a function from the
  request's path, query and method to an `Outcome`.

## Model

| member | source | states |
|---|---|---|
| Json.PutHit | internal/templates/manager.go:115-117 | writing a key into an object that is really at the parent path makes the new value readable at parent + key |
| Json.PutMiss | internal/templates/manager.go:114-115 | when the parent path does not lead to an object, the write leaves the document unchanged |
| Json.PutFrame | internal/templates/manager.go:114-126 | a write changes no location disjoint from its slot |
| Json.PutShape | internal/templates/manager.go:114-126 | a write keeps every location above or beside its slot present with the same kind, so later type assertions still see maps and slices |
| Json.CopyValueIsIdentity | internal/templates/manager.go:167-196 | the recursive copy of a value (map, slice or scalar) equals the value |
| Json.DeepCopyMapIsIdentity | internal/templates/manager.go:167-180 | the manager's deep copy of a template equals the template |
| Writes.ApplyAllSlot | internal/templates/manager.go:112-164 | in a list of pairwise independent writes, a write's slot ends up with its value when its guard and parent held on the input, and is otherwise untouched |
| Writes.ApplyAllFrame | internal/templates/manager.go:112-164 | applying the writes in order changes no location disjoint from all of their slots |
| Writes.ApplyAllShape | internal/templates/manager.go:112-164 | applying the writes in order keeps every present location present with its kind, unless it lies under a written slot |
| Writes.SeparateIsIndependent | internal/templates/manager.go:112-164 | two writes whose slots are not prefix-related, and whose guard paths neither lie under nor above the earlier slot, are independent: the later one's parent and guard are unaffected by the earlier write |
| Config.Atoi | internal/config/config.go:125-129 | `strconv.Atoi` succeeds only on an optional sign followed by one or more decimal digits, always within the 64-bit range, always for such numerals of at most 18 characters, and is negative only after a minus sign |
| Config.AtoiExactly | internal/config/config.go:125-129 | `strconv.Atoi` returns n exactly when n is a 64-bit int and the string is a sign n allows (none or `+` for n >= 0, `-` for n <= 0), any number of leading zeros, then the digits of n's magnitude; so "+0443" is 443, "007" is 7, and every in-range numeral parses |
| Config.AtoiSpelling | internal/config/config.go:125-129 | every spelling of a 64-bit int, with any allowed sign and any leading zeros, parses to that int |
| Config.AtoiSpelled | internal/config/config.go:125-129 | every string Atoi accepts is a spelling of the value it returns |
| Config.AtoiFormatInt | internal/config/config.go:125-129 | every 64-bit integer printed in decimal parses back to itself |
| Config.ParseDynamicConfig | internal/config/config.go:119-154 | each field is the first query value of its key when that is non-empty (and, for the three integers, parses), otherwise the default |
| Config.ParsedField | internal/config/config.go:119-154 | each field is its default overridden by its own key's query value: a text field by any non-empty value, an integer field by a value that parses |
| Config.ParseWithoutParamsIsDefault | internal/config/config.go:36-47 | a query with none of the eight keys yields exactly the defaults: vless.example.com, 443, /websocket, 8.8.8.8, https://223.5.5.5/dns-query, 172.19.0.1/28, 2080, 9000 |
| Config.FieldDependsOnlyOnItsKey | internal/config/config.go:119-154 | two queries that agree on one parameter key give the same value for that field |
| Config.MalformedIntegersKeepDefaults | internal/config/config.go:125-151 | a port, mixed-port or tun-mtu value that does not parse leaves the default in place |
| Config.ParseEncodeRoundTrip | internal/config/config.go:119-154 | any configuration with non-empty strings and 64-bit integers, written as a query, parses back to itself |
| Keys.ListKeys | internal/templates/manager.go:80-86 | the loop collects each key of the map exactly once |
| I18n.DetectLanguage | internal/i18n/i18n.go:97-108 | the result is the parameter when it is "en" or "ru", otherwise "en"; it is always supported |
| I18n.DetectLanguageIdempotent | internal/i18n/i18n.go:97-108 | detecting again on a detected language changes nothing |
| I18n.GetTexts | internal/i18n/i18n.go:71-85 | the texts of the requested language when loaded, else the English texts when loaded, else the empty map |
| I18n.GetTextsChoosesLoaded | internal/i18n/i18n.go:71-85 | whenever the language or English is loaded, the texts returned are those of one of the two |
| I18n.TextsForRequest | internal/i18n/i18n.go:71-108 | with both languages loaded, a request's texts are those of its language parameter when supported, otherwise English |
| I18n.GetSupportedLanguages | internal/i18n/i18n.go:88-94 | lists the loaded languages, each once |
| Templates.GetTemplate | internal/templates/manager.go:69-77 | present exactly for stored types, and then equal to the stored template |
| Templates.GetTemplateTypes | internal/templates/manager.go:80-86 | lists the stored types, each once |
| Templates.GenerateConfig | internal/templates/manager.go:89-109 | fails exactly for unknown types, with the error `template type <type> not found` naming the type; otherwise succeeds |
| Templates.GenerateConfigIsAllWrites | internal/templates/manager.go:89-109 | the generated configuration is the template after the ten update writes and the guarded UUID write, applied in order |
| Templates.AllWritesNonInterfering | internal/templates/manager.go:112-164 | the eleven writes of one generation are pairwise independent |
| Templates.GeneratedSlot | internal/templates/manager.go:112-164 | each written slot holds its new value when its guard held and its parent was an object in the template, and the template's value otherwise |
| Templates.GeneratedServer | internal/templates/manager.go:114-117 | the first outbound's server and server_port are set exactly when it is an object, and are absent otherwise |
| Templates.GeneratedWebSocket | internal/templates/manager.go:119-125 | the WebSocket path is set exactly when the outbound has a transport object, and the Host header exactly when the transport has a headers object |
| Templates.GeneratedTlsServerName | internal/templates/manager.go:127-132 | tls.server_name becomes the server exactly when the template already had it, and is never added |
| Templates.GeneratedDns | internal/templates/manager.go:136-146 | with at least two DNS servers, the first object server gets the DNS server and the second the DoH server; with fewer, neither changes |
| Templates.SecondDnsServer | internal/templates/manager.go:138 | dns.servers[1] exists exactly when dns.servers is an array of at least two entries, the length test the DNS update makes |
| Templates.GeneratedInbounds | internal/templates/manager.go:148-163 | the first inbound gets [tun address] and the MTU, and the second the mixed port, each only when it is an object |
| Templates.GeneratedUuid | internal/templates/manager.go:98-106 | the first outbound's uuid is set exactly when its type is the string "vless" |
| Templates.GeneratedFrame | internal/templates/manager.go:89-164 | every location outside the eleven slots reads as in the template |
| Templates.GeneratedShape | internal/templates/manager.go:89-164 | every template location not under a slot keeps its kind |
| Templates.SetUuidSlot | internal/handlers/handlers.go:337-344 | the UUID step alone sets outbounds[0].uuid iff outbounds[0].type is "vless" |
| Templates.SetUuidFrame | internal/handlers/handlers.go:332-347 | the UUID step changes nothing outside outbounds[0].uuid |
| Utils.DeepCopyMap | internal/utils/utils.go:11-40 | the utilities' deep copy equals its input |
| Utils.GenerateVlessURL | internal/utils/utils.go:48-109 | each of the seven errors happens exactly when the earlier reads succeed and its own read (outbounds, outbound, server, transport, path, headers, Host) fails; success is the link of the values read, with port 443 when server_port is not a number |
| Utils.ReadOutbound | internal/utils/utils.go:66-101 | from the first outbound on, the server and transport errors happen exactly when their reads fail, and otherwise the transport reads decide |
| Utils.ReadTransport | internal/utils/utils.go:83-105 | from the transport on, the path, headers and Host errors happen exactly when their reads fail; success is the link with the path and Host read |
| Utils.FormatUrl | internal/utils/utils.go:104-105 | the link starts with vless:// |
| Utils.GetScheme | internal/utils/utils.go:112-117 | https exactly with TLS, http exactly without |
| Strings.Trim | internal/handlers/handlers.go:83 | the result is a substring of the input, with only the cut character removed at both ends, and neither of its ends is that character |
| Strings.TrimLeftRun | internal/handlers/handlers.go:83 | what trimming on the left removes is a run of the cut character |
| Strings.TrimRightRun | internal/handlers/handlers.go:83 | what trimming on the right removes is a run of the cut character |
| Strings.TrimPadded | internal/handlers/handlers.go:83 | trimming an unpadded string surrounded by runs of the cut character gives it back |
| Strings.Split | internal/handlers/handlers.go:83 | at least one part, no part contains the separator, and joining the parts with it gives back the input |
| Strings.SplitJoin | internal/handlers/handlers.go:83 | splitting a join of separator-free parts gives back the parts |
| Strings.TrimSuffix | internal/handlers/handlers.go:193 | with the suffix present, the result followed by the suffix is the input; without it, the input is unchanged |
| Handlers.HomePageHandler | internal/handlers/handlers.go:38-63 | not found exactly off "/"; otherwise the home page in the language DetectLanguage picks from the `lang` parameter, with that language's texts and the default configuration |
| Handlers.PagesShareLanguage | internal/handlers/handlers.go:38-63 | the home page speaks the `lang` parameter when it is "en" or "ru" and English otherwise, and every configuration page for the same query has the same language and texts |
| Handlers.ParseConfigPagePath | internal/handlers/handlers.go:83-94 | an accepted path, trimmed of slashes, is two non-empty slash-free segments joined by one slash, and those segments are returned (the converse is ConfigPagePathAccepted) |
| Handlers.ConfigPagePathAccepted | internal/handlers/handlers.go:83-94 | any /type/uuid path of two non-empty slash-free segments, with any surrounding slashes, is accepted with those segments |
| Handlers.ParseDownloadPath | internal/handlers/handlers.go:182-193 | an accepted path, trimmed of slashes, is config/type/uuid.json with a non-empty slash-free type and slash-free uuid, and the type and the uuid without .json are returned (the converse is DownloadPathAccepted) |
| Handlers.DownloadPathAccepted | internal/handlers/handlers.go:182-193 | every such download path, with any surrounding slashes, is accepted with its type and uuid |
| Handlers.ConfigPageHandler | internal/handlers/handlers.go:81-162 | not found exactly for a bad path or an unknown type; otherwise a URL failure or the page for the parsed type and uuid, in the language DetectLanguage picks from `lang`, with its texts |
| Handlers.GeneratedConfigLink | internal/handlers/handlers.go:113-132 | the share link of a generated configuration exists exactly when the template's first outbound has transport headers, and then carries the request's server, port, path and the server as Host |
| Handlers.ConfigPageOutcome | internal/handlers/handlers.go:81-162 | for a known type, the exact page or error the handler answers |
| Handlers.RoutePage | internal/handlers/handlers.go:95-162 | once the path is parsed: not found exactly for an unknown type; otherwise a URL failure or the page for that type and uuid, in the language DetectLanguage picks from `lang`, with its texts |
| Handlers.RoutePageOutcome | internal/handlers/handlers.go:95-162 | for a known type, the page with the generated link when the template has transport headers, and the URL failure otherwise |
| Handlers.DownloadFilename | internal/handlers/handlers.go:219 | the attachment name is the type followed by -config.json, and trimming that suffix gives back the type |
| Handlers.ConfigDownloadHandler | internal/handlers/handlers.go:180-219 | not found exactly for a bad path or an unknown type; otherwise a download named after the type whose body is the generated configuration |
| Handlers.QRCodeHandler | internal/handlers/handlers.go:253-308 | method not allowed exactly for non-POST; then "URL parameter is required" for an empty URL, "Invalid VLESS URL" without the vless:// prefix, and a QR code of the URL otherwise |
| Handlers.ConfigPageLinkScannable | internal/handlers/handlers.go:124-132 | the link shown on a configuration page is always accepted by the QR-code endpoint |
| Handlers.GenerateConfigWithUuid | internal/handlers/handlers.go:332-347 | a copy of the template with outbounds[0].uuid set exactly when its type is "vless", and nothing else changed |

## Left out

- HTTP transport is not modelled. Response writers, headers, status-code
  plumbing and logging are absent; each handler returns an `Outcome` value
  instead.
- The rendering step is left out: the HTML templates in renderer.go, and
  the "Internal server error" answers they can produce. The page outcome
  carries the data the renderer would receive.
- QR-code PNG encoding and base64 are foreign libraries, so they are left
  out. The encoder's failures are left out with them: the configuration
  page's internal error, and the QR endpoint's 500 "Failed to generate QR
  code" (handlers.go:311-316). Only the URL to be encoded is kept.
- `ParseMultipartForm` and the three-way lookup of the `url` form field
  (handlers.go:261-293) are left out, including the 400 "Invalid form
  data" answered when the form does not parse. The URL those lookups would find is
  a parameter of `QRCodeHandler`.
- File loading is left out: template and translation loading, JSON
  decoding, `LoadConfig`, `SetupLogging`, main.go's startup and
  middleware, and static.go. The template store and the translations are
  parameters.
- HealthHandler is left out. It reports a wall-clock timestamp and the
  template types, and the latter are modelled by `Templates.GetTemplateTypes`.
- Route registration is left out. main.go sends only `/vless/...` to the
  configuration page, and the handlers are modelled on the path they
  receive.
- JSON numbers are integers. Go's `encoding/json` decodes them as
  float64, and `GenerateVlessURL` truncates a float port with `int(v)`.
  The model keeps one integer kind, so that truncation is not modelled.
- Go map iteration order is unspecified. `GetTemplateTypes` and
  `GetSupportedLanguages` are therefore stated as sets, each key listed
  once, in no promised order.
- The configuration page's `strings.ToUpper(configType)` display name and
  the raw query string are not part of the page outcome. Both are pure
  presentation.
- The `[]string{tunAddress}` written to inet4_address is modelled as a
  one-element JSON array.
- The two identical deep copies (manager.go and utils.go) share one
  definition.
- The store is an immutable value, so "the stored template is never
  modified" holds by construction and is not stated as a separate lemma.
- Templates.UpdateTemplateWithDynamicConfig carries no contract of its
  own. Its effect is stated slot by slot through `GeneratedServer`, `GeneratedWebSocket`,
  `GeneratedTlsServerName`, `GeneratedDns`, `GeneratedInbounds`,
  `GeneratedFrame` and `GeneratedShape`.
- Utils.FormatUrl states only that the link starts with vless://. The rest
  of the `%s`/`%d` layout is its definition, and it inserts the parts
  without URL escaping, as the source does.
