/**
 * The template store and the config generator (internal/templates/manager.go).
 *
 * The store maps a configuration type ("vless") to its parsed JSON template.
 * `GenerateConfig` looks a template up, copies it, and then performs ten
 * guarded writes with the request's dynamic parameters, followed by the UUID
 * write. Every write is of the form "if the object it goes into is there (and
 * its extra condition holds), set this key"; a failed check skips that write
 * and nothing else. The model lists the writes as data (`UpdateWrites`) and
 * applies them with `Writes.ApplyAll`, so the properties of the generator
 * follow from the properties of guarded writes.
 */
module Templates {
  import opened Wrappers
  import opened Json
  import opened Writes
  import Config
  import Keys
  import opened SingBox

  /** The loaded templates, by configuration type. */
  type Store = map<string, Object>

  // ---------------------------------------------------------------------
  // Store access
  // ---------------------------------------------------------------------

  /**
   * A copy of the stored template, or None for an unknown type. The copy
   * is deep and therefore equal to the stored template; the store itself is
   * an immutable value and cannot be changed by a caller.
   */
  function GetTemplate(store: Store, templateType: string): (r: Option<Object>)
    ensures r.Some? <==> templateType in store
    ensures r.Some? ==> r.value == store[templateType]
  {
    if templateType !in store then None
    else
      DeepCopyMapIsIdentity(store[templateType]);
      Some(DeepCopyMap(store[templateType]))
  }

  /** Every configuration type in the store, once each, in no particular order. */
  method GetTemplateTypes(store: Store) returns (types: seq<string>)
    ensures forall t :: t in types <==> t in store
    ensures Keys.NoDuplicates(types)
  {
    types := Keys.ListKeys(store);
  }

  // ---------------------------------------------------------------------
  // The writes of updateTemplateWithDynamicConfig and GenerateConfig
  // ---------------------------------------------------------------------

  /**
   * Where the eleven writes of GenerateConfig go and when they happen, in
   * source order, with a placeholder for each value: server, port, WebSocket
   * path and Host header of the outbound; the TLS server name only where one
   * is already set; both DNS addresses only when there are at least two DNS
   * servers; the TUN address and MTU of the first inbound; the listen port
   * of the second inbound; finally the UUID, for a "vless" outbound only.
   * Each write also needs its parent to be an object (`Writes.Apply`).
   */
  function Layout(): seq<Write> {
    [ Write(Always, Outbound, "server", Null),
      Write(Always, Outbound, "server_port", Null),
      Write(Always, Transport, "path", Null),
      Write(Always, Headers, "Host", Null),
      Write(Present(TlsServerName), Tls, "server_name", Null),
      Write(Present(DnsServer1), DnsServer0, "address", Null),
      Write(Present(DnsServer1), DnsServer1, "address", Null),
      Write(Always, Inbound0, "inet4_address", Null),
      Write(Always, Inbound0, "mtu", Null),
      Write(Always, Inbound1, "listen_port", Null),
      Write(Equals(OutboundType, Str("vless")), Outbound, "uuid", Null) ]
  }

  /** What updateTemplateWithDynamicConfig stores, in the order of `Layout`. */
  function UpdateValues(cfg: Config.DynamicConfig): seq<Json> {
    [ Str(cfg.server), Num(cfg.serverPort), Str(cfg.wsPath), Str(cfg.server), Str(cfg.server),
      Str(cfg.dnsServer), Str(cfg.dohServer), Arr([Str(cfg.tunAddress)]), Num(cfg.tunMTU),
      Num(cfg.mixedPort) ]
  }

  /** The ten writes of updateTemplateWithDynamicConfig. */
  function UpdateWrites(cfg: Config.DynamicConfig): seq<Write> {
    Fill(Layout()[..10], UpdateValues(cfg))
  }

  /** The final write of GenerateConfig. */
  function UuidWrite(uuid: string): Write {
    Layout()[10].(value := Str(uuid))
  }

  function AllWrites(cfg: Config.DynamicConfig, uuid: string): seq<Write> {
    UpdateWrites(cfg) + [UuidWrite(uuid)]
  }

  /** Applying writes to an object yields an object. */
  lemma {:induction false} ApplyAllKeepsObject(j: Json, ws: seq<Write>)
    requires j.Obj?
    ensures ApplyAll(j, ws).Obj?
    decreases |ws|
  {
    if ws != [] {
      ApplyAllKeepsObject(Apply(j, ws[0]), ws[1..]);
    }
  }

  /** updateTemplateWithDynamicConfig, on an already copied template. */
  function UpdateTemplateWithDynamicConfig(template: Object, cfg: Config.DynamicConfig): Object {
    ApplyAllKeepsObject(Obj(template), UpdateWrites(cfg));
    ApplyAll(Obj(template), UpdateWrites(cfg)).fields
  }

  /** The UUID step shared by GenerateConfig and the handlers' private generateConfig. */
  function SetUuid(cfgDoc: Object, uuid: string): Object {
    ApplyAllKeepsObject(Obj(cfgDoc), [UuidWrite(uuid)]);
    ApplyAll(Obj(cfgDoc), [UuidWrite(uuid)]).fields
  }

  datatype TemplateError = TemplateNotFound(templateType: string)

  /**
   * Look up, copy, apply the dynamic parameters, set the UUID. Fails only
   * for an unknown type.
   */
  function GenerateConfig(store: Store, templateType: string, uuid: string, cfg: Config.DynamicConfig)
    : (r: Result<Object, TemplateError>)
    ensures r.Failure? <==> templateType !in store
    ensures r.Failure? ==> r.error == TemplateNotFound(templateType)
  {
    match GetTemplate(store, templateType)
    case None => Failure(TemplateNotFound(templateType))
    case Some(template) =>
      Success(SetUuid(UpdateTemplateWithDynamicConfig(template, cfg), uuid))
  }

  // ---------------------------------------------------------------------
  // The writes do not interfere
  // ---------------------------------------------------------------------

  // Non-interference of the layout, one write at a time from the back:
  // each write is separate from every write after it.

  lemma LayoutTail10()
    ensures NonInterfering(Layout()[10..])
  {
  }

  lemma LayoutSeparate9()
    ensures forall x :: x in Layout()[10..] ==> Separate(Layout()[9], x)
  {
  }

  lemma LayoutTail9()
    ensures NonInterfering(Layout()[9..])
  {
    LayoutTail10();
    LayoutSeparate9();
    ConsNonInterfering(Layout()[9], Layout()[10..]);
    assert [Layout()[9]] + Layout()[10..] == Layout()[9..];
  }

  lemma LayoutSeparate8()
    ensures forall x :: x in Layout()[9..] ==> Separate(Layout()[8], x)
  {
  }

  lemma LayoutTail8()
    ensures NonInterfering(Layout()[8..])
  {
    LayoutTail9();
    LayoutSeparate8();
    ConsNonInterfering(Layout()[8], Layout()[9..]);
    assert [Layout()[8]] + Layout()[9..] == Layout()[8..];
  }

  lemma LayoutSeparate7()
    ensures forall x :: x in Layout()[8..] ==> Separate(Layout()[7], x)
  {
  }

  lemma LayoutTail7()
    ensures NonInterfering(Layout()[7..])
  {
    LayoutTail8();
    LayoutSeparate7();
    ConsNonInterfering(Layout()[7], Layout()[8..]);
    assert [Layout()[7]] + Layout()[8..] == Layout()[7..];
  }

  lemma LayoutSeparate6()
    ensures forall x :: x in Layout()[7..] ==> Separate(Layout()[6], x)
  {
  }

  lemma LayoutTail6()
    ensures NonInterfering(Layout()[6..])
  {
    LayoutTail7();
    LayoutSeparate6();
    ConsNonInterfering(Layout()[6], Layout()[7..]);
    assert [Layout()[6]] + Layout()[7..] == Layout()[6..];
  }

  lemma LayoutSeparate5()
    ensures forall x :: x in Layout()[6..] ==> Separate(Layout()[5], x)
  {
  }

  lemma LayoutTail5()
    ensures NonInterfering(Layout()[5..])
  {
    LayoutTail6();
    LayoutSeparate5();
    ConsNonInterfering(Layout()[5], Layout()[6..]);
    assert [Layout()[5]] + Layout()[6..] == Layout()[5..];
  }

  lemma LayoutSeparate4()
    ensures forall x :: x in Layout()[5..] ==> Separate(Layout()[4], x)
  {
  }

  lemma LayoutTail4()
    ensures NonInterfering(Layout()[4..])
  {
    LayoutTail5();
    LayoutSeparate4();
    ConsNonInterfering(Layout()[4], Layout()[5..]);
    assert [Layout()[4]] + Layout()[5..] == Layout()[4..];
  }

  lemma LayoutSeparate3Near()
    ensures forall x :: x in Layout()[4..6] ==> Separate(Layout()[3], x)
  {
  }

  lemma LayoutSeparate3Far()
    ensures forall x :: x in Layout()[6..] ==> Separate(Layout()[3], x)
  {
  }

  lemma LayoutSeparate3()
    ensures forall x :: x in Layout()[4..] ==> Separate(Layout()[3], x)
  {
    LayoutSeparate3Near();
    LayoutSeparate3Far();
    assert Layout()[4..] == Layout()[4..6] + Layout()[6..];
  }

  lemma LayoutTail3()
    ensures NonInterfering(Layout()[3..])
  {
    LayoutTail4();
    LayoutSeparate3();
    ConsNonInterfering(Layout()[3], Layout()[4..]);
    assert [Layout()[3]] + Layout()[4..] == Layout()[3..];
  }

  lemma LayoutSeparate2Near()
    ensures forall x :: x in Layout()[3..6] ==> Separate(Layout()[2], x)
  {
  }

  lemma LayoutSeparate2Far()
    ensures forall x :: x in Layout()[6..] ==> Separate(Layout()[2], x)
  {
  }

  lemma LayoutSeparate2()
    ensures forall x :: x in Layout()[3..] ==> Separate(Layout()[2], x)
  {
    LayoutSeparate2Near();
    LayoutSeparate2Far();
    assert Layout()[3..] == Layout()[3..6] + Layout()[6..];
  }

  lemma LayoutTail2()
    ensures NonInterfering(Layout()[2..])
  {
    LayoutTail3();
    LayoutSeparate2();
    ConsNonInterfering(Layout()[2], Layout()[3..]);
    assert [Layout()[2]] + Layout()[3..] == Layout()[2..];
  }

  lemma LayoutSeparate1Near()
    ensures forall x :: x in Layout()[2..6] ==> Separate(Layout()[1], x)
  {
  }

  lemma LayoutSeparate1Far()
    ensures forall x :: x in Layout()[6..] ==> Separate(Layout()[1], x)
  {
  }

  lemma LayoutSeparate1()
    ensures forall x :: x in Layout()[2..] ==> Separate(Layout()[1], x)
  {
    LayoutSeparate1Near();
    LayoutSeparate1Far();
    assert Layout()[2..] == Layout()[2..6] + Layout()[6..];
  }

  lemma LayoutTail1()
    ensures NonInterfering(Layout()[1..])
  {
    LayoutTail2();
    LayoutSeparate1();
    ConsNonInterfering(Layout()[1], Layout()[2..]);
    assert [Layout()[1]] + Layout()[2..] == Layout()[1..];
  }

  lemma LayoutSeparate0Near()
    ensures forall x :: x in Layout()[1..6] ==> Separate(Layout()[0], x)
  {
  }

  lemma LayoutSeparate0Far()
    ensures forall x :: x in Layout()[6..] ==> Separate(Layout()[0], x)
  {
  }

  lemma LayoutSeparate0()
    ensures forall x :: x in Layout()[1..] ==> Separate(Layout()[0], x)
  {
    LayoutSeparate0Near();
    LayoutSeparate0Far();
    assert Layout()[1..] == Layout()[1..6] + Layout()[6..];
  }

  lemma LayoutTail0()
    ensures NonInterfering(Layout()[0..])
  {
    LayoutTail1();
    LayoutSeparate0();
    ConsNonInterfering(Layout()[0], Layout()[1..]);
    assert [Layout()[0]] + Layout()[1..] == Layout()[0..];
  }

  /** No write of the generator reads or overwrites what an earlier one wrote. */
  lemma AllWritesNonInterfering(cfg: Config.DynamicConfig, uuid: string)
    ensures SameTargets(AllWrites(cfg, uuid), Layout())
    ensures NonInterfering(AllWrites(cfg, uuid))
  {
    LayoutTail0();
    assert Layout()[0..] == Layout();
    SameTargetsNonInterfering(AllWrites(cfg, uuid), Layout());
  }

  // ---------------------------------------------------------------------
  // What GenerateConfig produces, read back through paths
  // ---------------------------------------------------------------------

  /** The whole generation is one sequence of writes over the stored template. */
  lemma GenerateConfigIsAllWrites(store: Store, templateType: string, uuid: string, cfg: Config.DynamicConfig)
    requires templateType in store
    ensures Obj(GenerateConfig(store, templateType, uuid, cfg).value)
            == ApplyAll(Obj(store[templateType]), AllWrites(cfg, uuid))
  {
    var t := Obj(store[templateType]);
    ApplyAllKeepsObject(t, UpdateWrites(cfg));
    ApplyAllAppend(t, UpdateWrites(cfg), [UuidWrite(uuid)]);
  }

  /**
   * Each slot of the layout ends up holding its write's value when that
   * write's condition held in the stored template, and otherwise holds what
   * the template had there.
   */
  lemma GeneratedSlot(store: Store, templateType: string, uuid: string, cfg: Config.DynamicConfig, k: nat)
    requires templateType in store
    requires k < |Layout()|
    ensures var t := Obj(store[templateType]);
            var w := Layout()[k];
            Lookup(Obj(GenerateConfig(store, templateType, uuid, cfg).value), Slot(w))
            == if Holds(t, w.guard) && ObjAt(t, w.parent)
               then Some((UpdateValues(cfg) + [Str(uuid)])[k])
               else Lookup(t, Slot(w))
  {
    GenerateConfigIsAllWrites(store, templateType, uuid, cfg);
    AllWritesNonInterfering(cfg, uuid);
    var ws := AllWrites(cfg, uuid);
    ApplyAllSlot(Obj(store[templateType]), ws, k);
    assert Slot(ws[k]) == Slot(Layout()[k]);
    assert ws[k].value == (UpdateValues(cfg) + [Str(uuid)])[k];
  }

  /** An unconditional update lands exactly when its parent is an object, and is absent otherwise. */
  lemma GeneratedAlways(store: Store, templateType: string, uuid: string, cfg: Config.DynamicConfig,
                        k: nat, parent: Path, key: string, value: Json)
    requires templateType in store
    requires k < 10 && Layout()[k] == Write(Always, parent, key, Null) && UpdateValues(cfg)[k] == value
    ensures var t := Obj(store[templateType]);
            var r := Obj(GenerateConfig(store, templateType, uuid, cfg).value);
            Lookup(r, parent + [Key(key)]) == if ObjAt(t, parent) then Some(value) else None
  {
    GeneratedSlot(store, templateType, uuid, cfg, k);
    LookupChild(Obj(store[templateType]), parent, key);
  }

  /** An update guarded by its own slot replaces a value that is there and never adds one. */
  lemma GeneratedReplace(store: Store, templateType: string, uuid: string, cfg: Config.DynamicConfig, k: nat)
    requires templateType in store
    requires k < 10 && Layout()[k].guard == Present(Slot(Layout()[k]))
    ensures var t := Obj(store[templateType]);
            var r := Obj(GenerateConfig(store, templateType, uuid, cfg).value);
            var slot := Slot(Layout()[k]);
            Lookup(r, slot) == if Lookup(t, slot).Some? then Some(UpdateValues(cfg)[k]) else None
  {
    var t := Obj(store[templateType]);
    var w := Layout()[k];
    GeneratedSlot(store, templateType, uuid, cfg, k);
    LookupChild(t, w.parent, w.key);
  }

  /** The outbound's server and port are written whenever `outbounds[0]` is an object, and are absent otherwise. */
  lemma GeneratedServer(store: Store, templateType: string, uuid: string, cfg: Config.DynamicConfig)
    requires templateType in store
    ensures var t := Obj(store[templateType]);
            var r := Obj(GenerateConfig(store, templateType, uuid, cfg).value);
            Lookup(r, Outbound + [Key("server")]) == (if ObjAt(t, Outbound) then Some(Str(cfg.server)) else None)
    ensures var t := Obj(store[templateType]);
            var r := Obj(GenerateConfig(store, templateType, uuid, cfg).value);
            Lookup(r, Outbound + [Key("server_port")]) == (if ObjAt(t, Outbound) then Some(Num(cfg.serverPort)) else None)
  {
    GeneratedAlways(store, templateType, uuid, cfg, 0, Outbound, "server", Str(cfg.server));
    GeneratedAlways(store, templateType, uuid, cfg, 1, Outbound, "server_port", Num(cfg.serverPort));
  }

  /**
   * The WebSocket path is written whenever the outbound's transport is an
   * object, the Host header whenever the transport's headers are an object;
   * both are absent otherwise.
   */
  lemma GeneratedWebSocket(store: Store, templateType: string, uuid: string, cfg: Config.DynamicConfig)
    requires templateType in store
    ensures var t := Obj(store[templateType]);
            var r := Obj(GenerateConfig(store, templateType, uuid, cfg).value);
            Lookup(r, Transport + [Key("path")]) == (if ObjAt(t, Transport) then Some(Str(cfg.wsPath)) else None)
    ensures var t := Obj(store[templateType]);
            var r := Obj(GenerateConfig(store, templateType, uuid, cfg).value);
            Lookup(r, Headers + [Key("Host")]) == (if ObjAt(t, Headers) then Some(Str(cfg.server)) else None)
  {
    GeneratedAlways(store, templateType, uuid, cfg, 2, Transport, "path", Str(cfg.wsPath));
    GeneratedAlways(store, templateType, uuid, cfg, 3, Headers, "Host", Str(cfg.server));
  }

  /** The TLS server name is replaced where the template has one, and never added. */
  lemma GeneratedTlsServerName(store: Store, templateType: string, uuid: string, cfg: Config.DynamicConfig)
    requires templateType in store
    ensures var t := Obj(store[templateType]);
            var r := Obj(GenerateConfig(store, templateType, uuid, cfg).value);
            Lookup(r, TlsServerName)
            == if Lookup(t, TlsServerName).Some? then Some(Str(cfg.server)) else None
  {
    GeneratedReplace(store, templateType, uuid, cfg, 4);
    assert Slot(Layout()[4]) == TlsServerName;
  }

  /** `dns.servers[1]` exists exactly when `dns.servers` is an array of at least two entries. */
  lemma SecondDnsServer(t: Json)
    ensures var servers := Lookup(t, DnsServers);
            Lookup(t, DnsServer1).Some? <==> servers.Some? && servers.value.Arr? && |servers.value.items| >= 2
  {
    LookupSnoc(t, DnsServers, Index(1));
    assert DnsServers + [Index(1)] == DnsServer1;
  }

  /** An update guarded by the presence of `g` lands when `g` is there and its parent is an object. */
  lemma GeneratedIfPresent(store: Store, templateType: string, uuid: string, cfg: Config.DynamicConfig,
                           k: nat, g: Path, parent: Path, key: string, value: Json)
    requires templateType in store
    requires k < 10 && Layout()[k] == Write(Present(g), parent, key, Null) && UpdateValues(cfg)[k] == value
    ensures var t := Obj(store[templateType]);
            var r := Obj(GenerateConfig(store, templateType, uuid, cfg).value);
            Lookup(r, parent + [Key(key)])
            == if Lookup(t, g).Some? && ObjAt(t, parent) then Some(value) else Lookup(t, parent + [Key(key)])
  {
    GeneratedSlot(store, templateType, uuid, cfg, k);
  }

  /**
   * The DNS addresses are written only when `dns.servers` is an array of at
   * least two entries: the first address when the first entry is an object,
   * the second when the second is. Otherwise the template's values stay.
   */
  lemma GeneratedDns(store: Store, templateType: string, uuid: string, cfg: Config.DynamicConfig)
    requires templateType in store
    ensures var t := Obj(store[templateType]);
            var servers := Lookup(t, DnsServers);
            Lookup(t, DnsServer1).Some? <==> servers.Some? && servers.value.Arr? && |servers.value.items| >= 2
    ensures var t := Obj(store[templateType]);
            var r := Obj(GenerateConfig(store, templateType, uuid, cfg).value);
            Lookup(r, DnsServer0 + [Key("address")])
            == (if Lookup(t, DnsServer1).Some? && ObjAt(t, DnsServer0) then Some(Str(cfg.dnsServer))
                else Lookup(t, DnsServer0 + [Key("address")]))
    ensures var t := Obj(store[templateType]);
            var r := Obj(GenerateConfig(store, templateType, uuid, cfg).value);
            Lookup(r, DnsServer1 + [Key("address")]) == (if ObjAt(t, DnsServer1) then Some(Str(cfg.dohServer)) else None)
  {
    var t := Obj(store[templateType]);
    SecondDnsServer(t);
    GeneratedIfPresent(store, templateType, uuid, cfg, 5, DnsServer1, DnsServer0, "address", Str(cfg.dnsServer));
    GeneratedIfPresent(store, templateType, uuid, cfg, 6, DnsServer1, DnsServer1, "address", Str(cfg.dohServer));
    LookupChild(t, DnsServer1, "address");
  }

  /**
   * The first inbound gets the TUN address (as a one-element list) and the
   * MTU, the second inbound the mixed-proxy port, each when that inbound
   * exists and is an object.
   */
  lemma GeneratedInbounds(store: Store, templateType: string, uuid: string, cfg: Config.DynamicConfig)
    requires templateType in store
    ensures var t := Obj(store[templateType]);
            var r := Obj(GenerateConfig(store, templateType, uuid, cfg).value);
            && Lookup(r, Inbound0 + [Key("inet4_address")])
               == (if ObjAt(t, Inbound0) then Some(Arr([Str(cfg.tunAddress)])) else None)
            && Lookup(r, Inbound0 + [Key("mtu")])
               == (if ObjAt(t, Inbound0) then Some(Num(cfg.tunMTU)) else None)
            && Lookup(r, Inbound1 + [Key("listen_port")])
               == (if ObjAt(t, Inbound1) then Some(Num(cfg.mixedPort)) else None)
  {
    GeneratedAlways(store, templateType, uuid, cfg, 7, Inbound0, "inet4_address", Arr([Str(cfg.tunAddress)]));
    GeneratedAlways(store, templateType, uuid, cfg, 8, Inbound0, "mtu", Num(cfg.tunMTU));
    GeneratedAlways(store, templateType, uuid, cfg, 9, Inbound1, "listen_port", Num(cfg.mixedPort));
  }

  /**
   * The UUID is set exactly when the outbound's `type` is the string
   * "vless"; otherwise the outbound's `uuid` is whatever the template had.
   */
  lemma GeneratedUuid(store: Store, templateType: string, uuid: string, cfg: Config.DynamicConfig)
    requires templateType in store
    ensures var t := Obj(store[templateType]);
            var r := Obj(GenerateConfig(store, templateType, uuid, cfg).value);
            Lookup(r, Outbound + [Key("uuid")])
            == if Lookup(t, OutboundType) == Some(Str("vless")) then Some(Str(uuid))
               else Lookup(t, Outbound + [Key("uuid")])
  {
    var t := Obj(store[templateType]);
    GeneratedSlot(store, templateType, uuid, cfg, 10);
    LookupChild(t, Outbound, "type");
  }

  /** A path away from every slot the generator writes. */
  predicate Untouched(q: Path) {
    forall k :: 0 <= k < |Layout()| ==> Disjoint(Slot(Layout()[k]), q)
  }

  /** Everything away from the written slots is exactly as in the template. */
  lemma GeneratedFrame(store: Store, templateType: string, uuid: string, cfg: Config.DynamicConfig, q: Path)
    requires templateType in store
    requires Untouched(q)
    ensures Lookup(Obj(GenerateConfig(store, templateType, uuid, cfg).value), q)
            == Lookup(Obj(store[templateType]), q)
  {
    GenerateConfigIsAllWrites(store, templateType, uuid, cfg);
    AllWritesNonInterfering(cfg, uuid);
    ApplyAllFrame(Obj(store[templateType]), AllWrites(cfg, uuid), q);
  }

  /**
   * Every path that is not at or under a written slot keeps its shape: what
   * was present stays present with the same constructor, and nothing new
   * appears there.
   */
  lemma GeneratedShape(store: Store, templateType: string, uuid: string, cfg: Config.DynamicConfig, q: Path)
    requires templateType in store
    requires forall k :: 0 <= k < |Layout()| ==> !(Slot(Layout()[k]) <= q)
    ensures Shape(Lookup(Obj(GenerateConfig(store, templateType, uuid, cfg).value), q))
            == Shape(Lookup(Obj(store[templateType]), q))
  {
    GenerateConfigIsAllWrites(store, templateType, uuid, cfg);
    AllWritesNonInterfering(cfg, uuid);
    ApplyAllShape(Obj(store[templateType]), AllWrites(cfg, uuid), q);
  }

  /** The UUID step alone: set exactly for a "vless" outbound. */
  lemma SetUuidSlot(doc: Object, uuid: string)
    ensures Lookup(Obj(SetUuid(doc, uuid)), Outbound + [Key("uuid")])
            == if Lookup(Obj(doc), OutboundType) == Some(Str("vless")) then Some(Str(uuid))
               else Lookup(Obj(doc), Outbound + [Key("uuid")])
  {
    ApplyAllSlot(Obj(doc), [UuidWrite(uuid)], 0);
    LookupChild(Obj(doc), Outbound, "type");
    assert Slot(UuidWrite(uuid)) == Outbound + [Key("uuid")];
  }

  /** The UUID step alone changes nothing away from the outbound's `uuid`. */
  lemma SetUuidFrame(doc: Object, uuid: string, q: Path)
    requires Disjoint(Outbound + [Key("uuid")], q)
    ensures Lookup(Obj(SetUuid(doc, uuid)), q) == Lookup(Obj(doc), q)
  {
    assert Slot(UuidWrite(uuid)) == Outbound + [Key("uuid")];
    ApplyAllFrame(Obj(doc), [UuidWrite(uuid)], q);
  }
}
