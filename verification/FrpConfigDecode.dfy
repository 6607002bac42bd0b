/** A decoder for rendered configurations, and the proof that it recovers what was rendered. */
module FrpConfigDecode {
  import opened Wrappers
  import opened Order
  import opened Quoting
  import opened FrpConfig
  import opened FrpConfigLines
  import opened FrpConfigTables

  // ---------- the decoder ----------

  function TextOf(table: Table, key: string): string {
    if key in table && table[key].Text? then table[key].text else ""
  }

  function IntOf(table: Table, key: string): int {
    if key in table && table[key].Int? then table[key].n else 0
  }

  function TextsOf(table: Table, key: string): seq<string> {
    if key in table && table[key].Texts? then table[key].texts else []
  }

  function MetasOf(table: Table): map<string, string> {
    map k | k in table && table[k].Text? :: table[k].text
  }

  function ProxyFrom(table: Table, metas: Table): Proxy {
    Proxy(TextOf(table, "name"), TextOf(table, "type"), TextOf(table, "localIP"), IntOf(table, "localPort"),
          IntOf(table, "remotePort"), TextOf(table, "secretKey"), TextsOf(table, "customDomains"),
          TextOf(table, "hostHeaderRewrite"), MetasOf(metas))
  }

  function VisitorFrom(table: Table): Visitor {
    Visitor(TextOf(table, "name"), TextOf(table, "type"), TextOf(table, "serverName"), TextOf(table, "secretKey"),
            TextOf(table, "bindAddr"), IntOf(table, "bindPort"))
  }

  function ProxiesFrom(t: Toml): (ps: seq<Proxy>) {
    seq(Count(t, "proxies"), i requires 0 <= i < Count(t, "proxies") =>
      ProxyFrom(TableAt(t, Element("proxies", i)), TableAt(t, Inner("proxies", i, "metadatas"))))
  }

  function VisitorsFrom(t: Toml): (vs: seq<Visitor>) {
    seq(Count(t, "visitors"), i requires 0 <= i < Count(t, "visitors") => VisitorFrom(TableAt(t, Element("visitors", i))))
  }

  /** The configuration, looked up by table and key. */
  function ConfigFrom(t: Toml): ClientConfig {
    var root, auth, web := TableAt(t, Root), TableAt(t, Named("auth")), TableAt(t, Named("webServer"));
    ClientConfig(TextOf(root, "serverAddr"), IntOf(root, "serverPort"), TextOf(root, "natHoleStunServer"),
                 TextOf(auth, "method"), TextOf(auth, "token"),
                 TextOf(web, "addr"), IntOf(web, "port"), TextOf(web, "user"), TextOf(web, "password"),
                 "", "", "", MetasOf(TableAt(t, Named("metadatas"))), ProxiesFrom(t), VisitorsFrom(t))
  }

  function Decode(syntax: Syntax, text: string): Option<ClientConfig> {
    match ReadDoc(syntax, text)
    case None => None
    case Some(d) =>
      match ReadToml(d)
      case None => None
      case Some(t) => Some(ConfigFrom(t))
  }

  // ---------- what is recovered ----------

  function NormalProxy(p: Proxy): Proxy {
    p.(localPort := if p.localPort > 0 then p.localPort else 0,
       remotePort := if p.remotePort > 0 then p.remotePort else 0)
  }

  function NormalVisitor(v: Visitor): Visitor {
    v.(bindAddr := DefaultString(v.bindAddr, "127.0.0.1"))
  }

  function NormalProxies(ps: seq<Proxy>): (r: seq<Proxy>)
    ensures |r| == |ps| && forall i | 0 <= i < |ps| :: r[i] == NormalProxy(ps[i])
  {
    seq(|ps|, i requires 0 <= i < |ps| => NormalProxy(ps[i]))
  }

  function NormalVisitors(vs: seq<Visitor>): (r: seq<Visitor>)
    ensures |r| == |vs| && forall i | 0 <= i < |vs| :: r[i] == NormalVisitor(vs[i])
  {
    seq(|vs|, i requires 0 <= i < |vs| => NormalVisitor(vs[i]))
  }

  /** The documented defaults filled in, ports that are not written set to 0, and group credentials kept
      as the metadata they are written as. */
  function Normalize(cfg: ClientConfig): ClientConfig {
    cfg.(authMethod := DefaultString(cfg.authMethod, "token"),
         adminAddr := DefaultString(cfg.adminAddr, "127.0.0.1"),
         adminPort := DefaultInt(cfg.adminPort, 7400),
         adminUser := DefaultString(cfg.adminUser, "admin"),
         groupId := "", deviceId := "", deviceToken := "",
         metadatas := GlobalMetas(cfg),
         proxies := NormalProxies(cfg.proxies),
         visitors := NormalVisitors(cfg.visitors))
  }

  ghost predicate BareKeys(m: map<string, string>) {
    forall k | k in m :: Bare(k)
  }

  /** Metadata keys are bare keys; every other string of the configuration is arbitrary. */
  ghost predicate Renderable(cfg: ClientConfig) {
    BareKeys(cfg.metadatas) && forall p | p in cfg.proxies :: BareKeys(p.metadatas)
  }

  // ---------- table by table ----------

  lemma MetasBack(m: map<string, string>)
    ensures MetasOf(MetaTable(m)) == m
  {
  }

  lemma HeadBack(p: Proxy)
    ensures TextOf(ProxyHead(p), "name") == p.name && TextOf(ProxyHead(p), "type") == p.kind
    ensures TextOf(ProxyHead(p), "localIP") == p.localIP
    ensures IntOf(ProxyHead(p), "localPort") == NormalProxy(p).localPort
    ensures IntOf(ProxyHead(p), "remotePort") == NormalProxy(p).remotePort
  {
    ProxyHeadKeys(p);
  }

  lemma TailBack(p: Proxy, table: Table)
    requires "secretKey" !in table && "customDomains" !in table && "hostHeaderRewrite" !in table
    ensures var t := ProxyTail(p, table);
            && TextOf(t, "secretKey") == p.secretKey && TextsOf(t, "customDomains") == p.customDomains
            && TextOf(t, "hostHeaderRewrite") == p.hostHeaderRewrite
    ensures forall k | k !in {"secretKey", "customDomains", "hostHeaderRewrite"} ::
              TextOf(ProxyTail(p, table), k) == TextOf(table, k) && IntOf(ProxyTail(p, table), k) == IntOf(table, k)
  {
    FrpConfigTables.ProxyTailKeys();
  }

  lemma HeadIsNotTail()
    ensures {"name", "type", "localIP", "localPort", "remotePort"} !! {"secretKey", "customDomains", "hostHeaderRewrite"}
  {
    assert "localPort"[0] != "secretKey"[0];
    assert |"name"| == 4 && |"type"| == 4 && |"localIP"| == 7 && |"localPort"| == 9 && |"remotePort"| == 10;
    assert |"secretKey"| == 9 && |"customDomains"| == 13 && |"hostHeaderRewrite"| == 17;
  }

  lemma ProxyBack(p: Proxy)
    ensures ProxyFrom(ProxyTable(p), MetaTable(p.metadatas)) == NormalProxy(p)
  {
    HeadIsNotTail();
    ProxyHeadKeys(p);
    HeadBack(p);
    TailBack(p, ProxyHead(p));
    MetasBack(p.metadatas);
  }

  lemma VisitorBack(v: Visitor)
    ensures VisitorFrom(VisitorTable(v)) == NormalVisitor(v)
  {
    FrpConfigTables.VisitorKeys();
  }

  /** The tables before the sections, with the metadata. */
  function Front(cfg: ClientConfig): Toml {
    WithMetas(HeadOf(cfg), Named("metadatas"), GlobalMetas(cfg))
  }

  function Middle(cfg: ClientConfig): Toml {
    WithSections(Front(cfg), "proxies", ProxySections(cfg.proxies))
  }

  /** What is where in the document of a configuration. */
  lemma Found(cfg: ClientConfig)
    ensures var t := TomlOf(cfg);
            && Count(t, "proxies") == |cfg.proxies| && Count(t, "visitors") == |cfg.visitors|
            && HoldsFrom(t, "visitors", 0, VisitorSections(cfg.visitors))
    ensures HoldsFrom(Middle(cfg), "proxies", 0, ProxySections(cfg.proxies))
    ensures Fresh(Front(cfg), "proxies") && Fresh(Middle(cfg), "visitors")
    ensures Count(Front(cfg), "proxies") == 0 && Count(Middle(cfg), "visitors") == 0
    ensures Extends(Front(cfg), Middle(cfg), "proxies") && Extends(Middle(cfg), TomlOf(cfg), "visitors")
  {
    HeadFresh(cfg);
    FrpConfigTables.NamesDiffer();
    SectionsExtend(Front(cfg), "proxies", ProxySections(cfg.proxies));
    StillFresh(Front(cfg), Middle(cfg), "proxies", "visitors");
    SectionsFound(Front(cfg), "proxies", ProxySections(cfg.proxies));
    SectionsFound(Middle(cfg), "visitors", VisitorSections(cfg.visitors));
    SectionsExtend(Middle(cfg), "visitors", VisitorSections(cfg.visitors));
  }

  lemma SectionsStayBeyond(cfg: ClientConfig)
    ensures Extends(Front(cfg), Middle(cfg), "proxies") && Extends(Middle(cfg), TomlOf(cfg), "visitors")
  {
    Found(cfg);
  }

  lemma MiddleHolds(cfg: ClientConfig)
    ensures HoldsFrom(Middle(cfg), "proxies", 0, ProxySections(cfg.proxies))
  {
    Found(cfg);
  }

  lemma EndHolds(cfg: ClientConfig)
    ensures HoldsFrom(TomlOf(cfg), "visitors", 0, VisitorSections(cfg.visitors))
  {
    Found(cfg);
  }

  lemma ProxiesKept(cfg: ClientConfig, i: nat, s: Section)
    requires Holds(Middle(cfg), "proxies", i, s)
    ensures Holds(TomlOf(cfg), "proxies", i, s)
  {
    SectionsStayBeyond(cfg);
    FrpConfigTables.NamesDiffer();
    KeptBelow(Middle(cfg), TomlOf(cfg), "visitors", Element("proxies", i));
    KeptBelow(Middle(cfg), TomlOf(cfg), "visitors", Inner("proxies", i, "metadatas"));
  }

  lemma ElementAt(t: Toml, name: string, sections: seq<Section>, i: nat)
    requires HoldsFrom(t, name, 0, sections) && i < |sections|
    ensures Holds(t, name, i, sections[i])
  {
    SectionAt(t, name, 0, sections, i);
  }

  lemma ProxyFound(cfg: ClientConfig, i: nat)
    requires i < |cfg.proxies|
    ensures Holds(TomlOf(cfg), "proxies", i, ProxySections(cfg.proxies)[i])
  {
    MiddleHolds(cfg);
    ElementAt(Middle(cfg), "proxies", ProxySections(cfg.proxies), i);
    ProxiesKept(cfg, i, ProxySections(cfg.proxies)[i]);
  }

  lemma VisitorFound(cfg: ClientConfig, i: nat)
    requires i < |cfg.visitors|
    ensures Holds(TomlOf(cfg), "visitors", i, VisitorSections(cfg.visitors)[i])
  {
    EndHolds(cfg);
    ElementAt(TomlOf(cfg), "visitors", VisitorSections(cfg.visitors), i);
  }

  lemma Counts(cfg: ClientConfig)
    ensures Count(TomlOf(cfg), "proxies") == |cfg.proxies| && Count(TomlOf(cfg), "visitors") == |cfg.visitors|
  {
    Found(cfg);
  }

  lemma ProxiesBack(cfg: ClientConfig)
    ensures ProxiesFrom(TomlOf(cfg)) == NormalProxies(cfg.proxies)
  {
    Counts(cfg);
    forall i | 0 <= i < |cfg.proxies| ensures ProxiesFrom(TomlOf(cfg))[i] == NormalProxies(cfg.proxies)[i] {
      ProxyFound(cfg, i);
      ProxyBack(cfg.proxies[i]);
    }
  }

  lemma VisitorsBack(cfg: ClientConfig)
    ensures VisitorsFrom(TomlOf(cfg)) == NormalVisitors(cfg.visitors)
  {
    Counts(cfg);
    forall i | 0 <= i < |cfg.visitors| ensures VisitorsFrom(TomlOf(cfg))[i] == NormalVisitors(cfg.visitors)[i] {
      VisitorFound(cfg, i);
      VisitorBack(cfg.visitors[i]);
    }
  }

  lemma FrontFound(cfg: ClientConfig, p: Place)
    requires p.Root? || p.Named?
    ensures TableAt(TomlOf(cfg), p) == TableAt(Front(cfg), p)
  {
    SectionsStayBeyond(cfg);
    KeptBelow(Front(cfg), Middle(cfg), "proxies", p);
    KeptBelow(Middle(cfg), TomlOf(cfg), "visitors", p);
  }

  lemma FrontTables(cfg: ClientConfig)
    ensures TableAt(Front(cfg), Root) == ServerTable(cfg) && TableAt(Front(cfg), Named("auth")) == AuthTable(cfg)
    ensures TableAt(Front(cfg), Named("webServer")) == WebServerTable(cfg)
    ensures TableAt(Front(cfg), Named("metadatas")) == MetaTable(GlobalMetas(cfg))
  {
    FrpConfigTables.NamesDiffer();
    var m := GlobalMetas(cfg);
    assert |m| == 0 ==> m == map[] && MetaTable(m) == map[];
  }

  lemma HeadTablesBack(cfg: ClientConfig)
    ensures var n := Normalize(cfg);
            && TextOf(ServerTable(cfg), "serverAddr") == n.serverAddr && IntOf(ServerTable(cfg), "serverPort") == n.serverPort
            && TextOf(ServerTable(cfg), "natHoleStunServer") == n.natHoleStunServer
            && TextOf(AuthTable(cfg), "method") == n.authMethod && TextOf(AuthTable(cfg), "token") == n.authToken
            && TextOf(WebServerTable(cfg), "addr") == n.adminAddr && IntOf(WebServerTable(cfg), "port") == n.adminPort
            && TextOf(WebServerTable(cfg), "user") == n.adminUser && TextOf(WebServerTable(cfg), "password") == n.adminPassword
  {
    HeadKeys();
  }

  /** Looking up tables and keys recovers the normalised configuration. */
  lemma ConfigBack(cfg: ClientConfig)
    ensures ConfigFrom(TomlOf(cfg)) == Normalize(cfg)
  {
    FrontFound(cfg, Root);
    FrontFound(cfg, Named("auth"));
    FrontFound(cfg, Named("webServer"));
    FrontFound(cfg, Named("metadatas"));
    FrontTables(cfg);
    HeadTablesBack(cfg);
    MetasBack(GlobalMetas(cfg));
    ProxiesBack(cfg);
    VisitorsBack(cfg);
  }

  // ---------- every line is well formed ----------

  lemma {:induction false} MetaDocWellFormed(m: map<string, string>, keys: seq<string>, rest: Doc)
    requires forall k | k in keys :: k in m
    requires BareKeys(m) && WellFormedDoc(rest)
    ensures WellFormedDoc(MetaDoc(m, keys, rest))
  {
    if keys != [] {
      MetaDocWellFormed(m, keys[1..], rest);
    }
  }

  lemma ProxyKeys()
    ensures Bare("name") && Bare("type") && Bare("localIP") && Bare("localPort") && Bare("remotePort")
  {
  }

  lemma ProxyTailKeys()
    ensures Bare("secretKey") && Bare("customDomains") && Bare("hostHeaderRewrite")
  {
  }

  lemma VisitorKeys()
    ensures Bare("serverName") && Bare("bindAddr") && Bare("bindPort")
  {
  }

  lemma Headers()
    ensures WellFormedLine(PROXIES) && WellFormedLine(VISITORS) && WellFormedLine(PROXY_METAS) && WellFormedLine(METAS)
  {
  }

  lemma ServerKeys()
    ensures Bare("serverAddr") && Bare("serverPort") && Bare("natHoleStunServer")
  {
  }

  lemma AuthKeys()
    ensures Bare("method") && Bare("token") && WellFormedLine(Header("[auth]"))
  {
  }

  lemma WebServerKeys()
    ensures Bare("addr") && Bare("port") && Bare("user") && Bare("password") && WellFormedLine(Header("[webServer]"))
  {
  }

  lemma GroupKeys()
    ensures Bare("group_id") && Bare("device_id") && Bare("device_token")
  {
  }

  lemma ProxyMetasWellFormed(m: map<string, string>, rest: Doc)
    requires BareKeys(m) && WellFormedDoc(rest)
    ensures WellFormedDoc(ProxyMetasDoc(m, rest))
  {
    Headers();
    if |m| > 0 {
      MetaDocWellFormed(m, SortedKeys(m), rest);
    }
  }

  lemma ProxyTailWellFormed(p: Proxy, rest: Doc)
    requires BareKeys(p.metadatas) && WellFormedDoc(rest)
    ensures WellFormedDoc(ProxyTailDoc(p, rest))
  {
    ProxyTailKeys();
    ProxyMetasWellFormed(p.metadatas, rest);
    var d3 := ProxyMetasDoc(p.metadatas, rest);
    var d2 := If(p.hostHeaderRewrite != "", Quoted("hostHeaderRewrite", p.hostHeaderRewrite), d3);
    assert WellFormedDoc(d2);
    var d1 := If(|p.customDomains| > 0, List("customDomains", p.customDomains), d2);
    assert WellFormedDoc(d1);
  }

  lemma ProxyWellFormed(p: Proxy, rest: Doc)
    requires BareKeys(p.metadatas) && WellFormedDoc(rest)
    ensures WellFormedDoc(ProxyDoc(p, rest))
  {
    ProxyKeys();
    Headers();
    ProxyTailWellFormed(p, rest);
    var d3 := If(p.remotePort > 0, Number("remotePort", p.remotePort), ProxyTailDoc(p, rest));
    assert WellFormedDoc(d3);
    var d2 := If(p.localPort > 0, Number("localPort", p.localPort), d3);
    assert WellFormedDoc(d2);
    var d1 := If(p.localIP != "", Quoted("localIP", p.localIP), d2);
    assert WellFormedDoc(d1);
    assert WellFormedDoc(Then(Quoted("name", p.name), Then(Quoted("type", p.kind), d1)));
  }

  lemma VisitorWellFormed(v: Visitor, rest: Doc)
    requires WellFormedDoc(rest)
    ensures WellFormedDoc(VisitorDoc(v, rest))
  {
    ProxyKeys();
    ProxyTailKeys();
    VisitorKeys();
    Headers();
    var d := Then(Quoted("secretKey", v.secretKey),
      Then(Quoted("bindAddr", DefaultString(v.bindAddr, "127.0.0.1")), Then(Number("bindPort", v.bindPort), rest)));
    assert WellFormedDoc(d);
    assert WellFormedDoc(Then(Quoted("name", v.name), Then(Quoted("type", v.kind), Then(Quoted("serverName", v.serverName), d))));
  }

  lemma {:induction false} SectionsWellFormed(ps: seq<Proxy>, vs: seq<Visitor>)
    requires forall p | p in ps :: BareKeys(p.metadatas)
    ensures WellFormedDoc(ProxiesDoc(ps, VisitorsDoc(vs)))
    decreases |ps|, |vs|
  {
    if ps != [] {
      SectionsWellFormed(ps[1..], vs);
      ProxyWellFormed(ps[0], ProxiesDoc(ps[1..], VisitorsDoc(vs)));
    } else if vs != [] {
      SectionsWellFormed(ps, vs[1..]);
      VisitorWellFormed(vs[0], VisitorsDoc(vs[1..]));
    }
  }

  lemma GlobalMetasWellFormed(m: map<string, string>, rest: Doc)
    requires BareKeys(m) && WellFormedDoc(rest)
    ensures WellFormedDoc(GlobalMetasDoc(m, rest))
  {
    Headers();
    if |m| > 0 {
      MetaDocWellFormed(m, SortedKeys(m), rest);
      assert WellFormedDoc(Then(METAS, MetaDoc(m, SortedKeys(m), rest)));
    }
  }

  lemma WebServerWellFormed(cfg: ClientConfig, rest: Doc)
    requires WellFormedDoc(rest)
    ensures WellFormedDoc(WebServerDoc(cfg, rest))
  {
    WebServerKeys();
    var d8 := Then(Quoted("user", DefaultString(cfg.adminUser, "admin")), Then(Quoted("password", cfg.adminPassword), rest));
    assert WellFormedDoc(d8);
    var d6 := Then(Quoted("addr", DefaultString(cfg.adminAddr, "127.0.0.1")), Then(Number("port", DefaultInt(cfg.adminPort, 7400)), d8));
    assert WellFormedDoc(d6);
    assert WellFormedDoc(Then(Header("[webServer]"), d6));
  }

  lemma ServerWellFormed(cfg: ClientConfig, rest: Doc)
    requires WellFormedDoc(rest)
    ensures WellFormedDoc(ServerDoc(cfg, rest))
  {
    ServerKeys();
    AuthKeys();
    var d3 := Then(Quoted("method", DefaultString(cfg.authMethod, "token")), Then(Quoted("token", cfg.authToken), rest));
    assert WellFormedDoc(d3);
    var d2 := Then(Blank, Then(Header("[auth]"), d3));
    assert WellFormedDoc(d2);
    var d1 := If(cfg.natHoleStunServer != "", Quoted("natHoleStunServer", cfg.natHoleStunServer), d2);
    assert WellFormedDoc(d1);
  }

  lemma ConfigWellFormed(cfg: ClientConfig)
    requires Renderable(cfg)
    ensures WellFormedDoc(ConfigDoc(cfg))
  {
    GroupKeys();
    var sections := ProxiesDoc(cfg.proxies, VisitorsDoc(cfg.visitors));
    SectionsWellFormed(cfg.proxies, cfg.visitors);
    GlobalMetasWellFormed(GlobalMetas(cfg), sections);
    WebServerWellFormed(cfg, GlobalMetasDoc(GlobalMetas(cfg), sections));
    ServerWellFormed(cfg, WebServerDoc(cfg, GlobalMetasDoc(GlobalMetas(cfg), sections)));
  }

  // ---------- the theorems ----------

  /** With either syntax: the decoder recovers the normalised configuration from the text exactly when it can read
      every string in it. */
  lemma DecodeConfig(syntax: Syntax, cfg: ClientConfig)
    requires Renderable(cfg)
    ensures Decode(syntax, Render(cfg)) == if DocWritable(syntax, ConfigDoc(cfg)) then Some(Normalize(cfg)) else None
  {
    ConfigWellFormed(cfg);
    ReadPrintedDoc(syntax, ConfigDoc(cfg));
    ReadConfigDoc(cfg);
    ConfigBack(cfg);
  }

  lemma {:induction false} GoReadsAll(d: Doc)
    ensures DocWritable(GoSyntax, d)
  {
    if d.Then? {
      GoReadsAll(d.rest);
    }
  }

  /** With the escapes of %q the normalised configuration is always recovered. */
  lemma DecodeRender(cfg: ClientConfig)
    requires Renderable(cfg)
    ensures Decode(GoSyntax, Render(cfg)) == Some(Normalize(cfg))
  {
    GoReadsAll(ConfigDoc(cfg));
    DecodeConfig(GoSyntax, cfg);
  }

  /** What the text says of the group: the metadata of the configuration, or its credentials when it has none. */
  lemma DecodedMetadata(cfg: ClientConfig)
    requires Renderable(cfg)
    ensures Decode(GoSyntax, Render(cfg)).Some?
    ensures var read := Decode(GoSyntax, Render(cfg)).value;
            && read.groupId == "" && read.deviceId == "" && read.deviceToken == ""
            && (cfg.metadatas != map[] ==> read.metadatas == cfg.metadatas)
            && (cfg.metadatas == map[] && cfg.groupId == "" && cfg.deviceId == "" && cfg.deviceToken == "" ==> read.metadatas == map[])
            && (cfg.metadatas == map[] && !(cfg.groupId == "" && cfg.deviceId == "" && cfg.deviceToken == "") ==>
                 read.metadatas == map["group_id" := cfg.groupId, "device_id" := cfg.deviceId, "device_token" := cfg.deviceToken])
  {
    DecodeRender(cfg);
    assert |cfg.metadatas| == 0 <==> cfg.metadatas == map[];
  }

  lemma {:induction false} SectionsOfNormal(ps: seq<Proxy>, vs: seq<Visitor>)
    ensures VisitorsDoc(NormalVisitors(vs)) == VisitorsDoc(vs)
    ensures ProxiesDoc(NormalProxies(ps), VisitorsDoc(NormalVisitors(vs))) == ProxiesDoc(ps, VisitorsDoc(vs))
    decreases |ps|, |vs|
  {
    if ps != [] {
      SectionsOfNormal(ps[1..], vs);
      assert NormalProxies(ps)[1..] == NormalProxies(ps[1..]);
    } else if vs != [] {
      SectionsOfNormal(ps, vs[1..]);
      assert NormalVisitors(vs)[1..] == NormalVisitors(vs[1..]);
    }
  }

  /** Two configurations have the same text exactly when they agree up to the documented defaults. */
  lemma RenderEqualIff(a: ClientConfig, b: ClientConfig)
    requires Renderable(a) && Renderable(b)
    ensures Render(a) == Render(b) <==> Normalize(a) == Normalize(b)
  {
    DecodeRender(a);
    DecodeRender(b);
    RenderOfNormal(a);
    RenderOfNormal(b);
  }

  lemma RenderOfNormal(cfg: ClientConfig)
    ensures Render(Normalize(cfg)) == Render(cfg)
  {
    SectionsOfNormal(cfg.proxies, cfg.visitors);
    assert GlobalMetas(Normalize(cfg)) == GlobalMetas(cfg);
  }
}
