/** Which rendered configurations TOML v1.0.0 reads, and as what. */
module FrpConfigToml {
  import opened Wrappers
  import opened Order
  import opened Quoting
  import opened FrpConfig
  import opened FrpConfigLines
  import opened FrpConfigDecode

  predicate Plain(s: string) { Writable(TomlSyntax, s) }

  predicate AllPlain(vs: seq<string>) { AllWritable(TomlSyntax, vs) }

  // ---------- the strings of a configuration ----------

  predicate MetasWritable(m: map<string, string>) {
    forall k | k in m :: Plain(m[k])
  }

  predicate ProxyWritable(p: Proxy) {
    && AllPlain([p.name, p.kind, p.localIP, p.secretKey, p.hostHeaderRewrite])
    && AllPlain(p.customDomains) && MetasWritable(p.metadatas)
  }

  predicate VisitorWritable(v: Visitor) {
    AllPlain([v.name, v.kind, v.serverName, v.secretKey, v.bindAddr])
  }

  /** No string the renderer writes for the configuration holds a control character that TOML cannot write. */
  predicate ConfigWritable(cfg: ClientConfig) {
    && AllPlain([cfg.serverAddr, cfg.natHoleStunServer, cfg.authMethod, cfg.authToken])
    && AllPlain([cfg.adminAddr, cfg.adminUser, cfg.adminPassword])
    && MetasWritable(GlobalMetas(cfg))
    && (forall p | p in cfg.proxies :: ProxyWritable(p)) && (forall v | v in cfg.visitors :: VisitorWritable(v))
  }

  lemma DefaultsWritable()
    ensures Plain("") && Plain("token") && Plain("127.0.0.1") && Plain("admin")
  {
  }

  lemma DefaultWritable(v: string, fallback: string)
    requires Plain("") && Plain(fallback)
    ensures Plain(DefaultString(v, fallback)) <==> Plain(v)
  {
  }

  lemma OptionalText(key: string, v: string, rest: Doc)
    ensures DocWritable(TomlSyntax, If(v != "", Quoted(key, v), rest)) <==> Plain(v) && DocWritable(TomlSyntax, rest)
  {
  }

  lemma {:induction false} MetaDocWritable(m: map<string, string>, keys: seq<string>, rest: Doc)
    requires forall k | k in keys :: k in m
    ensures DocWritable(TomlSyntax, MetaDoc(m, keys, rest)) <==> (forall k | k in keys :: Plain(m[k])) && DocWritable(TomlSyntax, rest)
  {
    if keys != [] {
      MetaDocWritable(m, keys[1..], rest);
      assert keys == [keys[0]] + keys[1..];
    }
  }

  lemma ProxyMetasWritable(m: map<string, string>, rest: Doc)
    ensures DocWritable(TomlSyntax, ProxyMetasDoc(m, rest)) <==> MetasWritable(m) && DocWritable(TomlSyntax, rest)
  {
    MetaDocWritable(m, SortedKeys(m), rest);
    assert |m| == 0 ==> m == map[];
  }

  lemma GlobalMetasWritable(m: map<string, string>, rest: Doc)
    ensures DocWritable(TomlSyntax, GlobalMetasDoc(m, rest)) <==> MetasWritable(m) && DocWritable(TomlSyntax, rest)
  {
    MetaDocWritable(m, SortedKeys(m), rest);
    assert |m| == 0 ==> m == map[];
  }

  lemma ProxyTailWritable(p: Proxy, rest: Doc)
    ensures DocWritable(TomlSyntax, ProxyTailDoc(p, rest)) <==>
              && Plain(p.secretKey) && AllPlain(p.customDomains) && Plain(p.hostHeaderRewrite)
              && MetasWritable(p.metadatas) && DocWritable(TomlSyntax, rest)
  {
    var d2 := ProxyMetasDoc(p.metadatas, rest);
    var d1 := If(p.hostHeaderRewrite != "", Quoted("hostHeaderRewrite", p.hostHeaderRewrite), d2);
    ProxyMetasWritable(p.metadatas, rest);
    OptionalText("hostHeaderRewrite", p.hostHeaderRewrite, d2);
    OptionalText("secretKey", p.secretKey, If(|p.customDomains| > 0, List("customDomains", p.customDomains), d1));
  }

  lemma ProxyDocWritable(p: Proxy, rest: Doc)
    ensures DocWritable(TomlSyntax, ProxyDoc(p, rest)) <==> ProxyWritable(p) && DocWritable(TomlSyntax, rest)
  {
    var d2 := ProxyTailDoc(p, rest);
    var d1 := If(p.remotePort > 0, Number("remotePort", p.remotePort), d2);
    var d0 := If(p.localPort > 0, Number("localPort", p.localPort), d1);
    ProxyTailWritable(p, rest);
    assert DocWritable(TomlSyntax, d1) <==> DocWritable(TomlSyntax, d2);
    assert DocWritable(TomlSyntax, d0) <==> DocWritable(TomlSyntax, d1);
    OptionalText("localIP", p.localIP, d0);
    NamedDocWritable(PROXIES, p.name, p.kind, If(p.localIP != "", Quoted("localIP", p.localIP), d0));
  }

  lemma NamedDocWritable(header: Line, name: string, kind: string, rest: Doc)
    requires header.Header?
    ensures DocWritable(TomlSyntax, Then(Blank, Then(header, Then(Quoted("name", name), Then(Quoted("type", kind), rest)))))
       <==> Plain(name) && Plain(kind) && DocWritable(TomlSyntax, rest)
  {
    assert DocWritable(TomlSyntax, Then(Quoted("type", kind), rest)) <==> Plain(kind) && DocWritable(TomlSyntax, rest);
    assert DocWritable(TomlSyntax, Then(Quoted("name", name), Then(Quoted("type", kind), rest))) <==>
             Plain(name) && DocWritable(TomlSyntax, Then(Quoted("type", kind), rest));
  }

  lemma VisitorDocWritable(v: Visitor, rest: Doc)
    ensures DocWritable(TomlSyntax, VisitorDoc(v, rest)) <==> VisitorWritable(v) && DocWritable(TomlSyntax, rest)
  {
    var d2 := Then(Quoted("bindAddr", DefaultString(v.bindAddr, "127.0.0.1")), Then(Number("bindPort", v.bindPort), rest));
    var d1 := Then(Quoted("secretKey", v.secretKey), d2);
    DefaultsWritable();
    DefaultWritable(v.bindAddr, "127.0.0.1");
    assert DocWritable(TomlSyntax, d2) <==> Plain(v.bindAddr) && DocWritable(TomlSyntax, rest);
    assert DocWritable(TomlSyntax, Then(Quoted("serverName", v.serverName), d1)) <==>
             Plain(v.serverName) && Plain(v.secretKey) && DocWritable(TomlSyntax, d2);
    NamedDocWritable(VISITORS, v.name, v.kind, Then(Quoted("serverName", v.serverName), d1));
  }

  lemma {:induction false} VisitorsDocWritable(vs: seq<Visitor>)
    ensures DocWritable(TomlSyntax, VisitorsDoc(vs)) <==> forall v | v in vs :: VisitorWritable(v)
  {
    if vs != [] {
      VisitorsDocWritable(vs[1..]);
      VisitorDocWritable(vs[0], VisitorsDoc(vs[1..]));
      assert vs == [vs[0]] + vs[1..];
    }
  }

  lemma {:induction false} ProxiesDocWritable(ps: seq<Proxy>, rest: Doc)
    ensures DocWritable(TomlSyntax, ProxiesDoc(ps, rest)) <==> (forall p | p in ps :: ProxyWritable(p)) && DocWritable(TomlSyntax, rest)
  {
    if ps != [] {
      ProxiesDocWritable(ps[1..], rest);
      ProxyDocWritable(ps[0], ProxiesDoc(ps[1..], rest));
      assert ps == [ps[0]] + ps[1..];
    }
  }

  lemma WebServerWritable(cfg: ClientConfig, rest: Doc)
    ensures DocWritable(TomlSyntax, WebServerDoc(cfg, rest)) <==>
              Plain(cfg.adminAddr) && Plain(cfg.adminUser) && Plain(cfg.adminPassword) && DocWritable(TomlSyntax, rest)
  {
    DefaultsWritable();
    DefaultWritable(cfg.adminAddr, "127.0.0.1");
    DefaultWritable(cfg.adminUser, "admin");
    var d2 := Then(Quoted("user", DefaultString(cfg.adminUser, "admin")), Then(Quoted("password", cfg.adminPassword), rest));
    var d1 := Then(Number("port", DefaultInt(cfg.adminPort, 7400)), d2);
    assert DocWritable(TomlSyntax, d2) <==> Plain(cfg.adminUser) && Plain(cfg.adminPassword) && DocWritable(TomlSyntax, rest);
    assert DocWritable(TomlSyntax, Then(Quoted("addr", DefaultString(cfg.adminAddr, "127.0.0.1")), d1)) <==>
             Plain(cfg.adminAddr) && DocWritable(TomlSyntax, d2);
  }

  lemma ServerDocWritable(cfg: ClientConfig, rest: Doc)
    ensures DocWritable(TomlSyntax, ServerDoc(cfg, rest)) <==>
              && Plain(cfg.serverAddr) && Plain(cfg.natHoleStunServer) && Plain(cfg.authMethod) && Plain(cfg.authToken)
              && DocWritable(TomlSyntax, rest)
  {
    DefaultsWritable();
    DefaultWritable(cfg.authMethod, "token");
    var d3 := Then(Quoted("method", DefaultString(cfg.authMethod, "token")), Then(Quoted("token", cfg.authToken), rest));
    var d2 := Then(Blank, Then(Header("[auth]"), d3));
    var d1 := If(cfg.natHoleStunServer != "", Quoted("natHoleStunServer", cfg.natHoleStunServer), d2);
    assert DocWritable(TomlSyntax, d3) <==> Plain(cfg.authMethod) && Plain(cfg.authToken) && DocWritable(TomlSyntax, rest);
    assert DocWritable(TomlSyntax, d2) <==> DocWritable(TomlSyntax, d3);
    OptionalText("natHoleStunServer", cfg.natHoleStunServer, d2);
    assert DocWritable(TomlSyntax, Then(Number("serverPort", cfg.serverPort), d1)) <==> DocWritable(TomlSyntax, d1);
  }

  lemma SectionsWritable(cfg: ClientConfig)
    ensures DocWritable(TomlSyntax, GlobalMetasDoc(GlobalMetas(cfg), ProxiesDoc(cfg.proxies, VisitorsDoc(cfg.visitors)))) <==>
              && MetasWritable(GlobalMetas(cfg))
              && (forall p | p in cfg.proxies :: ProxyWritable(p)) && (forall v | v in cfg.visitors :: VisitorWritable(v))
  {
    VisitorsDocWritable(cfg.visitors);
    ProxiesDocWritable(cfg.proxies, VisitorsDoc(cfg.visitors));
    GlobalMetasWritable(GlobalMetas(cfg), ProxiesDoc(cfg.proxies, VisitorsDoc(cfg.visitors)));
  }

  lemma AllOfThree(a: string, b: string, c: string)
    ensures AllPlain([a, b, c]) <==> Plain(a) && Plain(b) && Plain(c)
  {
    assert a in [a, b, c] && b in [a, b, c] && c in [a, b, c];
  }

  lemma AllOfFour(a: string, b: string, c: string, d: string)
    ensures AllPlain([a, b, c, d]) <==> Plain(a) && Plain(b) && Plain(c) && Plain(d)
  {
    assert a in [a, b, c, d] && b in [a, b, c, d] && c in [a, b, c, d] && d in [a, b, c, d];
  }

  lemma HeadWritable(cfg: ClientConfig, rest: Doc)
    ensures DocWritable(TomlSyntax, ServerDoc(cfg, WebServerDoc(cfg, rest))) <==>
              && AllPlain([cfg.serverAddr, cfg.natHoleStunServer, cfg.authMethod, cfg.authToken])
              && AllPlain([cfg.adminAddr, cfg.adminUser, cfg.adminPassword]) && DocWritable(TomlSyntax, rest)
  {
    AllOfFour(cfg.serverAddr, cfg.natHoleStunServer, cfg.authMethod, cfg.authToken);
    AllOfThree(cfg.adminAddr, cfg.adminUser, cfg.adminPassword);
    WebServerWritable(cfg, rest);
    ServerDocWritable(cfg, WebServerDoc(cfg, rest));
  }

  lemma ConfigDocWritable(cfg: ClientConfig)
    ensures DocWritable(TomlSyntax, ConfigDoc(cfg)) <==> ConfigWritable(cfg)
  {
    var sections := GlobalMetasDoc(GlobalMetas(cfg), ProxiesDoc(cfg.proxies, VisitorsDoc(cfg.visitors)));
    SectionsWritable(cfg);
    HeadWritable(cfg, sections);
  }

  /** A TOML reader reads the rendered text if and only if no string written holds a control character other than
      \b, \t, \n, \f and \r; and then it finds the normalised configuration under the tables and keys of the text. */
  lemma ConfigIsTomlIff(cfg: ClientConfig)
    requires Renderable(cfg)
    ensures Decode(TomlSyntax, Render(cfg)) == if ConfigWritable(cfg) then Some(Normalize(cfg)) else None
  {
    DecodeConfig(TomlSyntax, cfg);
    ConfigDocWritable(cfg);
  }
}
