/** The frpc configuration and its renderer (internal/frp/config.go). */
module FrpConfig {
  import opened Text
  import opened Order
  import opened Quoting
  import Decimal

  datatype Proxy = Proxy(
    name: string, kind: string, localIP: string, localPort: int, remotePort: int, secretKey: string,
    customDomains: seq<string>, hostHeaderRewrite: string, metadatas: map<string, string>)

  datatype Visitor = Visitor(
    name: string, kind: string, serverName: string, secretKey: string, bindAddr: string, bindPort: int)

  datatype ClientConfig = ClientConfig(
    serverAddr: string, serverPort: int, natHoleStunServer: string, authMethod: string, authToken: string,
    adminAddr: string, adminPort: int, adminUser: string, adminPassword: string,
    groupId: string, deviceId: string, deviceToken: string, metadatas: map<string, string>,
    proxies: seq<Proxy>, visitors: seq<Visitor>)

  function DefaultString(v: string, fallback: string): string { if v == "" then fallback else v }

  function DefaultInt(v: int, fallback: int): int { if v == 0 then fallback else v }

  // ---------- the text, line by line ----------

  datatype Line =
    | Blank
    | Header(title: string)
    | Quoted(key: string, value: string)
    | Number(key: string, n: int)
    | List(key: string, values: seq<string>)

  datatype Doc = End | Then(line: Line, rest: Doc)

  function PrintItems(values: seq<string>): string {
    if |values| == 0 then ""
    else if |values| == 1 then Quote(values[0])
    else Quote(values[0]) + ", " + PrintItems(values[1..])
  }

  function PrintLine(l: Line): string {
    match l
    case Blank => ""
    case Header(title) => title
    case Quoted(key, value) => key + " = " + Quote(value)
    case Number(key, n) => key + " = " + Decimal.PrintInt(n)
    case List(key, values) => key + " = [" + PrintItems(values) + "]"
  }

  function PrintDoc(d: Doc): string {
    match d
    case End => ""
    case Then(l, rest) => PrintLine(l) + "\n" + PrintDoc(rest)
  }

  function If(written: bool, l: Line, rest: Doc): Doc {
    if written then Then(l, rest) else rest
  }

  function MetaDoc(m: map<string, string>, keys: seq<string>, rest: Doc): Doc
    requires forall k | k in keys :: k in m
  {
    if keys == [] then rest else Then(Quoted(keys[0], m[keys[0]]), MetaDoc(m, keys[1..], rest))
  }

  const PROXIES: Line := Header("[[proxies]]")
  const PROXY_METAS: Line := Header("[proxies.metadatas]")
  const VISITORS: Line := Header("[[visitors]]")
  const METAS: Line := Header("[metadatas]")

  ghost function ProxyMetasDoc(m: map<string, string>, rest: Doc): Doc {
    if |m| > 0 then Then(PROXY_METAS, MetaDoc(m, SortedKeys(m), rest)) else rest
  }

  ghost function ProxyTailDoc(p: Proxy, rest: Doc): Doc {
    If(p.secretKey != "", Quoted("secretKey", p.secretKey),
    If(|p.customDomains| > 0, List("customDomains", p.customDomains),
    If(p.hostHeaderRewrite != "", Quoted("hostHeaderRewrite", p.hostHeaderRewrite),
    ProxyMetasDoc(p.metadatas, rest))))
  }

  ghost function ProxyDoc(p: Proxy, rest: Doc): Doc {
    Then(Blank, Then(PROXIES,
      Then(Quoted("name", p.name),
      Then(Quoted("type", p.kind),
      If(p.localIP != "", Quoted("localIP", p.localIP),
      If(p.localPort > 0, Number("localPort", p.localPort),
      If(p.remotePort > 0, Number("remotePort", p.remotePort),
      ProxyTailDoc(p, rest))))))))
  }

  function VisitorDoc(v: Visitor, rest: Doc): Doc {
    Then(Blank, Then(VISITORS,
      Then(Quoted("name", v.name),
      Then(Quoted("type", v.kind),
      Then(Quoted("serverName", v.serverName),
      Then(Quoted("secretKey", v.secretKey),
      Then(Quoted("bindAddr", DefaultString(v.bindAddr, "127.0.0.1")),
      Then(Number("bindPort", v.bindPort), rest))))))))
  }

  ghost function ProxiesDoc(ps: seq<Proxy>, rest: Doc): Doc {
    if ps == [] then rest else ProxyDoc(ps[0], ProxiesDoc(ps[1..], rest))
  }

  function VisitorsDoc(vs: seq<Visitor>): Doc {
    if vs == [] then End else VisitorDoc(vs[0], VisitorsDoc(vs[1..]))
  }

  /** Group credentials become the metadata of a configuration that has none of its own. */
  function GlobalMetas(cfg: ClientConfig): map<string, string> {
    if |cfg.metadatas| == 0 && (cfg.groupId != "" || cfg.deviceId != "" || cfg.deviceToken != "") then
      map["group_id" := cfg.groupId, "device_id" := cfg.deviceId, "device_token" := cfg.deviceToken]
    else cfg.metadatas
  }

  ghost function GlobalMetasDoc(m: map<string, string>, rest: Doc): Doc {
    if |m| > 0 then Then(Blank, Then(METAS, MetaDoc(m, SortedKeys(m), rest))) else rest
  }

  function WebServerDoc(cfg: ClientConfig, rest: Doc): Doc {
    Then(Blank, Then(Header("[webServer]"),
    Then(Quoted("addr", DefaultString(cfg.adminAddr, "127.0.0.1")),
    Then(Number("port", DefaultInt(cfg.adminPort, 7400)),
    Then(Quoted("user", DefaultString(cfg.adminUser, "admin")),
    Then(Quoted("password", cfg.adminPassword), rest))))))
  }

  function ServerDoc(cfg: ClientConfig, rest: Doc): Doc {
    Then(Quoted("serverAddr", cfg.serverAddr),
    Then(Number("serverPort", cfg.serverPort),
    If(cfg.natHoleStunServer != "", Quoted("natHoleStunServer", cfg.natHoleStunServer),
    Then(Blank, Then(Header("[auth]"),
    Then(Quoted("method", DefaultString(cfg.authMethod, "token")),
    Then(Quoted("token", cfg.authToken), rest)))))))
  }

  ghost function ConfigDoc(cfg: ClientConfig): Doc {
    ServerDoc(cfg, WebServerDoc(cfg,
      GlobalMetasDoc(GlobalMetas(cfg), ProxiesDoc(cfg.proxies, VisitorsDoc(cfg.visitors)))))
  }

  ghost function Render(cfg: ClientConfig): string {
    PrintDoc(ConfigDoc(cfg))
  }

  // ---------- the source's writers ----------

  /** strings.Builder */
  class Builder {
    var text: string

    constructor ()
      ensures text == ""
    {
      text := "";
    }

    method WriteString(s: string)
      modifies this
      ensures text == old(text) + s
    {
      text := text + s;
    }
  }

  method WriteKV(b: Builder, key: string, value: string, ghost rest: Doc)
    modifies b
    ensures b.text + PrintDoc(rest) == old(b.text) + PrintDoc(Then(Quoted(key, value), rest))
  {
    b.WriteString(key + " = " + Quote(value) + "\n");
  }

  method WriteKVInt(b: Builder, key: string, value: int, ghost rest: Doc)
    modifies b
    ensures b.text + PrintDoc(rest) == old(b.text) + PrintDoc(Then(Number(key, value), rest))
  {
    b.WriteString(key + " = " + Decimal.PrintInt(value) + "\n");
    Regroup(old(b.text), PrintLine(Number(key, value)), "\n", PrintDoc(rest));
  }

  method WriteTitle(b: Builder, title: string, ghost rest: Doc)
    modifies b
    ensures b.text + PrintDoc(rest) == old(b.text) + PrintDoc(Then(Header(title), rest))
  {
    b.WriteString(title + "\n");
  }

  method WriteHeader(b: Builder, title: string, ghost rest: Doc)
    modifies b
    ensures b.text + PrintDoc(rest) == old(b.text) + PrintDoc(Then(Blank, Then(Header(title), rest)))
  {
    b.WriteString("\n");
    WriteTitle(b, title, rest);
    assert PrintDoc(Then(Blank, Then(Header(title), rest))) == "\n" + PrintDoc(Then(Header(title), rest));
  }

  /** What is left to write once `i` items are. */
  function PendingItems(values: seq<string>, i: nat): string
    requires i <= |values|
  {
    (if 0 < i < |values| then ", " else "") + PrintItems(values[i..])
  }

  lemma PendingStep(values: seq<string>, i: nat)
    requires i < |values|
    ensures PendingItems(values, i) == (if i > 0 then ", " else "") + Quote(values[i]) + PendingItems(values, i + 1)
  {
    assert values[i..][1..] == values[i + 1..];
  }

  method WriteItems(b: Builder, values: seq<string>)
    modifies b
    ensures b.text == old(b.text) + PrintItems(values)
  {
    ghost var all := b.text + PrintItems(values);
    assert values[0..] == values;
    for i := 0 to |values|
      invariant b.text + PendingItems(values, i) == all
    {
      PendingStep(values, i);
      ghost var before, separator := b.text, if i > 0 then ", " else "";
      if i > 0 {
        b.WriteString(", ");
      }
      assert b.text == before + separator;
      b.WriteString(Quote(values[i]));
      Regroup(before, separator, Quote(values[i]), PendingItems(values, i + 1));
    }
    assert PendingItems(values, |values|) == "";
  }

  lemma Regroup(a: string, b: string, c: string, d: string)
    ensures a + b + c + d == a + (b + c + d)
  {
  }

  method WriteArray(b: Builder, key: string, values: seq<string>, ghost rest: Doc)
    modifies b
    ensures b.text + PrintDoc(rest) == old(b.text) + PrintDoc(Then(List(key, values), rest))
  {
    b.WriteString(key + " = [");
    WriteItems(b, values);
    b.WriteString("]" + "\n");
    ghost var head, items := key + " = [", PrintItems(values);
    Regroup(old(b.text), head, items, "]" + "\n");
    Regroup(head, items, "]", "\n");
  }

  method WriteKeys(b: Builder, values: map<string, string>, keys: seq<string>, ghost rest: Doc)
    requires forall k | k in keys :: k in values
    modifies b
    ensures b.text + PrintDoc(rest) == old(b.text) + PrintDoc(MetaDoc(values, keys, rest))
  {
    ghost var all := b.text + PrintDoc(MetaDoc(values, keys, rest));
    assert keys[0..] == keys;
    for i := 0 to |keys|
      invariant b.text + PrintDoc(MetaDoc(values, keys[i..], rest)) == all
    {
      ghost var later := MetaDoc(values, keys[i + 1..], rest);
      assert keys[i..][1..] == keys[i + 1..];
      assert MetaDoc(values, keys[i..], rest) == Then(Quoted(keys[i], values[keys[i]]), later);
      WriteKV(b, keys[i], values[keys[i]], later);
    }
    assert keys[|keys|..] == [];
  }

  /** The keys are collected in whatever order the map yields them; sorting makes the text independent
      of it. */
  method WriteMap(b: Builder, values: map<string, string>, ghost rest: Doc)
    modifies b
    ensures b.text + PrintDoc(rest) == old(b.text) + PrintDoc(MetaDoc(values, SortedKeys(values), rest))
  {
    var keys := SortedMapKeys(values);
    WriteKeys(b, values, keys, rest);
  }

  method WriteProxyMetas(b: Builder, p: Proxy, ghost rest: Doc)
    modifies b
    ensures b.text + PrintDoc(rest) == old(b.text) + PrintDoc(ProxyMetasDoc(p.metadatas, rest))
  {
    if |p.metadatas| > 0 {
      WriteTitle(b, "[proxies.metadatas]", MetaDoc(p.metadatas, SortedKeys(p.metadatas), rest));
      WriteMap(b, p.metadatas, rest);
    }
  }

  method WriteProxyTail(b: Builder, p: Proxy, ghost rest: Doc)
    modifies b
    ensures b.text + PrintDoc(rest) == old(b.text) + PrintDoc(ProxyTailDoc(p, rest))
  {
    ghost var d3 := ProxyMetasDoc(p.metadatas, rest);
    ghost var d2 := If(p.hostHeaderRewrite != "", Quoted("hostHeaderRewrite", p.hostHeaderRewrite), d3);
    ghost var d1 := If(|p.customDomains| > 0, List("customDomains", p.customDomains), d2);
    if p.secretKey != "" {
      WriteKV(b, "secretKey", p.secretKey, d1);
    }
    if |p.customDomains| > 0 {
      WriteArray(b, "customDomains", p.customDomains, d2);
    }
    if p.hostHeaderRewrite != "" {
      WriteKV(b, "hostHeaderRewrite", p.hostHeaderRewrite, d3);
    }
    WriteProxyMetas(b, p, rest);
  }

  method WriteProxy(b: Builder, p: Proxy, ghost rest: Doc)
    modifies b
    ensures b.text + PrintDoc(rest) == old(b.text) + PrintDoc(ProxyDoc(p, rest))
  {
    ghost var d5 := ProxyTailDoc(p, rest);
    ghost var d4 := If(p.remotePort > 0, Number("remotePort", p.remotePort), d5);
    ghost var d3 := If(p.localPort > 0, Number("localPort", p.localPort), d4);
    ghost var d2 := If(p.localIP != "", Quoted("localIP", p.localIP), d3);
    ghost var d1 := Then(Quoted("type", p.kind), d2);
    WriteHeader(b, "[[proxies]]", Then(Quoted("name", p.name), d1));
    WriteKV(b, "name", p.name, d1);
    WriteKV(b, "type", p.kind, d2);
    if p.localIP != "" {
      WriteKV(b, "localIP", p.localIP, d3);
    }
    if p.localPort > 0 {
      WriteKVInt(b, "localPort", p.localPort, d4);
    }
    if p.remotePort > 0 {
      WriteKVInt(b, "remotePort", p.remotePort, d5);
    }
    WriteProxyTail(b, p, rest);
  }

  method WriteVisitor(b: Builder, v: Visitor, ghost rest: Doc)
    modifies b
    ensures b.text + PrintDoc(rest) == old(b.text) + PrintDoc(VisitorDoc(v, rest))
  {
    ghost var d6 := Then(Number("bindPort", v.bindPort), rest);
    ghost var d5 := Then(Quoted("bindAddr", DefaultString(v.bindAddr, "127.0.0.1")), d6);
    ghost var d4 := Then(Quoted("secretKey", v.secretKey), d5);
    ghost var d3 := Then(Quoted("serverName", v.serverName), d4);
    ghost var d2 := Then(Quoted("type", v.kind), d3);
    WriteHeader(b, "[[visitors]]", Then(Quoted("name", v.name), d2));
    WriteKV(b, "name", v.name, d2);
    WriteKV(b, "type", v.kind, d3);
    WriteKV(b, "serverName", v.serverName, d4);
    WriteKV(b, "secretKey", v.secretKey, d5);
    WriteKV(b, "bindAddr", DefaultString(v.bindAddr, "127.0.0.1"), d6);
    WriteKVInt(b, "bindPort", v.bindPort, rest);
  }

  /** The whole text: server, credentials, web server, metadata, proxies, visitors. */
  method RenderClientConfig(cfg: ClientConfig) returns (text: string)
    ensures text == Render(cfg)
  {
    var b := new Builder();
    ghost var visitors := VisitorsDoc(cfg.visitors);
    ghost var tail := GlobalMetasDoc(GlobalMetas(cfg), ProxiesDoc(cfg.proxies, visitors));
    ghost var d9 := Then(Quoted("password", cfg.adminPassword), tail);
    ghost var d8 := Then(Quoted("user", DefaultString(cfg.adminUser, "admin")), d9);
    ghost var d7 := Then(Number("port", DefaultInt(cfg.adminPort, 7400)), d8);
    ghost var d6 := Then(Quoted("addr", DefaultString(cfg.adminAddr, "127.0.0.1")), d7);
    ghost var d5 := Then(Blank, Then(Header("[webServer]"), d6));
    ghost var d4 := Then(Quoted("token", cfg.authToken), d5);
    ghost var d3 := Then(Quoted("method", DefaultString(cfg.authMethod, "token")), d4);
    ghost var d2 := Then(Blank, Then(Header("[auth]"), d3));
    ghost var d1 := If(cfg.natHoleStunServer != "", Quoted("natHoleStunServer", cfg.natHoleStunServer), d2);
    ghost var d0 := Then(Number("serverPort", cfg.serverPort), d1);
    WriteKV(b, "serverAddr", cfg.serverAddr, d0);
    WriteKVInt(b, "serverPort", cfg.serverPort, d1);
    if cfg.natHoleStunServer != "" {
      WriteKV(b, "natHoleStunServer", cfg.natHoleStunServer, d2);
    }
    WriteHeader(b, "[auth]", d3);
    WriteKV(b, "method", DefaultString(cfg.authMethod, "token"), d4);
    WriteKV(b, "token", cfg.authToken, d5);
    WriteHeader(b, "[webServer]", d6);
    WriteKV(b, "addr", DefaultString(cfg.adminAddr, "127.0.0.1"), d7);
    WriteKVInt(b, "port", DefaultInt(cfg.adminPort, 7400), d8);
    WriteKV(b, "user", DefaultString(cfg.adminUser, "admin"), d9);
    WriteKV(b, "password", cfg.adminPassword, tail);
    WriteTail(b, GlobalMetas(cfg), cfg.proxies, cfg.visitors);
    text := b.text;
  }

  method WriteTail(b: Builder, metas: map<string, string>, proxies: seq<Proxy>, visitors: seq<Visitor>)
    modifies b
    ensures b.text == old(b.text) + PrintDoc(GlobalMetasDoc(metas, ProxiesDoc(proxies, VisitorsDoc(visitors))))
  {
    ghost var all := old(b.text) + PrintDoc(GlobalMetasDoc(metas, ProxiesDoc(proxies, VisitorsDoc(visitors))));
    if |metas| > 0 {
      WriteHeader(b, "[metadatas]", MetaDoc(metas, SortedKeys(metas), ProxiesDoc(proxies, VisitorsDoc(visitors))));
      WriteMap(b, metas, ProxiesDoc(proxies, VisitorsDoc(visitors)));
    }
    for i := 0 to |proxies|
      invariant b.text + PrintDoc(ProxiesDoc(proxies[i..], VisitorsDoc(visitors))) == all
    {
      assert proxies[i..][1..] == proxies[i + 1..];
      WriteProxy(b, proxies[i], ProxiesDoc(proxies[i + 1..], VisitorsDoc(visitors)));
    }
    assert visitors[0..] == visitors;
    for i := 0 to |visitors|
      invariant b.text + PrintDoc(VisitorsDoc(visitors[i..])) == all
    {
      assert visitors[i..][1..] == visitors[i + 1..];
      WriteVisitor(b, visitors[i], VisitorsDoc(visitors[i + 1..]));
    }
  }
}
