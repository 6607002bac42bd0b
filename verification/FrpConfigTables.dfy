/** Tables and arrays of tables (TOML v1.0.0, sections "Table" and "Array of Tables"): reading a document whatever
    the order of its tables and keys, and what the renderer's documents read as. */
module FrpConfigTables {
  import opened Wrappers
  import opened Order
  import opened FrpConfig
  import opened FrpConfigLines
  import Validate

  datatype Value = Text(text: string) | Int(n: int) | Texts(texts: seq<string>)

  type Table = map<string, Value>

  /** The root table, a named one, an element of an array of tables, or a table inside an element. */
  datatype Place = Root | Named(name: string) | Element(name: string, index: int) | Inner(name: string, index: int, inner: string)

  /** The tables of a document and the lengths of its arrays. */
  datatype Toml = Toml(tables: map<Place, Table>, counts: map<string, nat>)

  function TableAt(t: Toml, p: Place): Table {
    if p in t.tables then t.tables[p] else map[]
  }

  function Count(t: Toml, name: string): nat {
    if name in t.counts then t.counts[name] else 0
  }

  function Add(t: Toml, p: Place, table: Table): Toml {
    Toml(t.tables[p := table], if p.Element? && p.index >= 0 then t.counts[p.name := p.index + 1] else t.counts)
  }

  // ---------- the reader ----------

  datatype Title = ArrayTitle(name: string) | TableTitle(name: string) | InnerTitle(outer: string, name: string) | BadTitle

  /** Headers name a table, an element of an array, or a table inside the last element. */
  function ReadTitle(s: string): Title {
    if |s| < 2 || s[0] != '[' || s[|s| - 1] != ']' then BadTitle else ReadName(s[1..|s| - 1])
  }

  function ReadName(s: string): Title {
    if Bare(s) then TableTitle(s)
    else if |s| > 2 && s[0] == '[' && s[|s| - 1] == ']' && Bare(s[1..|s| - 1]) then ArrayTitle(s[1..|s| - 1])
    else ReadDotted(s, KeyLength(s))
  }

  function ReadDotted(s: string, n: nat): Title {
    if n < |s| && s[n] == '.' && Bare(s[..n]) && Bare(s[n + 1..]) then InnerTitle(s[..n], s[n + 1..]) else BadTitle
  }

  /** The place a header opens; none if its name is taken. */
  function Opened(t: Toml, title: Title): Option<Place> {
    match title
    case ArrayTitle(name) =>
      if Named(name) in t.tables || name in TableAt(t, Root) then None else Some(Element(name, Count(t, name)))
    case TableTitle(name) =>
      if Named(name) in t.tables || name in TableAt(t, Root) || Count(t, name) > 0 then None else Some(Named(name))
    case InnerTitle(outer, name) =>
      var last := Count(t, outer) - 1;
      if last < 0 || Inner(outer, last, name) in t.tables || name in TableAt(t, Element(outer, last)) then None
      else Some(Inner(outer, last, name))
    case BadTitle => None
  }

  function ValueOf(l: Line): Value {
    match l
    case Quoted(_, v) => Text(v)
    case Number(_, n) => Int(n)
    case List(_, vs) => Texts(vs)
    case _ => Text("")
  }

  function Length(d: Doc): nat {
    match d case End => 0 case Then(_, rest) => 1 + Length(rest)
  }

  datatype Content = Content(table: Table, rest: Doc)

  /** The keys and values up to the next header, no key twice. */
  function ReadContent(d: Doc, table: Table): (r: Option<Content>)
    ensures r.Some? ==> Length(r.value.rest) <= Length(d)
  {
    if d.End? || d.line.Header? then Some(Content(table, d))
    else if d.line.Blank? then ReadContent(d.rest, table)
    else if d.line.key in table then None
    else ReadContent(d.rest, table[d.line.key := ValueOf(d.line)])
  }

  function ReadTables(d: Doc, t: Toml): Option<Toml>
    decreases Length(d)
  {
    if d.End? then Some(t)
    else if d.line.Blank? then ReadTables(d.rest, t)
    else if !d.line.Header? then None
    else
      match Opened(t, ReadTitle(d.line.title))
      case None => None
      case Some(p) =>
        match ReadContent(d.rest, map[])
        case None => None
        case Some(c) => ReadTables(c.rest, Add(t, p, c.table))
  }

  function ReadToml(d: Doc): Option<Toml> {
    match ReadContent(d, map[])
    case None => None
    case Some(c) => ReadTables(c.rest, Toml(map[Root := c.table], map[]))
  }

  // ---------- what the renderer's documents read as ----------

  function Put(table: Table, written: bool, key: string, v: Value): Table {
    if written then table[key := v] else table
  }

  function MetaTable(m: map<string, string>): Table {
    map k | k in m :: Text(m[k])
  }

  function ProxyHead(p: Proxy): Table {
    Put(Put(Put(map["name" := Text(p.name), "type" := Text(p.kind)],
                p.localIP != "", "localIP", Text(p.localIP)),
            p.localPort > 0, "localPort", Int(p.localPort)),
        p.remotePort > 0, "remotePort", Int(p.remotePort))
  }

  function ProxyTail(p: Proxy, table: Table): Table {
    Put(Put(Put(table,
                p.secretKey != "", "secretKey", Text(p.secretKey)),
            |p.customDomains| > 0, "customDomains", Texts(p.customDomains)),
        p.hostHeaderRewrite != "", "hostHeaderRewrite", Text(p.hostHeaderRewrite))
  }

  function ProxyTable(p: Proxy): Table {
    ProxyTail(p, ProxyHead(p))
  }

  function VisitorTable(v: Visitor): Table {
    map["name" := Text(v.name), "type" := Text(v.kind), "serverName" := Text(v.serverName),
        "secretKey" := Text(v.secretKey), "bindAddr" := Text(DefaultString(v.bindAddr, "127.0.0.1")),
        "bindPort" := Int(v.bindPort)]
  }

  function ServerTable(cfg: ClientConfig): Table {
    Put(map["serverAddr" := Text(cfg.serverAddr), "serverPort" := Int(cfg.serverPort)],
        cfg.natHoleStunServer != "", "natHoleStunServer", Text(cfg.natHoleStunServer))
  }

  function AuthTable(cfg: ClientConfig): Table {
    map["method" := Text(DefaultString(cfg.authMethod, "token")), "token" := Text(cfg.authToken)]
  }

  function WebServerTable(cfg: ClientConfig): Table {
    map["addr" := Text(DefaultString(cfg.adminAddr, "127.0.0.1")), "port" := Int(DefaultInt(cfg.adminPort, 7400)),
        "user" := Text(DefaultString(cfg.adminUser, "admin")), "password" := Text(cfg.adminPassword)]
  }

  /** The renderer writes metadata only where there is some. */
  function WithMetas(t: Toml, p: Place, m: map<string, string>): Toml {
    if |m| > 0 then Add(t, p, MetaTable(m)) else t
  }

  /** One element of an array of tables and the metadata inside it. */
  datatype Section = Section(table: Table, metas: map<string, string>)

  function ProxySections(ps: seq<Proxy>): (r: seq<Section>)
    ensures |r| == |ps| && forall i | 0 <= i < |ps| :: r[i] == Section(ProxyTable(ps[i]), ps[i].metadatas)
  {
    seq(|ps|, i requires 0 <= i < |ps| => Section(ProxyTable(ps[i]), ps[i].metadatas))
  }

  function VisitorSections(vs: seq<Visitor>): (r: seq<Section>)
    ensures |r| == |vs| && forall i | 0 <= i < |vs| :: r[i] == Section(VisitorTable(vs[i]), map[])
  {
    seq(|vs|, i requires 0 <= i < |vs| => Section(VisitorTable(vs[i]), map[]))
  }

  function WithSection(t: Toml, name: string, s: Section): Toml {
    var n := Count(t, name);
    WithMetas(Add(t, Element(name, n), s.table), Inner(name, n, "metadatas"), s.metas)
  }

  function WithSections(t: Toml, name: string, sections: seq<Section>): Toml
    decreases |sections|
  {
    if sections == [] then t else WithSections(WithSection(t, name, sections[0]), name, sections[1..])
  }

  /** Server, credentials and web server. */
  function HeadOf(cfg: ClientConfig): Toml {
    Toml(map[Root := ServerTable(cfg), Named("auth") := AuthTable(cfg), Named("webServer") := WebServerTable(cfg)], map[])
  }

  function TomlOf(cfg: ClientConfig): Toml {
    var t := WithMetas(HeadOf(cfg), Named("metadatas"), GlobalMetas(cfg));
    WithSections(WithSections(t, "proxies", ProxySections(cfg.proxies)), "visitors", VisitorSections(cfg.visitors))
  }

  // ---------- names ----------

  lemma TableTitleMeans(name: string)
    requires Bare(name)
    ensures ReadTitle("[" + name + "]") == TableTitle(name)
  {
    var s := "[" + name + "]";
    assert s[1..|s| - 1] == name;
  }

  lemma ArrayTitleMeans(name: string)
    requires Bare(name)
    ensures ReadTitle("[[" + name + "]]") == ArrayTitle(name)
  {
    var s, inside := "[[" + name + "]]", "[" + name + "]";
    assert s[1..|s| - 1] == inside && inside[1..|inside| - 1] == name;
    assert inside[0] == '[';
  }

  lemma DottedMeans(outer: string, name: string)
    requires Bare(outer) && Bare(name)
    ensures ReadDotted(outer + "." + name, |outer|) == InnerTitle(outer, name)
  {
    var s := outer + "." + name;
    assert s[|outer|] == '.' && s[..|outer|] == outer && s[|outer| + 1..] == name;
  }

  lemma DottedName(outer: string, name: string)
    requires Bare(outer) && Bare(name)
    ensures ReadName(outer + "." + name) == InnerTitle(outer, name)
  {
    var s := outer + "." + name;
    assert s == outer + ("." + name);
    KeyLengthOf(outer, "." + name);
    DottedMeans(outer, name);
    assert s[0] == outer[0] && s[|outer|] == '.';
    assert !Bare(s);
  }

  lemma InnerTitleMeans(outer: string, name: string)
    requires Bare(outer) && Bare(name)
    ensures ReadTitle("[" + outer + "." + name + "]") == InnerTitle(outer, name)
  {
    var s := "[" + outer + "." + name + "]";
    assert s[1..|s| - 1] == outer + "." + name;
    DottedName(outer, name);
  }

  lemma NamesAreBare()
    ensures Bare("auth") && Bare("webServer") && Bare("metadatas") && Bare("proxies") && Bare("visitors")
  {
  }

  lemma TitlesMean()
    ensures ReadTitle("[auth]") == TableTitle("auth")
    ensures ReadTitle("[webServer]") == TableTitle("webServer")
    ensures ReadTitle("[metadatas]") == TableTitle("metadatas")
  {
    NamesAreBare();
    TableTitleMeans("auth");
    TableTitleMeans("webServer");
    TableTitleMeans("metadatas");
    assert "[auth]" == "[" + "auth" + "]" && "[webServer]" == "[" + "webServer" + "]";
    assert "[metadatas]" == "[" + "metadatas" + "]";
  }

  lemma ArrayTitlesMean()
    ensures ReadTitle("[[proxies]]") == ArrayTitle("proxies")
    ensures ReadTitle("[[visitors]]") == ArrayTitle("visitors")
  {
    NamesAreBare();
    ArrayTitleMeans("proxies");
    ArrayTitleMeans("visitors");
    assert "[[proxies]]" == "[[" + "proxies" + "]]" && "[[visitors]]" == "[[" + "visitors" + "]]";
  }

  lemma MetasTitleMeans()
    ensures ReadTitle("[proxies.metadatas]") == InnerTitle("proxies", "metadatas")
  {
    NamesAreBare();
    InnerTitleMeans("proxies", "metadatas");
    assert "[proxies.metadatas]" == "[" + "proxies" + "." + "metadatas" + "]";
  }

  /** Keys are told apart by their lengths, and those of one length by a letter. */
  lemma ProxyHeadKeys(p: Proxy)
    ensures "type" != "name" && "localIP" !in {"name", "type"} && "localPort" !in {"name", "type", "localIP"}
    ensures "remotePort" !in {"name", "type", "localIP", "localPort"}
    ensures "secretKey" !in ProxyHead(p) && "customDomains" !in ProxyHead(p) && "hostHeaderRewrite" !in ProxyHead(p)
    ensures "metadatas" !in ProxyHead(p)
  {
    assert "name"[0] != "type"[0] && "localPort"[0] != "secretKey"[0] && "localPort"[0] != "metadatas"[0];
    assert |"name"| == 4 && |"type"| == 4 && |"localIP"| == 7 && |"localPort"| == 9 && |"remotePort"| == 10;
    assert |"secretKey"| == 9 && |"customDomains"| == 13 && |"hostHeaderRewrite"| == 17 && |"metadatas"| == 9;
  }

  lemma ProxyTailKeys()
    ensures "secretKey" !in {"customDomains", "hostHeaderRewrite", "metadatas"}
    ensures "customDomains" !in {"hostHeaderRewrite", "metadatas"} && "hostHeaderRewrite" != "metadatas"
  {
    assert "secretKey"[0] != "metadatas"[0];
    assert |"secretKey"| == 9 && |"customDomains"| == 13 && |"hostHeaderRewrite"| == 17 && |"metadatas"| == 9;
  }

  lemma VisitorKeys()
    ensures "type" != "name" && "serverName" !in {"name", "type"} && "secretKey" !in {"name", "type", "serverName"}
    ensures "bindAddr" !in {"name", "type", "serverName", "secretKey"}
    ensures "bindPort" !in {"name", "type", "serverName", "secretKey", "bindAddr"}
  {
    assert "name"[0] != "type"[0] && "bindAddr"[4] != "bindPort"[4];
    assert |"name"| == 4 && |"type"| == 4 && |"serverName"| == 10 && |"secretKey"| == 9 && |"bindAddr"| == 8 && |"bindPort"| == 8;
  }

  lemma HeadKeys()
    ensures "serverAddr" != "serverPort" && "natHoleStunServer" !in {"serverAddr", "serverPort"}
    ensures "method" != "token"
    ensures "addr" !in {"port", "user", "password"} && "port" !in {"user", "password"} && "user" != "password"
  {
    assert "serverAddr"[6] != "serverPort"[6] && |"serverAddr"| == 10 && |"serverPort"| == 10 && |"natHoleStunServer"| == 17;
    assert |"method"| == 6 && |"token"| == 5;
    assert "addr"[0] == 'a' && "port"[0] == 'p' && "user"[0] == 'u' && |"password"| == 8 && |"port"| == 4 && |"addr"| == 4 && |"user"| == 4;
  }

  lemma NamesDiffer()
    ensures "proxies" !in {"visitors", "auth", "webServer", "metadatas", "serverAddr", "serverPort", "natHoleStunServer"}
    ensures "visitors" !in {"auth", "webServer", "metadatas", "serverAddr", "serverPort", "natHoleStunServer"}
    ensures "metadatas" !in {"auth", "webServer", "serverAddr", "serverPort", "natHoleStunServer"}
    ensures "webServer" !in {"auth", "serverAddr", "serverPort", "natHoleStunServer"}
    ensures "auth" !in {"serverAddr", "serverPort", "natHoleStunServer"}
  {
    assert |"proxies"| == 7 && |"visitors"| == 8 && |"auth"| == 4 && |"webServer"| == 9 && |"metadatas"| == 9;
    assert "webServer"[0] != "metadatas"[0];
    assert |"serverAddr"| == 10 && |"serverPort"| == 10 && |"natHoleStunServer"| == 17;
  }

  // ---------- sections ----------

  /** A section is over: the text ends or another header follows. */
  predicate Over(d: Doc) {
    d.End? || d.line.Header? || (d.line.Blank? && (d.rest.End? || d.rest.line.Header?))
  }

  lemma OverEnds(d: Doc, table: Table)
    requires Over(d)
    ensures ReadContent(d, table).Some? && ReadContent(d, table).value.table == table
    ensures forall t :: ReadTables(ReadContent(d, table).value.rest, t) == ReadTables(d, t)
  {
  }

  lemma ReadSection(title: string, d: Doc, table: Table, rest: Doc, t: Toml, p: Place)
    requires Opened(t, ReadTitle(title)) == Some(p)
    requires ReadContent(d, map[]) == ReadContent(rest, table) && Over(rest)
    ensures ReadTables(Then(Header(title), d), t) == ReadTables(rest, Add(t, p, table))
  {
    OverEnds(rest, table);
  }

  lemma ReadPut(written: bool, l: Line, rest: Doc, table: Table)
    requires !l.Blank? && !l.Header? && l.key !in table
    ensures ReadContent(If(written, l, rest), table) == ReadContent(rest, Put(table, written, l.key, ValueOf(l)))
  {
  }

  function PutAll(table: Table, m: map<string, string>, keys: seq<string>): Table
    requires forall k | k in keys :: k in m
    decreases |keys|
  {
    if keys == [] then table else PutAll(table[keys[0] := Text(m[keys[0]])], m, keys[1..])
  }

  lemma {:induction false} PutAllAt(table: Table, m: map<string, string>, keys: seq<string>, key: string)
    requires forall k | k in keys :: k in m
    ensures var r := PutAll(table, m, keys);
            if key in keys then key in r && r[key] == Text(m[key])
            else (key in r <==> key in table) && (key in table ==> r[key] == table[key])
    decreases |keys|
  {
    if keys != [] {
      assert keys == [keys[0]] + keys[1..];
      PutAllAt(table[keys[0] := Text(m[keys[0]])], m, keys[1..], key);
    }
  }

  lemma PutAllIsMeta(m: map<string, string>, keys: seq<string>)
    requires forall k :: k in keys <==> k in m
    ensures PutAll(map[], m, keys) == MetaTable(m)
  {
    forall key ensures key in PutAll(map[], m, keys) <==> key in m
               ensures key in m ==> PutAll(map[], m, keys)[key] == Text(m[key]) {
      PutAllAt(map[], m, keys, key);
    }
  }

  lemma {:induction false} ReadMetaDoc(m: map<string, string>, keys: seq<string>, rest: Doc, table: Table)
    requires Distinct(keys) && forall k | k in keys :: k in m && k !in table
    ensures ReadContent(MetaDoc(m, keys, rest), table) == ReadContent(rest, PutAll(table, m, keys))
  {
    if keys != [] {
      var k0, more := keys[0], keys[1..];
      assert keys == [k0] + more;
      assert k0 !in more;
      ReadMetaDoc(m, more, rest, table[k0 := Text(m[k0])]);
    }
  }

  lemma ReadAllMetas(m: map<string, string>, rest: Doc)
    ensures ReadContent(MetaDoc(m, SortedKeys(m), rest), map[]) == ReadContent(rest, MetaTable(m))
  {
    ReadMetaDoc(m, SortedKeys(m), rest, map[]);
    PutAllIsMeta(m, SortedKeys(m));
  }

  lemma ReadMetaSection(title: string, p: Place, m: map<string, string>, rest: Doc, t: Toml)
    requires Over(rest) && Opened(t, ReadTitle(title)) == Some(p)
    ensures ReadTables(if |m| > 0 then Then(Header(title), MetaDoc(m, SortedKeys(m), rest)) else rest, t)
         == ReadTables(rest, WithMetas(t, p, m))
  {
    if |m| > 0 {
      ReadAllMetas(m, rest);
      ReadSection(title, MetaDoc(m, SortedKeys(m), rest), MetaTable(m), rest, t, p);
    }
  }

  // ---------- proxies and visitors ----------

  /** Nothing is stored yet under an index the array has not reached. */
  predicate Fresh(t: Toml, name: string) {
    && Named(name) !in t.tables && name !in TableAt(t, Root)
    && forall p | p in t.tables :: (p.Element? || p.Inner?) && p.name == name ==> p.index < Count(t, name)
  }

  lemma ReadStart(name: string, kind: string, rest: Doc)
    ensures ReadContent(Then(Quoted("name", name), Then(Quoted("type", kind), rest)), map[])
         == ReadContent(rest, map["name" := Text(name), "type" := Text(kind)])
  {
    assert "name"[0] != "type"[0];
    assert map["name" := Text(name)]["type" := Text(kind)] == map["name" := Text(name), "type" := Text(kind)];
  }

  lemma ReadProxyHead(p: Proxy, rest: Doc)
    ensures ReadContent(Then(Quoted("name", p.name), Then(Quoted("type", p.kind),
              If(p.localIP != "", Quoted("localIP", p.localIP),
              If(p.localPort > 0, Number("localPort", p.localPort),
              If(p.remotePort > 0, Number("remotePort", p.remotePort), rest))))), map[])
         == ReadContent(rest, ProxyHead(p))
  {
    ProxyHeadKeys(p);
    var d2 := If(p.remotePort > 0, Number("remotePort", p.remotePort), rest);
    var d1 := If(p.localPort > 0, Number("localPort", p.localPort), d2);
    var t1: Table := map["name" := Text(p.name), "type" := Text(p.kind)];
    var t2 := Put(t1, p.localIP != "", "localIP", Text(p.localIP));
    var t3 := Put(t2, p.localPort > 0, "localPort", Int(p.localPort));
    ReadStart(p.name, p.kind, If(p.localIP != "", Quoted("localIP", p.localIP), d1));
    ReadPut(p.localIP != "", Quoted("localIP", p.localIP), d1, t1);
    ReadPut(p.localPort > 0, Number("localPort", p.localPort), d2, t2);
    ReadPut(p.remotePort > 0, Number("remotePort", p.remotePort), rest, t3);
  }

  lemma ReadProxyTail(p: Proxy, rest: Doc, table: Table)
    requires "secretKey" !in table && "customDomains" !in table && "hostHeaderRewrite" !in table
    ensures ReadContent(ProxyTailDoc(p, rest), table) == ReadContent(ProxyMetasDoc(p.metadatas, rest), ProxyTail(p, table))
  {
    ProxyTailKeys();
    var d3 := ProxyMetasDoc(p.metadatas, rest);
    var d2 := If(p.hostHeaderRewrite != "", Quoted("hostHeaderRewrite", p.hostHeaderRewrite), d3);
    var d1 := If(|p.customDomains| > 0, List("customDomains", p.customDomains), d2);
    var t1 := Put(table, p.secretKey != "", "secretKey", Text(p.secretKey));
    var t2 := Put(t1, |p.customDomains| > 0, "customDomains", Texts(p.customDomains));
    ReadPut(p.secretKey != "", Quoted("secretKey", p.secretKey), d1, table);
    ReadPut(|p.customDomains| > 0, List("customDomains", p.customDomains), d2, t1);
    ReadPut(p.hostHeaderRewrite != "", Quoted("hostHeaderRewrite", p.hostHeaderRewrite), d3, t2);
  }

  lemma ReadProxyContent(p: Proxy, rest: Doc)
    ensures ReadContent(ProxyDoc(p, rest).rest.rest, map[]) == ReadContent(ProxyMetasDoc(p.metadatas, rest), ProxyTable(p))
    ensures "metadatas" !in ProxyTable(p)
  {
    ProxyHeadKeys(p);
    ProxyTailKeys();
    ReadProxyHead(p, ProxyTailDoc(p, rest));
    ReadProxyTail(p, rest, ProxyHead(p));
  }

  /** A place in the named array at index n or beyond. */
  predicate Beyond(p: Place, name: string, n: int) {
    (p.Element? || p.Inner?) && p.name == name && p.index >= n
  }

  /** What is added lies beyond the old end of the one array. */
  ghost predicate Extends(t: Toml, after: Toml, name: string) {
    && (forall p | !Beyond(p, name, Count(t, name)) :: p in after.tables <==> p in t.tables)
    && (forall p | !Beyond(p, name, Count(t, name)) :: TableAt(after, p) == TableAt(t, p))
    && (forall k | k != name :: Count(after, k) == Count(t, k)) && Count(after, name) >= Count(t, name)
  }

  lemma StillFresh(t: Toml, after: Toml, name: string, other: string)
    requires Extends(t, after, name) && Fresh(t, other) && other != name
    ensures Fresh(after, other)
  {
    assert !Beyond(Root, name, Count(t, name)) && !Beyond(Named(other), name, Count(t, name));
  }

  /** The next element of an array, and a table inside it. */
  lemma NextElement(t: Toml, name: string, table: Table)
    requires Fresh(t, name)
    ensures var n := Count(t, name);
            var after := Add(t, Element(name, n), table);
            && Opened(t, ArrayTitle(name)) == Some(Element(name, n))
            && Extends(t, after, name) && Fresh(after, name) && Count(after, name) == n + 1
            && TableAt(after, Element(name, n)) == table
            && forall k :: TableAt(after, Inner(name, n, k)) == map[]
  {
    var n := Count(t, name);
    assert Beyond(Element(name, n), name, n);
    forall k ensures Inner(name, n, k) !in t.tables {
      if Inner(name, n, k) in t.tables {
        assert false;
      }
    }
  }

  lemma MetasInElement(t: Toml, name: string, inner: string, m: map<string, string>)
    requires Count(t, name) > 0 && Fresh(t, name)
    requires TableAt(t, Inner(name, Count(t, name) - 1, inner)) == map[]
    ensures var n := Count(t, name) - 1;
            var after := WithMetas(t, Inner(name, n, inner), m);
            && Fresh(after, name) && Count(after, name) == n + 1 && after.counts == t.counts
            && (forall p | p != Inner(name, n, inner) :: (p in after.tables <==> p in t.tables) && TableAt(after, p) == TableAt(t, p))
            && TableAt(after, Inner(name, n, inner)) == MetaTable(m)
  {
    assert |m| == 0 ==> m == map[] && MetaTable(m) == map[];
  }

  predicate Holds(t: Toml, name: string, n: int, s: Section) {
    TableAt(t, Element(name, n)) == s.table && TableAt(t, Inner(name, n, "metadatas")) == MetaTable(s.metas)
  }

  lemma SectionFacts(t: Toml, name: string, s: Section)
    requires Fresh(t, name)
    ensures var n, after := Count(t, name), WithSection(t, name, s);
            && Extends(t, after, name) && Fresh(after, name) && Count(after, name) == n + 1 && Holds(after, name, n, s)
  {
    var n := Count(t, name);
    NextElement(t, name, s.table);
    MetasInElement(Add(t, Element(name, n), s.table), name, "metadatas", s.metas);
    assert Beyond(Inner(name, n, "metadatas"), name, n);
  }

  lemma ExtendsOn(t: Toml, mid: Toml, after: Toml, name: string)
    requires Extends(t, mid, name) && Extends(mid, after, name)
    ensures Extends(t, after, name)
  {
  }

  lemma {:induction false} SectionsExtend(t: Toml, name: string, sections: seq<Section>)
    requires Fresh(t, name)
    ensures Extends(t, WithSections(t, name, sections), name)
    ensures Count(WithSections(t, name, sections), name) == Count(t, name) + |sections|
    decreases |sections|
  {
    if sections != [] {
      SectionFacts(t, name, sections[0]);
      SectionsExtend(WithSection(t, name, sections[0]), name, sections[1..]);
      ExtendsOn(t, WithSection(t, name, sections[0]), WithSections(t, name, sections), name);
    }
  }

  lemma KeptBelow(t: Toml, after: Toml, name: string, p: Place)
    requires Extends(t, after, name) && !Beyond(p, name, Count(t, name))
    ensures TableAt(after, p) == TableAt(t, p)
  {
  }

  lemma FirstSection(t: Toml, name: string, sections: seq<Section>)
    requires Fresh(t, name) && sections != []
    ensures Holds(WithSections(t, name, sections), name, Count(t, name), sections[0])
  {
    var n, mid, more := Count(t, name), WithSection(t, name, sections[0]), sections[1..];
    SectionFacts(t, name, sections[0]);
    SectionsExtend(mid, name, more);
    KeptBelow(mid, WithSections(mid, name, more), name, Element(name, n));
    KeptBelow(mid, WithSections(mid, name, more), name, Inner(name, n, "metadatas"));
  }

  lemma OneMore(t: Toml, name: string, s: Section)
    requires Fresh(t, name)
    ensures Fresh(WithSection(t, name, s), name) && Count(WithSection(t, name, s), name) == Count(t, name) + 1
  {
    SectionFacts(t, name, s);
  }

  /** The elements from index n on are these. */
  predicate HoldsFrom(t: Toml, name: string, n: int, sections: seq<Section>)
    decreases |sections|
  {
    sections == [] || (Holds(t, name, n, sections[0]) && HoldsFrom(t, name, n + 1, sections[1..]))
  }

  lemma {:induction false} SectionsFound(t: Toml, name: string, sections: seq<Section>)
    requires Fresh(t, name)
    ensures HoldsFrom(WithSections(t, name, sections), name, Count(t, name), sections)
    decreases |sections|
  {
    if sections != [] {
      OneMore(t, name, sections[0]);
      SectionsFound(WithSection(t, name, sections[0]), name, sections[1..]);
      FirstSection(t, name, sections);
    }
  }

  lemma {:induction false} SectionAt(t: Toml, name: string, n: int, sections: seq<Section>, i: nat)
    requires HoldsFrom(t, name, n, sections) && i < |sections|
    ensures Holds(t, name, n + i, sections[i])
    decreases i
  {
    if i > 0 {
      SectionAt(t, name, n + 1, sections[1..], i - 1);
    }
  }

  lemma ReadProxy(p: Proxy, rest: Doc, t: Toml)
    requires Over(rest) && Fresh(t, "proxies")
    ensures ReadTables(ProxyDoc(p, rest), t) == ReadTables(rest, WithSection(t, "proxies", Section(ProxyTable(p), p.metadatas)))
  {
    var n := Count(t, "proxies");
    var t1 := Add(t, Element("proxies", n), ProxyTable(p));
    ArrayTitlesMean();
    MetasTitleMeans();
    NextElement(t, "proxies", ProxyTable(p));
    ReadProxyContent(p, rest);
    ReadSection("[[proxies]]", ProxyDoc(p, rest).rest.rest, ProxyTable(p), ProxyMetasDoc(p.metadatas, rest), t, Element("proxies", n));
    assert Inner("proxies", n, "metadatas") !in t1.tables;
    ReadMetaSection("[proxies.metadatas]", Inner("proxies", n, "metadatas"), p.metadatas, rest, t1);
  }

  lemma FirstProxySection(ps: seq<Proxy>)
    requires ps != []
    ensures ProxySections(ps)[0] == Section(ProxyTable(ps[0]), ps[0].metadatas) && ProxySections(ps)[1..] == ProxySections(ps[1..])
  {
  }

  lemma {:induction false} ReadProxies(ps: seq<Proxy>, rest: Doc, t: Toml)
    requires Over(rest) && Fresh(t, "proxies")
    ensures ReadTables(ProxiesDoc(ps, rest), t) == ReadTables(rest, WithSections(t, "proxies", ProxySections(ps)))
    ensures Over(ProxiesDoc(ps, rest))
    decreases |ps|
  {
    if ps != [] {
      var first := ProxySections(ps)[0];
      FirstProxySection(ps);
      OneMore(t, "proxies", first);
      ReadProxies(ps[1..], rest, WithSection(t, "proxies", first));
      ReadProxy(ps[0], ProxiesDoc(ps[1..], rest), t);
    }
  }

  lemma ReadVisitorContent(v: Visitor, rest: Doc)
    ensures ReadContent(VisitorDoc(v, rest).rest.rest, map[]) == ReadContent(rest, VisitorTable(v))
  {
    VisitorKeys();
    var bind := DefaultString(v.bindAddr, "127.0.0.1");
    var d2 := Then(Quoted("bindAddr", bind), Then(Number("bindPort", v.bindPort), rest));
    var d1 := Then(Quoted("serverName", v.serverName), Then(Quoted("secretKey", v.secretKey), d2));
    var t1: Table := map["name" := Text(v.name), "type" := Text(v.kind)];
    var t2 := t1["serverName" := Text(v.serverName)]["secretKey" := Text(v.secretKey)];
    ReadStart(v.name, v.kind, d1);
    assert ReadContent(d1, t1) == ReadContent(d2, t2);
    assert ReadContent(d2, t2) == ReadContent(rest, t2["bindAddr" := Text(bind)]["bindPort" := Int(v.bindPort)]);
    assert t2["bindAddr" := Text(bind)]["bindPort" := Int(v.bindPort)] == VisitorTable(v);
  }

  lemma ReadVisitor(v: Visitor, rest: Doc, t: Toml)
    requires Over(rest) && Fresh(t, "visitors")
    ensures ReadTables(VisitorDoc(v, rest), t) == ReadTables(rest, WithSection(t, "visitors", Section(VisitorTable(v), map[])))
  {
    ArrayTitlesMean();
    NextElement(t, "visitors", VisitorTable(v));
    ReadVisitorContent(v, rest);
    ReadSection("[[visitors]]", VisitorDoc(v, rest).rest.rest, VisitorTable(v), rest, t, Element("visitors", Count(t, "visitors")));
  }

  lemma FirstVisitorSection(vs: seq<Visitor>)
    requires vs != []
    ensures VisitorSections(vs)[0] == Section(VisitorTable(vs[0]), map[]) && VisitorSections(vs)[1..] == VisitorSections(vs[1..])
  {
  }

  lemma {:induction false} ReadVisitors(vs: seq<Visitor>, t: Toml)
    requires Fresh(t, "visitors")
    ensures ReadTables(VisitorsDoc(vs), t) == Some(WithSections(t, "visitors", VisitorSections(vs)))
    ensures Over(VisitorsDoc(vs))
    decreases |vs|
  {
    if vs != [] {
      var first := VisitorSections(vs)[0];
      FirstVisitorSection(vs);
      OneMore(t, "visitors", first);
      ReadVisitors(vs[1..], WithSection(t, "visitors", first));
      ReadVisitor(vs[0], VisitorsDoc(vs[1..]), t);
    }
  }

  // ---------- the whole document ----------

  lemma ReadServerContent(cfg: ClientConfig, rest: Doc)
    requires Over(rest)
    ensures var d := Then(Quoted("serverAddr", cfg.serverAddr), Then(Number("serverPort", cfg.serverPort),
                     If(cfg.natHoleStunServer != "", Quoted("natHoleStunServer", cfg.natHoleStunServer), rest)));
            ReadContent(d, map[]) == ReadContent(rest, ServerTable(cfg))
  {
    HeadKeys();
    var t1: Table := map["serverAddr" := Text(cfg.serverAddr), "serverPort" := Int(cfg.serverPort)];
    assert map["serverAddr" := Text(cfg.serverAddr)]["serverPort" := Int(cfg.serverPort)] == t1;
    ReadPut(cfg.natHoleStunServer != "", Quoted("natHoleStunServer", cfg.natHoleStunServer), rest, t1);
  }

  lemma ReadAuthContent(cfg: ClientConfig, rest: Doc)
    ensures ReadContent(Then(Quoted("method", DefaultString(cfg.authMethod, "token")), Then(Quoted("token", cfg.authToken), rest)), map[])
         == ReadContent(rest, AuthTable(cfg))
  {
    HeadKeys();
    assert map["method" := Text(DefaultString(cfg.authMethod, "token"))]["token" := Text(cfg.authToken)] == AuthTable(cfg);
  }

  lemma ReadWebServerContent(cfg: ClientConfig, rest: Doc)
    ensures ReadContent(WebServerDoc(cfg, rest).rest.rest, map[]) == ReadContent(rest, WebServerTable(cfg))
  {
    HeadKeys();
    var addr, port := DefaultString(cfg.adminAddr, "127.0.0.1"), DefaultInt(cfg.adminPort, 7400);
    var user := DefaultString(cfg.adminUser, "admin");
    var d2 := Then(Quoted("user", user), Then(Quoted("password", cfg.adminPassword), rest));
    var t1: Table := map["addr" := Text(addr), "port" := Int(port)];
    assert map["addr" := Text(addr)]["port" := Int(port)] == t1;
    ReadPut(true, Quoted("addr", addr), Then(Number("port", port), d2), map[]);
    ReadPut(true, Number("port", port), d2, map["addr" := Text(addr)]);
    ReadPut(true, Quoted("user", user), Then(Quoted("password", cfg.adminPassword), rest), t1);
    ReadPut(true, Quoted("password", cfg.adminPassword), rest, t1["user" := Text(user)]);
    assert t1["user" := Text(user)]["password" := Text(cfg.adminPassword)] == WebServerTable(cfg);
  }

  lemma ReadAuth(cfg: ClientConfig, rest: Doc, t: Toml)
    requires Over(rest) && Opened(t, TableTitle("auth")) == Some(Named("auth"))
    ensures ReadTables(Then(Blank, Then(Header("[auth]"),
              Then(Quoted("method", DefaultString(cfg.authMethod, "token")), Then(Quoted("token", cfg.authToken), rest)))), t)
         == ReadTables(rest, Add(t, Named("auth"), AuthTable(cfg)))
  {
    TitlesMean();
    ReadAuthContent(cfg, rest);
    ReadSection("[auth]", Then(Quoted("method", DefaultString(cfg.authMethod, "token")), Then(Quoted("token", cfg.authToken), rest)),
                AuthTable(cfg), rest, t, Named("auth"));
  }

  lemma ReadWebServer(cfg: ClientConfig, rest: Doc, t: Toml)
    requires Over(rest) && Opened(t, TableTitle("webServer")) == Some(Named("webServer"))
    ensures ReadTables(WebServerDoc(cfg, rest), t) == ReadTables(rest, Add(t, Named("webServer"), WebServerTable(cfg)))
  {
    TitlesMean();
    ReadWebServerContent(cfg, rest);
    ReadSection("[webServer]", WebServerDoc(cfg, rest).rest.rest, WebServerTable(cfg), rest, t, Named("webServer"));
  }

  lemma HeadNames(cfg: ClientConfig)
    ensures var t0 := Toml(map[Root := ServerTable(cfg)], map[]);
            var t1 := Add(t0, Named("auth"), AuthTable(cfg));
            && Opened(t0, TableTitle("auth")) == Some(Named("auth"))
            && Opened(t1, TableTitle("webServer")) == Some(Named("webServer"))
            && Add(t1, Named("webServer"), WebServerTable(cfg)) == HeadOf(cfg)
  {
    NamesDiffer();
  }

  lemma ReadHead(cfg: ClientConfig, rest: Doc)
    requires Over(rest)
    ensures var d := ServerDoc(cfg, WebServerDoc(cfg, rest));
            && ReadContent(d, map[]).Some?
            && var c := ReadContent(d, map[]).value;
               ReadTables(c.rest, Toml(map[Root := c.table], map[])) == ReadTables(rest, HeadOf(cfg))
  {
    var t0 := Toml(map[Root := ServerTable(cfg)], map[]);
    var web := WebServerDoc(cfg, rest);
    var section := Then(Blank, Then(Header("[auth]"),
      Then(Quoted("method", DefaultString(cfg.authMethod, "token")), Then(Quoted("token", cfg.authToken), web))));
    HeadNames(cfg);
    ReadServerContent(cfg, section);
    OverEnds(section, ServerTable(cfg));
    ReadAuth(cfg, web, t0);
    ReadWebServer(cfg, rest, Add(t0, Named("auth"), AuthTable(cfg)));
  }

  lemma ServerNames(cfg: ClientConfig)
    ensures forall k | k in ServerTable(cfg) :: k in {"serverAddr", "serverPort", "natHoleStunServer"}
  {
  }

  lemma HeadFresh(cfg: ClientConfig)
    ensures var t := WithMetas(HeadOf(cfg), Named("metadatas"), GlobalMetas(cfg));
            Fresh(t, "proxies") && Fresh(t, "visitors") && Count(t, "proxies") == 0 && Count(t, "visitors") == 0
    ensures Opened(HeadOf(cfg), TableTitle("metadatas")) == Some(Named("metadatas"))
  {
    NamesDiffer();
    ServerNames(cfg);
  }

  /** Every rendered document is a TOML document: no table, array or key is defined twice. */
  lemma ReadConfigDoc(cfg: ClientConfig)
    ensures ReadToml(ConfigDoc(cfg)) == Some(TomlOf(cfg))
  {
    var t := WithMetas(HeadOf(cfg), Named("metadatas"), GlobalMetas(cfg));
    var visitors := VisitorsDoc(cfg.visitors);
    var proxies := ProxiesDoc(cfg.proxies, visitors);
    HeadFresh(cfg);
    TitlesMean();
    NamesDiffer();
    SectionsExtend(t, "proxies", ProxySections(cfg.proxies));
    StillFresh(t, WithSections(t, "proxies", ProxySections(cfg.proxies)), "proxies", "visitors");
    ReadVisitors(cfg.visitors, WithSections(t, "proxies", ProxySections(cfg.proxies)));
    ReadProxies(cfg.proxies, visitors, t);
    ReadMetaSection("[metadatas]", Named("metadatas"), GlobalMetas(cfg), proxies, HeadOf(cfg));
    ReadHead(cfg, GlobalMetasDoc(GlobalMetas(cfg), proxies));
  }
}
