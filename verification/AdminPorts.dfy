/** Admin ports of the frpc processes: a stable hash picks a candidate, linear probing resolves clashes
    (internal/client/service.go, assignAdminPorts, candidateAdminPort, stableSmallHash). */
module AdminPorts {
  import opened Bits
  import opened Order

  const DEFAULT_NODE_ID: string := "default"
  const MAX_PORT: int := 65535
  const HASH_SEED: int := 2166136261
  const HASH_PRIME: int := 16777619
  const SPAN: int := 10000

  // ---------- the hash ----------

  /** One character: exclusive or, 64-bit multiply, and negation of a negative product. */
  function HashStep(h: int, r: char): (next: int)
    requires 0 <= h < TWO63
    ensures 0 <= next < TWO63
  {
    var x := Xor(h, r as int);
    HashStepInRange(h, r);
    var m := Wrap64(x * HASH_PRIME);
    if m < 0 then Wrap64(-m) else m
  }

  lemma HashStepInRange(h: int, r: char)
    requires 0 <= h < TWO63
    ensures Xor(h, r as int) < TWO63
    ensures Wrap64(Xor(h, r as int) * HASH_PRIME) != -TWO63
  {
    Pow2Is63();
    XorBound(h, r as int, 63);
    OddMultipleMissesMinimum(Xor(h, r as int), HASH_PRIME);
  }

  function Hash(v: string): (h: int)
    ensures 0 <= h < TWO63
  {
    if v == "" then HASH_SEED else HashStep(Hash(v[..|v| - 1]), v[|v| - 1])
  }

  lemma HashGrows(v: string, i: nat)
    requires i < |v|
    ensures Hash(v[..i + 1]) == HashStep(Hash(v[..i]), v[i])
  {
    assert v[..i + 1][..i] == v[..i];
  }

  /** The source's loop. The negation of the smallest 64-bit integer would stay negative; no input
      reaches it, so the result is never negative. */
  method StableSmallHash(v: string) returns (h: int)
    ensures h == Hash(v)
    ensures h >= 0
  {
    h := HASH_SEED;
    for i := 0 to |v|
      invariant 0 <= h < TWO63 && h == Hash(v[..i])
    {
      HashGrows(v, i);
      var x := Xor(h, v[i] as int);
      HashStepInRange(h, v[i]);
      h := Wrap64(x * HASH_PRIME);
      if h < 0 {
        h := Wrap64(-h);
      }
    }
    assert v[..|v|] == v;
  }

  /** A candidate above 65535 folds back into 1024..65535. */
  function Candidate(base: int, id: string): (port: int) {
    var p := base + Hash(id) % SPAN + 1;
    if p > MAX_PORT then
      var q := 1024 + (p - 1024) % 64512;
      if q == base then q + 1 else q
    else p
  }

  /** Each character multiplies by the prime 16777619, up to a multiple of 2^64 and the sign. */
  lemma HashStepMeans(h: int, r: char)
    requires 0 <= h < TWO63
    ensures var product := Xor(h, r as int) * 16777619;
            (HashStep(h, r) - product) % TWO64 == 0 || (HashStep(h, r) + product) % TWO64 == 0
  {
    var product := Xor(h, r as int) * HASH_PRIME;
    var m := Wrap64(product);
    HashStepInRange(h, r);
    if m < 0 {
      assert Wrap64(-m) == -m;
      assert (product - m) % TWO64 == 0;
      assert -m + product == product - m;
    } else {
      assert (product - m) % TWO64 == 0;
      assert m - product == -(product - m);
    }
  }

  /** The candidate lies up to 10000 above the base, or folds back to above 1023 when it does not fit. */
  lemma CandidateOf(base: int, id: string)
    ensures Candidate(base, id)
         == var p := base + Hash(id) % 10000 + 1;
            if p <= 65535 then p else if 1024 + (p - 1024) % 64512 == base then base + 1 else 1024 + (p - 1024) % 64512
    ensures Hash("") == 2166136261 && Candidate(7400, "") == 13662 && Candidate(65000, "") == 6750
  {
  }

  /** A candidate is a valid port other than the base. One that folded lies at least 54512 below it. */
  lemma CandidateRange(base: int, id: string)
    requires 1 <= base <= MAX_PORT
    ensures 1 <= Candidate(base, id) <= MAX_PORT
    ensures Candidate(base, id) != base
    ensures base < Candidate(base, id) <= base + SPAN || Candidate(base, id) + 54512 <= base
    ensures base <= MAX_PORT - SPAN ==> base < Candidate(base, id)
  {
    var p := base + Hash(id) % SPAN + 1;
    if p > MAX_PORT {
      assert 64512 <= p - 1024 < 2 * 64512;
      assert (p - 1024) % 64512 == p - 1024 - 64512;
    }
  }

  // ---------- probing ----------

  predicate Available(port: int, used: map<int, string>, id: string) {
    port !in used || used[port] == id
  }

  /** The port the loop tries after `p`. */
  function NextPort(base: int, p: int): int {
    if p + 1 > MAX_PORT then base + 1 else p + 1
  }

  datatype Probe = Found(port: int) | Exhausted | Endless

  /** What the probing loop does from `p`: it stops at a port that is free or the id's own, gives up when
      a step lands on the base, and otherwise wraps to base + 1. `wrapped` records one wrap; having to
      wrap again means that the loop never ends. */
  function ProbeFrom(base: int, p: int, used: map<int, string>, id: string, wrapped: bool): (r: Probe)
    ensures r.Found? ==> Available(r.port, used, id)
    decreases !wrapped, MAX_PORT - p
  {
    if Available(p, used, id) then Found(p)
    else if NextPort(base, p) == base then Exhausted
    else if p + 1 > MAX_PORT then
      if wrapped then Endless else ProbeFrom(base, base + 1, used, id, true)
    else ProbeFrom(base, p + 1, used, id, wrapped)
  }

  ghost predicate FreeBetween(lo: int, hi: int, used: map<int, string>, id: string) {
    exists f | lo <= f <= hi :: Available(f, used, id)
  }

  ghost predicate Filled(used: map<int, string>, lo: int, hi: int) {
    forall p | lo <= p < hi :: p in used
  }

  /** Above the base the loop ends exactly when a port above the base is available, and it never meets
      the base. */
  lemma {:induction false} ProbeAbove(base: int, p: int, used: map<int, string>, id: string, wrapped: bool)
    requires 1 <= base < p <= MAX_PORT
    requires wrapped ==> !FreeBetween(base + 1, p - 1, used, id)
    ensures FreeBetween(base + 1, MAX_PORT, used, id) ==>
              var r := ProbeFrom(base, p, used, id, wrapped);
              r.Found? && base < r.port <= MAX_PORT && Available(r.port, used, id)
    ensures !FreeBetween(base + 1, MAX_PORT, used, id) ==> ProbeFrom(base, p, used, id, wrapped) == Endless
    decreases !wrapped, MAX_PORT - p
  {
    if Available(p, used, id) {
      assert FreeBetween(base + 1, MAX_PORT, used, id);
    } else if p == MAX_PORT {
      if wrapped {
        assert !FreeBetween(base + 1, MAX_PORT, used, id) by {
          forall f | base + 1 <= f <= MAX_PORT ensures !Available(f, used, id) { assert f <= p - 1 || f == p; }
        }
      } else {
        ProbeAbove(base, base + 1, used, id, true);
      }
    } else {
      ProbeAbove(base, p + 1, used, id, wrapped);
    }
  }

  /** Below the base the loop takes the first available port before the base, or gives up there. */
  lemma {:induction false} ProbeBelow(base: int, p: int, used: map<int, string>, id: string)
    requires 1 <= p < base <= MAX_PORT
    ensures FreeBetween(p, base - 1, used, id) ==>
              var r := ProbeFrom(base, p, used, id, false);
              r.Found? && p <= r.port < base && Available(r.port, used, id) && Filled(used, p, r.port)
    ensures !FreeBetween(p, base - 1, used, id) ==> ProbeFrom(base, p, used, id, false) == Exhausted
    decreases base - p
  {
    if Available(p, used, id) {
      assert FreeBetween(p, base - 1, used, id);
    } else if p + 1 < base {
      ProbeBelow(base, p + 1, used, id);
      if f :| p <= f <= base - 1 && Available(f, used, id) {
        assert FreeBetween(p + 1, base - 1, used, id);
      }
    }
  }

  /** The k-th port the loop tries from `p`. */
  function Tried(base: int, p: int, k: nat): int {
    if k == 0 then p else NextPort(base, Tried(base, p, k - 1))
  }

  /** After k steps the loop has met neither of its exits. */
  predicate StillProbing(base: int, p: int, used: map<int, string>, id: string, k: nat) {
    !Available(Tried(base, p, k), used, id) && NextPort(base, Tried(base, p, k)) != base
  }

  /** Neither exit lies between `lo` and the highest port. */
  ghost predicate Stuck(base: int, lo: int, used: map<int, string>, id: string) {
    forall q | q == lo || lo <= q <= MAX_PORT :: !Available(q, used, id) && NextPort(base, q) != base
  }

  lemma {:induction false} EndlessIsStuck(base: int, p: int, used: map<int, string>, id: string, wrapped: bool)
    requires ProbeFrom(base, p, used, id, wrapped) == Endless
    ensures Stuck(base, p, used, id) && (!wrapped ==> Stuck(base, base + 1, used, id))
    decreases !wrapped, MAX_PORT - p
  {
    if p + 1 > MAX_PORT {
      if !wrapped { EndlessIsStuck(base, base + 1, used, id, true); }
    } else {
      EndlessIsStuck(base, p + 1, used, id, wrapped);
    }
  }

  lemma {:induction false} TriedStaysStuck(base: int, p: int, used: map<int, string>, id: string, k: nat)
    requires Stuck(base, p, used, id) && Stuck(base, base + 1, used, id)
    ensures var q := Tried(base, p, k); q == p || p <= q <= MAX_PORT || q == base + 1 || base + 1 <= q <= MAX_PORT
  {
    if k > 0 { TriedStaysStuck(base, p, used, id, k - 1); }
  }

  lemma {:induction false} TriedShift(base: int, p: int, k: nat)
    ensures Tried(base, p, k + 1) == Tried(base, NextPort(base, p), k)
  {
    if k > 0 { TriedShift(base, p, k - 1); }
  }

  /** Otherwise it ends after some steps: on the first port it tries that is available, or, when a step lands on the
      base before that, without one. */
  lemma {:induction false} ProbeExits(base: int, p: int, used: map<int, string>, id: string, wrapped: bool) returns (k: nat)
    requires ProbeFrom(base, p, used, id, wrapped) != Endless
    ensures forall j: nat | j < k :: StillProbing(base, p, used, id, j)
    ensures var q := Tried(base, p, k);
            if Available(q, used, id) then ProbeFrom(base, p, used, id, wrapped) == Found(q)
            else NextPort(base, q) == base && ProbeFrom(base, p, used, id, wrapped) == Exhausted
    decreases !wrapped, MAX_PORT - p
  {
    if Available(p, used, id) || NextPort(base, p) == base {
      k := 0;
    } else {
      var i := ProbeExits(base, NextPort(base, p), used, id, wrapped || p + 1 > MAX_PORT);
      k := i + 1;
      TriedShift(base, p, i);
      forall j: nat | j < k ensures StillProbing(base, p, used, id, j) {
        if j > 0 {
          TriedShift(base, p, j - 1);
          assert StillProbing(base, NextPort(base, p), used, id, j - 1);
        }
      }
    }
  }

  /** The source's loop runs for ever, for any base and start, exactly when it would have to wrap twice. */
  lemma EndlessNeverExits(base: int, p: int, used: map<int, string>, id: string)
    ensures ProbeFrom(base, p, used, id, false) == Endless <==> forall k: nat :: StillProbing(base, p, used, id, k)
  {
    if ProbeFrom(base, p, used, id, false) == Endless {
      EndlessIsStuck(base, p, used, id, false);
      forall k: nat ensures StillProbing(base, p, used, id, k) {
        TriedStaysStuck(base, p, used, id, k);
      }
    } else {
      var k := ProbeExits(base, p, used, id, false);
      assert !StillProbing(base, p, used, id, k);
    }
  }

  // ---------- the assignment ----------

  datatype Assignment =
    | Assigned(ports: map<string, int>, used: map<int, string>)
    | NotEnough
    | BadPort
    | NeverReturns

  function BaseOf(adminPort: int): int {
    if adminPort == 0 then 7400 else adminPort
  }

  function StartPort(base: int, id: string): int {
    if id == DEFAULT_NODE_ID then base else Candidate(base, id)
  }

  function AssignOne(base: int, id: string, ports: map<string, int>, used: map<int, string>): Assignment {
    match ProbeFrom(base, StartPort(base, id), used, id, false)
    case Exhausted => NotEnough
    case Endless => NeverReturns
    case Found(port) =>
      if 1 <= port <= MAX_PORT then Assigned(ports[id := port], used[port := id]) else BadPort
  }

  function Assign(base: int, ids: seq<string>): Assignment {
    if ids == [] then Assigned(map[], map[])
    else
      var before := Assign(base, ids[..|ids| - 1]);
      if before.Assigned? then AssignOne(base, ids[|ids| - 1], before.ports, before.used) else before
  }

  lemma {:induction false} AssignFails(base: int, ids: seq<string>, n: nat)
    requires n <= |ids| && !Assign(base, ids[..n]).Assigned?
    ensures Assign(base, ids) == Assign(base, ids[..n])
    decreases |ids| - n
  {
    if n < |ids| {
      assert ids[..n + 1][..n] == ids[..n];
      AssignFails(base, ids, n + 1);
    } else {
      assert ids[..n] == ids;
    }
  }

  /** A completed assignment covers the ids it was asked for, and no others. */
  lemma {:induction false} AssignedCovers(base: int, ids: seq<string>)
    ensures Assign(base, ids).Assigned? ==> forall id :: id in Assign(base, ids).ports <==> id in ids
  {
    if ids != [] {
      AssignedCovers(base, ids[..|ids| - 1]);
      assert ids == ids[..|ids| - 1] + [ids[|ids| - 1]];
    }
  }

  /** Probing again from where an id started finds its port again. */
  ghost predicate Steady(base: int, ports: map<string, int>, used: map<int, string>) {
    forall id | id in ports ::
      && ports[id] in used && used[ports[id]] == id
      && ProbeFrom(base, StartPort(base, id), used, id, false) == Found(ports[id])
  }

  lemma {:induction false} ProbeKeeps(base: int, p: int, used: map<int, string>, id: string, wrapped: bool, port: int, other: string)
    requires ProbeFrom(base, p, used, id, wrapped).Found? && port !in used
    requires var q := ProbeFrom(base, p, used, id, wrapped).port; q in used && used[q] == id
    ensures ProbeFrom(base, p, used[port := other], id, wrapped) == ProbeFrom(base, p, used, id, wrapped)
    decreases !wrapped, MAX_PORT - p
  {
    if !Available(p, used, id) && NextPort(base, p) != base {
      if p + 1 > MAX_PORT {
        ProbeKeeps(base, base + 1, used, id, true, port, other);
      } else {
        ProbeKeeps(base, p + 1, used, id, wrapped, port, other);
      }
    }
  }

  lemma {:induction false} ProbeFindsOwn(base: int, p: int, used: map<int, string>, id: string, wrapped: bool)
    requires ProbeFrom(base, p, used, id, wrapped).Found?
    ensures var q := ProbeFrom(base, p, used, id, wrapped).port;
            ProbeFrom(base, p, used[q := id], id, wrapped) == Found(q)
    decreases !wrapped, MAX_PORT - p
  {
    if !Available(p, used, id) && NextPort(base, p) != base {
      if p + 1 > MAX_PORT {
        ProbeFindsOwn(base, base + 1, used, id, true);
      } else {
        ProbeFindsOwn(base, p + 1, used, id, wrapped);
      }
    }
  }

  lemma AssignOneSteady(base: int, id: string, ports: map<string, int>, used: map<int, string>)
    requires Steady(base, ports, used) && (id !in ports ==> forall p | p in used :: used[p] != id)
    ensures var r := AssignOne(base, id, ports, used); r.Assigned? ==> Steady(base, r.ports, r.used)
  {
    var probe := ProbeFrom(base, StartPort(base, id), used, id, false);
    if id in ports {
      assert ports[id := ports[id]] == ports && used[ports[id] := id] == used;
    } else if probe.Found? {
      ProbeFindsOwn(base, StartPort(base, id), used, id, false);
      forall i | i in ports
        ensures ProbeFrom(base, StartPort(base, i), used[probe.port := id], i, false) == Found(ports[i])
      {
        ProbeKeeps(base, StartPort(base, i), used, i, false, probe.port, id);
      }
    }
  }

  lemma {:induction false} AssignedSteady(base: int, ids: seq<string>)
    requires Assign(base, ids).Assigned?
    ensures var r := Assign(base, ids); Steady(base, r.ports, r.used) && forall p | p in r.used :: r.used[p] in r.ports
  {
    if ids != [] {
      var before, id := ids[..|ids| - 1], ids[|ids| - 1];
      AssignedSteady(base, before);
      AssignOneSteady(base, id, Assign(base, before).ports, Assign(base, before).used);
    }
  }

  /** Every port has the one owner that `used` records. */
  ghost predicate Owned(ports: map<string, int>, used: map<int, string>) {
    && (forall id | id in ports :: 1 <= ports[id] <= MAX_PORT && ports[id] in used && used[ports[id]] == id)
    && (forall p | p in used :: used[p] in ports)
  }

  lemma AssignOneOwned(base: int, id: string, ports: map<string, int>, used: map<int, string>)
    requires Owned(ports, used) && Steady(base, ports, used)
    ensures var r := AssignOne(base, id, ports, used); r.Assigned? ==> Owned(r.ports, r.used)
  {
  }

  /** Whatever the base, a completed assignment gives valid ports, no two ids the same. */
  lemma {:induction false} AssignedApart(base: int, ids: seq<string>)
    requires Assign(base, ids).Assigned?
    ensures Owned(Assign(base, ids).ports, Assign(base, ids).used)
  {
    if ids != [] {
      var before, id := ids[..|ids| - 1], ids[|ids| - 1];
      AssignedApart(base, before);
      AssignedSteady(base, before);
      AssignOneOwned(base, id, Assign(base, before).ports, Assign(base, before).used);
    }
  }

  /** The source's inner loop. Where the source would wrap a second time, and so go round for ever, the
      method stops and says so. */
  method ProbePort(base: int, start: int, used: map<int, string>, id: string) returns (r: Probe)
    ensures r == ProbeFrom(base, start, used, id, false)
  {
    var port := start;
    var wrapped := false;
    while true
      invariant ProbeFrom(base, port, used, id, wrapped) == ProbeFrom(base, start, used, id, false)
      decreases !wrapped, MAX_PORT - port
    {
      if Available(port, used, id) {
        return Found(port);
      }
      port := port + 1;
      if port > MAX_PORT {
        port := base + 1;
        if wrapped {
          return Endless;
        }
        wrapped := true;
      }
      if port == base {
        return Exhausted;
      }
    }
  }

  /** The source's outer loop. */
  method AssignAdminPorts(adminPort: int, ids: seq<string>) returns (r: Assignment)
    ensures r == Assign(BaseOf(adminPort), ids)
  {
    var base := BaseOf(adminPort);
    var used: map<int, string> := map[];
    var out: map<string, int> := map[];
    for i := 0 to |ids|
      invariant Assign(base, ids[..i]) == Assigned(out, used)
    {
      var id := ids[i];
      assert ids[..i + 1][..i] == ids[..i];
      var next := AssignOne(base, id, out, used);
      assert Assign(base, ids[..i + 1]) == next;
      if !next.Assigned? { AssignFails(base, ids, i + 1); }
      var probe := ProbePort(base, StartPort(base, id), used, id);
      if probe.Exhausted? {
        return NotEnough;
      }
      if probe.Endless? {
        return NeverReturns;
      }
      if !(1 <= probe.port <= MAX_PORT) {
        return BadPort;
      }
      used := used[probe.port := id];
      out := out[id := probe.port];
    }
    assert ids[..|ids|] == ids;
    r := Assigned(out, used);
  }

  // ---------- what the assignment guarantees ----------

  ghost predicate Consistent(base: int, ids: seq<string>, ports: map<string, int>, used: map<int, string>) {
    && (forall id :: id in ports <==> id in ids)
    && (forall id | id in ports :: 1 <= ports[id] <= MAX_PORT && ports[id] in used && used[ports[id]] == id)
    && (forall p | p in used :: used[p] in ports && ports[used[p]] == p)
    && (forall id | id in ports :: ports[id] == base <==> id == DEFAULT_NODE_ID)
  }

  predicate IsAbove(base: int, id: string) { id != DEFAULT_NODE_ID && Candidate(base, id) > base }

  predicate IsBelow(base: int, id: string) { id != DEFAULT_NODE_ID && Candidate(base, id) < base }

  /** The ids whose candidate lies above the base. */
  function AboveIds(base: int, ids: seq<string>): set<string> {
    set id | id in ids && IsAbove(base, id)
  }

  /** The ids whose candidate folded below the base, to `c` or higher. */
  function BelowFrom(base: int, ids: seq<string>, c: int): set<string> {
    set id | id in ids && IsBelow(base, id) && c <= Candidate(base, id)
  }

  /** From no port below the base on do more ids start than there are ports left before the base. */
  ghost predicate Parks(base: int, ids: seq<string>) {
    forall c | 1 <= c < base :: |BelowFrom(base, ids, c)| <= base - c
  }

  /** Room for every id: above the base, where probing goes round, and below it, where it does not. */
  ghost predicate Assignable(base: int, ids: seq<string>) {
    |AboveIds(base, ids)| <= MAX_PORT - base && Parks(base, ids)
  }

  /** Ids stay on their side of the base, those below with no gap after their candidate. */
  ghost predicate Placed(base: int, ids: seq<string>, ports: map<string, int>, used: map<int, string>) {
    && (forall id | id in AboveIds(base, ids) :: id in ports && base < ports[id] <= MAX_PORT)
    && (forall id | id in BelowFrom(base, ids, 1) ::
          id in ports && Candidate(base, id) <= ports[id] < base && Filled(used, Candidate(base, id), ports[id]))
  }

  // ---------- counting ----------

  lemma {:induction false} ImageExact(m: map<string, int>, s: set<string>)
    requires s <= m.Keys
    requires forall x, y | x in s && y in s && m[x] == m[y] :: x == y
    ensures |set id | id in s :: m[id]| == |s|
  {
    if s != {} {
      var x :| x in s;
      ImageExact(m, s - {x});
      assert (set id | id in s :: m[id]) == (set id | id in s - {x} :: m[id]) + {m[x]};
    }
  }

  /** The ports from `lo` up to, but not including, `hi`. */
  function Ports(lo: int, hi: int): (s: set<int>)
    requires lo <= hi
    ensures forall p :: p in s <==> lo <= p < hi
    ensures |s| == hi - lo
    decreases hi - lo
  {
    if lo == hi then {} else Ports(lo, hi - 1) + {hi - 1}
  }

  lemma Subset<T>(a: set<T>, b: set<T>)
    requires a <= b
    ensures |a| <= |b|
    ensures |a| >= |b| ==> a == b
  {
    assert b == a + (b - a);
    assert |b| == |a| + |b - a|;
  }

  /** Ids with different ports in a range are at most as many as its ports, and as many only when the range
      is full. */
  lemma FitRange(base: int, ids: seq<string>, ports: map<string, int>, used: map<int, string>, s: set<string>, lo: int, hi: int)
    requires Consistent(base, ids, ports, used) && lo <= hi
    requires forall id | id in s :: id in ports && lo <= ports[id] < hi
    ensures |s| <= hi - lo
    ensures |s| == hi - lo ==> Filled(used, lo, hi)
  {
    var taken := set id | id in s :: ports[id];
    assert s <= ports.Keys;
    assert forall x, y | x in s && y in s && ports[x] == ports[y] :: used[ports[x]] == x && used[ports[y]] == y;
    ImageExact(ports, s);
    Subset(taken, Ports(lo, hi));
    if |s| == hi - lo {
      forall p | lo <= p < hi ensures p in used {
        assert p in Ports(lo, hi);
        assert p in taken;
      }
    }
  }

  /** A full range whose ports all belong to ids of `s` has no more ports than `s` has ids. */
  lemma {:induction false} FullRange(used: map<int, string>, ports: map<string, int>, s: set<string>, lo: int, hi: int)
    requires lo <= hi
    requires forall p | lo <= p < hi :: p in used && used[p] in s && used[p] in ports && ports[used[p]] == p
    ensures |s| >= hi - lo
    decreases hi - lo
  {
    if lo < hi {
      FullRange(used, ports, s - {used[hi - 1]}, lo, hi - 1);
    }
  }

  // ---------- placing one id ----------

  lemma SidesGrow(base: int, before: seq<string>, id: string)
    ensures AboveIds(base, before + [id]) == AboveIds(base, before) + (if IsAbove(base, id) then {id} else {})
    ensures forall c :: BelowFrom(base, before + [id], c)
                     == BelowFrom(base, before, c) + (if IsBelow(base, id) && c <= Candidate(base, id) then {id} else {})
  {
  }

  lemma PlaceOne(base: int, before: seq<string>, id: string, ports: map<string, int>, used: map<int, string>, port: int)
    requires 1 <= base <= MAX_PORT && Consistent(base, before, ports, used) && Placed(base, before, ports, used) && id !in before
    requires 1 <= port <= MAX_PORT && Available(port, used, id) && (port == base <==> id == DEFAULT_NODE_ID)
    requires IsAbove(base, id) ==> base < port
    requires IsBelow(base, id) ==> Candidate(base, id) <= port < base && Filled(used, Candidate(base, id), port)
    ensures Consistent(base, before + [id], ports[id := port], used[port := id])
    ensures Placed(base, before + [id], ports[id := port], used[port := id])
  {
    assert id !in ports;
    assert port !in used;
    SidesGrow(base, before, id);
    PlacedConsistent(base, before, id, ports, used, port);
    forall i | i in BelowFrom(base, before, 1) ensures Filled(used[port := id], Candidate(base, i), ports[i]) {
      assert Filled(used, Candidate(base, i), ports[i]);
    }
  }

  lemma PlacedConsistent(base: int, before: seq<string>, id: string, ports: map<string, int>, used: map<int, string>, port: int)
    requires Consistent(base, before, ports, used) && id !in ports && port !in used
    requires 1 <= port <= MAX_PORT && (port == base <==> id == DEFAULT_NODE_ID)
    ensures Consistent(base, before + [id], ports[id := port], used[port := id])
  {
  }

  lemma DefaultStep(base: int, before: seq<string>, ports: map<string, int>, used: map<int, string>)
    requires 1 <= base <= MAX_PORT && Consistent(base, before, ports, used) && DEFAULT_NODE_ID !in before
    ensures Available(base, used, DEFAULT_NODE_ID)
  {
  }

  /** Above the base an id finds a port while fewer such ids than ports are placed, and none afterwards. */
  lemma AboveStep(base: int, before: seq<string>, id: string, ports: map<string, int>, used: map<int, string>)
    requires 1 <= base <= MAX_PORT && Consistent(base, before, ports, used) && Placed(base, before, ports, used) && id !in before
    requires IsAbove(base, id)
    ensures FreeBetween(base + 1, MAX_PORT, used, id) <==> |AboveIds(base, before)| < MAX_PORT - base
  {
    var s := AboveIds(base, before);
    FitRange(base, before, ports, used, s, base + 1, MAX_PORT + 1);
    if |s| == MAX_PORT - base {
      forall f | base + 1 <= f <= MAX_PORT ensures !Available(f, used, id) {
        assert f in used;
      }
    } else if !FreeBetween(base + 1, MAX_PORT, used, id) {
      forall p | base + 1 <= p < MAX_PORT + 1 ensures p in used && used[p] in s && used[p] in ports && ports[used[p]] == p {
        assert !Available(p, used, id);
        OwnerAbove(base, before, ports, used, p);
      }
      FullRange(used, ports, s, base + 1, MAX_PORT + 1);
    }
  }

  lemma OwnerAbove(base: int, ids: seq<string>, ports: map<string, int>, used: map<int, string>, p: int)
    requires 1 <= base <= MAX_PORT && Consistent(base, ids, ports, used) && Placed(base, ids, ports, used)
    requires p in used && base < p
    ensures used[p] in AboveIds(base, ids)
  {
    var i := used[p];
    CandidateRange(base, i);
    assert IsBelow(base, i) ==> i in BelowFrom(base, ids, 1);
  }

  lemma OwnerBelow(base: int, ids: seq<string>, ports: map<string, int>, used: map<int, string>, p: int)
    requires 1 <= base <= MAX_PORT && Consistent(base, ids, ports, used) && Placed(base, ids, ports, used)
    requires p in used && p < base
    ensures used[p] in BelowFrom(base, ids, 1)
  {
    var i := used[p];
    CandidateRange(base, i);
    assert IsAbove(base, i) ==> i in AboveIds(base, ids);
  }

  /** The lowest port of the taken run that ends before `c`. */
  function RunStart(used: map<int, string>, c: int): (lo: int)
    requires 1 <= c
    ensures 1 <= lo <= c
    ensures lo == 1 || lo - 1 !in used
    ensures forall p | lo <= p < c :: p in used
  {
    if c > 1 && c - 1 in used then RunStart(used, c - 1) else c
  }

  /** Below the base an id that finds no port starts in a run too many ids start in. */
  lemma BelowStep(base: int, before: seq<string>, id: string, ports: map<string, int>, used: map<int, string>)
    requires 1 <= base <= MAX_PORT && Consistent(base, before, ports, used) && Placed(base, before, ports, used) && id !in before
    requires IsBelow(base, id) && Parks(base, before + [id])
    ensures FreeBetween(Candidate(base, id), base - 1, used, id)
  {
    var c := Candidate(base, id);
    CandidateRange(base, id);
    if !FreeBetween(c, base - 1, used, id) {
      var lo := RunStart(used, c);
      var s := BelowFrom(base, before, lo);
      forall p | lo <= p < base ensures p in used && used[p] in s && used[p] in ports && ports[used[p]] == p {
        assert p >= c ==> !Available(p, used, id);
        OwnerBelow(base, before, ports, used, p);
        var i := used[p];
        CandidateRange(base, i);
        assert Candidate(base, i) < lo ==> lo - 1 in used;
      }
      FullRange(used, ports, s, lo, base);
      SidesGrow(base, before, id);
      assert false;
    }
  }

  lemma PlacedMeansAssignable(base: int, ids: seq<string>, ports: map<string, int>, used: map<int, string>)
    requires 1 <= base <= MAX_PORT && Consistent(base, ids, ports, used) && Placed(base, ids, ports, used)
    ensures Assignable(base, ids)
  {
    FitRange(base, ids, ports, used, AboveIds(base, ids), base + 1, MAX_PORT + 1);
    forall c | 1 <= c < base ensures |BelowFrom(base, ids, c)| <= base - c {
      forall id | id in BelowFrom(base, ids, c) ensures id in ports && c <= ports[id] < base {
        assert id in BelowFrom(base, ids, 1);
      }
      FitRange(base, ids, ports, used, BelowFrom(base, ids, c), c, base);
    }
  }

  // ---------- the exact conditions ----------

  /** What a step that starts from a good assignment leaves. */
  ghost predicate Stepped(base: int, ids: seq<string>, r: Assignment) {
    && r != BadPort
    && (r.Assigned? ==> Consistent(base, ids, r.ports, r.used) && Placed(base, ids, r.ports, r.used))
  }

  lemma AssignDefault(base: int, before: seq<string>, ports: map<string, int>, used: map<int, string>)
    requires 1 <= base <= MAX_PORT && Consistent(base, before, ports, used) && Placed(base, before, ports, used)
    requires DEFAULT_NODE_ID !in before
    ensures var r := AssignOne(base, DEFAULT_NODE_ID, ports, used);
            r.Assigned? && Stepped(base, before + [DEFAULT_NODE_ID], r)
  {
    DefaultStep(base, before, ports, used);
    PlaceOne(base, before, DEFAULT_NODE_ID, ports, used, base);
  }

  lemma AssignAbove(base: int, before: seq<string>, id: string, ports: map<string, int>, used: map<int, string>)
    requires 1 <= base <= MAX_PORT && Consistent(base, before, ports, used) && Placed(base, before, ports, used) && id !in before
    requires IsAbove(base, id)
    ensures var r := AssignOne(base, id, ports, used);
            if |AboveIds(base, before)| < MAX_PORT - base then r.Assigned? && Stepped(base, before + [id], r) else r == NeverReturns
  {
    CandidateRange(base, id);
    AboveStep(base, before, id, ports, used);
    ProbeAbove(base, Candidate(base, id), used, id, false);
    if FreeBetween(base + 1, MAX_PORT, used, id) {
      PlaceOne(base, before, id, ports, used, ProbeFrom(base, Candidate(base, id), used, id, false).port);
    }
  }

  lemma AssignBelow(base: int, before: seq<string>, id: string, ports: map<string, int>, used: map<int, string>)
    requires 1 <= base <= MAX_PORT && Consistent(base, before, ports, used) && Placed(base, before, ports, used) && id !in before
    requires IsBelow(base, id)
    ensures var r := AssignOne(base, id, ports, used);
            && r != NeverReturns && Stepped(base, before + [id], r) && (Parks(base, before + [id]) ==> r.Assigned?)
  {
    CandidateRange(base, id);
    ProbeBelow(base, Candidate(base, id), used, id);
    if FreeBetween(Candidate(base, id), base - 1, used, id) {
      PlaceOne(base, before, id, ports, used, ProbeFrom(base, Candidate(base, id), used, id, false).port);
    } else if Parks(base, before + [id]) {
      BelowStep(base, before, id, ports, used);
    }
  }

  lemma AssignNew(base: int, before: seq<string>, id: string, ports: map<string, int>, used: map<int, string>)
    requires 1 <= base <= MAX_PORT && Consistent(base, before, ports, used) && Placed(base, before, ports, used) && id !in before
    ensures var r := AssignOne(base, id, ports, used);
            && Stepped(base, before + [id], r)
            && (Assignable(base, before + [id]) ==> r.Assigned?)
            && (r == NeverReturns <==> IsAbove(base, id) && |AboveIds(base, before)| >= MAX_PORT - base)
  {
    CandidateRange(base, id);
    SidesGrow(base, before, id);
    if id == DEFAULT_NODE_ID {
      AssignDefault(base, before, ports, used);
    } else if IsAbove(base, id) {
      AssignAbove(base, before, id, ports, used);
    } else {
      AssignBelow(base, before, id, ports, used);
    }
  }

  lemma AssignableBefore(base: int, before: seq<string>, id: string)
    requires Assignable(base, before + [id])
    ensures Assignable(base, before)
  {
    SidesGrow(base, before, id);
    Subset(AboveIds(base, before), AboveIds(base, before + [id]));
    forall c | 1 <= c < base ensures |BelowFrom(base, before, c)| <= base - c {
      Subset(BelowFrom(base, before, c), BelowFrom(base, before + [id], c));
    }
  }

  lemma SameSides(base: int, before: seq<string>, id: string)
    requires id in before
    ensures AboveIds(base, before + [id]) == AboveIds(base, before)
    ensures forall c :: BelowFrom(base, before + [id], c) == BelowFrom(base, before, c)
  {
  }

  /** An id that already has its port keeps it. */
  lemma AssignAgain(base: int, before: seq<string>, id: string, ports: map<string, int>, used: map<int, string>)
    requires Consistent(base, before, ports, used) && Steady(base, ports, used) && id in before
    ensures AssignOne(base, id, ports, used) == Assigned(ports, used)
    ensures Consistent(base, before + [id], ports, used)
  {
    assert ports[id := ports[id]] == ports && used[ports[id] := id] == used;
  }

  /** For every valid base and all ids, repeated or not: the assignment succeeds if and only if the ids whose
      candidate lies above the base number at most the ports above it, and from no port below the base on
      do more ids start than there are ports before the base. It then gives every id a valid port, no two
      the same, and the base to "default" and to no other id. */
  lemma {:induction false} AssignSucceedsIff(base: int, ids: seq<string>)
    requires 1 <= base <= MAX_PORT
    ensures var r := Assign(base, ids);
            && (r.Assigned? <==> Assignable(base, ids))
            && (r.Assigned? ==> Consistent(base, ids, r.ports, r.used) && Placed(base, ids, r.ports, r.used))
            && r != BadPort
  {
    if ids == [] {
      PlacedMeansAssignable(base, ids, map[], map[]);
    } else {
      var before, id := ids[..|ids| - 1], ids[|ids| - 1];
      assert ids == before + [id];
      AssignSucceedsIff(base, before);
      var r := Assign(base, before);
      if r.Assigned? {
        AssignedSteady(base, before);
        AssignLast(base, before, id, r.ports, r.used);
      } else if Assignable(base, ids) {
        AssignableBefore(base, before, id);
      }
    }
  }

  lemma AssignLast(base: int, before: seq<string>, id: string, ports: map<string, int>, used: map<int, string>)
    requires 1 <= base <= MAX_PORT && Consistent(base, before, ports, used) && Placed(base, before, ports, used)
    requires Steady(base, ports, used)
    ensures var r := AssignOne(base, id, ports, used);
            && (r.Assigned? <==> Assignable(base, before + [id]))
            && (r.Assigned? ==> Consistent(base, before + [id], r.ports, r.used) && Placed(base, before + [id], r.ports, r.used))
            && (r == NeverReturns <==> |AboveIds(base, before + [id])| > MAX_PORT - base)
            && r != BadPort
  {
    if id in before {
      AssignAgain(base, before, id, ports, used);
      SameSides(base, before, id);
      PlacedMeansAssignable(base, before + [id], ports, used);
    } else {
      AssignNew(base, before, id, ports, used);
      SidesGrow(base, before, id);
      PlacedMeansAssignable(base, before, ports, used);
      var r := AssignOne(base, id, ports, used);
      if r.Assigned? {
        PlacedMeansAssignable(base, before + [id], r.ports, r.used);
      }
    }
  }

  /** The loop runs for ever if and only if some id is reached, with room for all before it, that is one too
      many above the base. */
  lemma {:induction false} NeverReturnsIff(base: int, ids: seq<string>)
    requires 1 <= base <= MAX_PORT
    ensures Assign(base, ids) == NeverReturns <==>
              exists n | 0 <= n < |ids| :: Assignable(base, ids[..n]) && |AboveIds(base, ids[..n + 1])| > MAX_PORT - base
  {
    forall n | 0 <= n < |ids| && Assignable(base, ids[..n]) && |AboveIds(base, ids[..n + 1])| > MAX_PORT - base
      ensures Assign(base, ids) == NeverReturns
    {
      OverfullNeverReturns(base, ids, n);
    }
    if Assign(base, ids) == NeverReturns {
      var n := FirstOverfull(base, ids);
    }
  }

  lemma PrefixStep(base: int, ids: seq<string>, n: nat)
    requires 1 <= base <= MAX_PORT && n < |ids| && Assignable(base, ids[..n])
    ensures Assign(base, ids[..n + 1]) == NeverReturns <==> |AboveIds(base, ids[..n + 1])| > MAX_PORT - base
  {
    var before, id := ids[..n], ids[n];
    assert ids[..n + 1] == before + [id];
    assert ids[..n + 1][..n] == before;
    AssignSucceedsIff(base, before);
    AssignedSteady(base, before);
    AssignLast(base, before, id, Assign(base, before).ports, Assign(base, before).used);
  }

  lemma OverfullNeverReturns(base: int, ids: seq<string>, n: nat)
    requires 1 <= base <= MAX_PORT && n < |ids|
    requires Assignable(base, ids[..n]) && |AboveIds(base, ids[..n + 1])| > MAX_PORT - base
    ensures Assign(base, ids) == NeverReturns
  {
    PrefixStep(base, ids, n);
    AssignFails(base, ids, n + 1);
  }

  lemma {:induction false} FirstOverfull(base: int, ids: seq<string>) returns (n: nat)
    requires 1 <= base <= MAX_PORT && Assign(base, ids) == NeverReturns
    ensures n < |ids| && Assignable(base, ids[..n]) && |AboveIds(base, ids[..n + 1])| > MAX_PORT - base
  {
    var last := |ids| - 1;
    if Assign(base, ids[..last]).Assigned? {
      AssignSucceedsIff(base, ids[..last]);
      PrefixStep(base, ids, last);
      assert ids[..last + 1] == ids;
      n := last;
    } else {
      n := FirstOverfull(base, ids[..last]);
      assert ids[..last][..n] == ids[..n] && ids[..last][..n + 1] == ids[..n + 1];
    }
  }

  /** With at most 54512 ids below the base there is always room for them, and the loop returns exactly when
      there is room above. */
  lemma AssignReturnsIff(base: int, ids: seq<string>)
    requires 1 <= base <= MAX_PORT && |BelowFrom(base, ids, 1)| <= 54512
    ensures var r := Assign(base, ids);
            if |AboveIds(base, ids)| <= MAX_PORT - base then r.Assigned? && Consistent(base, ids, r.ports, r.used)
            else r == NeverReturns
  {
    FewBelowPark(base, ids);
    AssignSucceedsIff(base, ids);
    if |AboveIds(base, ids)| > MAX_PORT - base {
      FailsAbove(base, ids);
    }
  }

  lemma FewBelowPark(base: int, ids: seq<string>)
    requires 1 <= base <= MAX_PORT && |BelowFrom(base, ids, 1)| <= 54512
    ensures Parks(base, ids)
  {
    forall c | 1 <= c < base ensures |BelowFrom(base, ids, c)| <= base - c {
      Subset(BelowFrom(base, ids, c), BelowFrom(base, ids, 1));
      if id :| id in BelowFrom(base, ids, c) {
        CandidateRange(base, id);
      } else {
        assert BelowFrom(base, ids, c) == {};
      }
    }
  }

  lemma {:induction false} FailsAbove(base: int, ids: seq<string>)
    requires 1 <= base <= MAX_PORT && |BelowFrom(base, ids, 1)| <= 54512 && |AboveIds(base, ids)| > MAX_PORT - base
    ensures Assign(base, ids) == NeverReturns
  {
    assert AboveIds(base, []) == {};
    var last := |ids| - 1;
    var before := ids[..last];
    assert ids == before + [ids[last]] && ids[..last + 1] == ids;
    SidesGrow(base, before, ids[last]);
    Subset(BelowFrom(base, before, 1), BelowFrom(base, ids, 1));
    if |AboveIds(base, before)| > MAX_PORT - base {
      FailsAbove(base, before);
    } else {
      FewBelowPark(base, before);
      PrefixStep(base, ids, last);
    }
  }

  /** Ids other than "default": the ones that need a port besides the base. */
  function OtherIds(ids: seq<string>): set<string> {
    set id | id in ids && id != DEFAULT_NODE_ID
  }

  /** A bound that needs no hash: as many other ids as ports above the base, and at most 54512 of them when
      candidates may fold below the base. */
  predicate Fits(base: int, ids: seq<string>) {
    && |OtherIds(ids)| <= MAX_PORT - base
    && (base > MAX_PORT - SPAN ==> |OtherIds(ids)| <= 54512)
  }

  /** For a valid base and ids that fit, the assignment returns, gives every id a valid port, no two the same,
      and the base to "default" and to no other id. */
  lemma AssignSucceeds(base: int, ids: seq<string>)
    requires 1 <= base <= MAX_PORT && Fits(base, ids)
    ensures var r := Assign(base, ids); r.Assigned? && Consistent(base, ids, r.ports, r.used)
  {
    Subset(AboveIds(base, ids), OtherIds(ids));
    Subset(BelowFrom(base, ids, 1), OtherIds(ids));
    if id :| id in BelowFrom(base, ids, 1) {
      CandidateRange(base, id);
    } else {
      assert BelowFrom(base, ids, 1) == {};
    }
    AssignReturnsIff(base, ids);
  }

  /** No two ids share a port. */
  lemma AssignedPortsDiffer(base: int, ids: seq<string>, a: string, b: string)
    requires 1 <= base <= MAX_PORT && Assignable(base, ids)
    requires a in ids && b in ids && a != b
    ensures var r := Assign(base, ids); r.Assigned? && a in r.ports && b in r.ports && r.ports[a] != r.ports[b]
  {
    AssignSucceedsIff(base, ids);
  }

  // ---------- a call that never returns ----------

  /** n different ids: "a", "aa", "aaa", ... */
  function SomeIds(n: nat): (ids: seq<string>)
    ensures |ids| == n && forall i | 0 <= i < n :: |ids[i]| == i + 1 && ids[i][0] == 'a'
  {
    seq(n, i requires 0 <= i < n => seq(i + 1, _ => 'a'))
  }

  function Elements(ids: seq<string>): set<string> {
    set id | id in ids
  }

  lemma {:induction false} SomeIdsCount(n: nat)
    ensures |Elements(SomeIds(n))| == n
  {
    if n > 0 {
      SomeIdsCount(n - 1);
      var before := Elements(SomeIds(n - 1));
      assert SomeIds(n) == SomeIds(n - 1) + [SomeIds(n)[n - 1]];
      assert Elements(SomeIds(n)) == before + {SomeIds(n)[n - 1]};
      assert forall id | id in before :: |id| < n;
    }
  }

  /** With the admin port 55535 ten thousand ids get their ports, and ten thousand and one make the call hang. */
  lemma ProbingHangs()
    ensures Assign(55535, SomeIds(10000)).Assigned?
    ensures Assign(55535, SomeIds(10001)) == NeverReturns
  {
    AllAbove(55535, SomeIds(10000));
    AllAbove(55535, SomeIds(10001));
    SomeIdsCount(10000);
    SomeIdsCount(10001);
    AssignReturnsIff(55535, SomeIds(10000));
    AssignReturnsIff(55535, SomeIds(10001));
  }

  lemma AllAbove(base: int, ids: seq<string>)
    requires 1 <= base <= MAX_PORT - SPAN && DEFAULT_NODE_ID !in ids
    ensures AboveIds(base, ids) == Elements(ids) && BelowFrom(base, ids, 1) == {}
  {
    forall id | id in ids ensures IsAbove(base, id) {
      CandidateRange(base, id);
    }
  }
}
