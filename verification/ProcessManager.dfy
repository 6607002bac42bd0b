/** The frpc process manager (internal/client/process.go). `live` is the operating system's view: the
    processes the manager started that are still alive. Starting, reloading and the exit of a process are
    decided outside: their outcomes are parameters. Kill and Release always succeed. */
module ProcessManager {
  import opened Text
  import opened Order

  const DEFAULT_KEY: string := "default"

  datatype RuntimeConfig = RuntimeConfig(
    nodeId: string, configPath: string, logPath: string, restartKey: string, raw: string)

  /** One table entry. */
  datatype Proc = Proc(pid: nat, frpcPath: string, configPath: string, logPath: string, restartKey: string,
                       exited: bool)

  /** What a process was started with. */
  datatype Birth = Birth(key: string, frpcPath: string, configPath: string, restartKey: string)

  datatype State = State(
    detached: bool, table: map<string, Proc>, live: set<nat>, born: map<nat, Birth>, nextPid: nat, defaultLog: string)

  function ProcessKey(nodeId: string): (k: string) {
    if TrimSpace(nodeId) == "" then DEFAULT_KEY else nodeId
  }

  /** The manager's opinion of an entry: a detached process is looked up by its pid, an attached one is
      running until its waiting goroutine has marked it. */
  predicate Running(s: State, p: Proc) {
    !p.exited && (s.detached ==> p.pid in s.live)
  }

  predicate RunningKey(s: State, key: string) {
    key in s.table && Running(s, s.table[key])
  }

  // ---------- the critical sections ----------

  /** stopKey's locked part: the entry leaves the table. */
  function Removed(s: State, key: string): State {
    s.(table := s.table - {key})
  }

  function Killed(s: State, pid: nat): State {
    s.(live := s.live - {pid})
  }

  datatype Start = Start(state: State, ok: bool)

  /** startKey: nothing to do for a running entry, otherwise a new process takes the key. */
  function Started(s: State, key: string, frpcPath: string, cfg: RuntimeConfig, startOk: bool): Start {
    if RunningKey(s, key) then Start(s, true)
    else if frpcPath == "" || !startOk then Start(s, false)
    else
      var log := if cfg.logPath == "" then s.defaultLog else cfg.logPath;
      var p := Proc(s.nextPid, frpcPath, cfg.configPath, log, cfg.restartKey, false);
      Start(s.(table := s.table[key := p], live := s.live + {p.pid},
               born := s.born[p.pid := Birth(key, frpcPath, cfg.configPath, cfg.restartKey)],
               nextPid := s.nextPid + 1), true)
  }

  predicate NeedsRestart(s: State, key: string, frpcPath: string, cfg: RuntimeConfig)
    requires key in s.table
  {
    var p := s.table[key];
    p.frpcPath != frpcPath || p.configPath != cfg.configPath || p.restartKey != cfg.restartKey
  }

  /** reloadKey's last locked part, after a successful reload command. */
  function Recorded(s: State, key: string, cfg: RuntimeConfig): State {
    if key in s.table then
      s.(table := s.table[key := s.table[key].(configPath := cfg.configPath, logPath := cfg.logPath,
                                               restartKey := cfg.restartKey)])
    else s
  }

  /** The waiting goroutine of an attached process, once the process is dead. */
  function Reaped(s: State, pid: nat): State {
    if pid in s.born && RecordedPid(s, s.born[pid].key, pid) then
      s.(table := s.table[s.born[pid].key := s.table[s.born[pid].key].(exited := true)])
    else s
  }

  predicate RecordedPid(s: State, key: string, pid: nat) {
    key in s.table && s.table[key].pid == pid
  }

  // ---------- calls that run undisturbed ----------

  function Stopped(s: State, key: string): State {
    if key in s.table then Killed(Removed(s, key), s.table[key].pid) else s
  }

  function StoppedAll(s: State, keys: seq<string>): State
    decreases keys
  {
    if keys == [] then s else StoppedAll(Stopped(s, keys[0]), keys[1..])
  }

  datatype Oracle = Oracle(startOk: bool, reloadOk: bool)

  function Reloaded(s: State, key: string, frpcPath: string, cfg: RuntimeConfig, o: Oracle): Start {
    if !RunningKey(s, key) then Started(s, key, frpcPath, cfg, o.startOk)
    else if NeedsRestart(s, key, frpcPath, cfg) then Started(Stopped(s, key), key, frpcPath, cfg, o.startOk)
    else if o.reloadOk then Start(Recorded(s, key, cfg), true)
    else Start(s, false)
  }

  function ReloadedAll(s: State, frpcPath: string, configs: seq<RuntimeConfig>, oracle: string -> Oracle): Start
    decreases configs
  {
    if configs == [] then Start(s, true)
    else
      var key := ProcessKey(configs[0].nodeId);
      var r := Reloaded(s, key, frpcPath, configs[0], oracle(key));
      if r.ok then ReloadedAll(r.state, frpcPath, configs[1..], oracle) else r
  }

  predicate ByNodeId(a: RuntimeConfig, b: RuntimeConfig) {
    StrLe(a.nodeId, b.nodeId)
  }

  function DesiredKeys(configs: seq<RuntimeConfig>): set<string> {
    set c | c in configs :: ProcessKey(c.nodeId)
  }

  /** Running entries that no configuration asks for. */
  function StaleTable(s: State, desired: set<string>): map<string, Proc> {
    map k | k in s.table && k !in desired && Running(s, s.table[k]) :: s.table[k]
  }

  ghost function Applied(s: State, frpcPath: string, configs: seq<RuntimeConfig>, oracle: string -> Oracle): Start {
    var stale := SortedKeys(StaleTable(s, DesiredKeys(configs)));
    ReloadedAll(StoppedAll(s, stale), frpcPath, Sort(configs, ByNodeId), oracle)
  }

  // ---------- the manager ----------

  class Manager {
    const detached: bool
    const logPath: string
    var processes: map<string, Proc>
    var live: set<nat>
    var born: map<nat, Birth>
    var nextPid: nat

    function View(): State
      reads this
    {
      State(detached, processes, live, born, nextPid, logPath)
    }

    constructor (logPath: string, detached: bool)
      ensures View() == State(detached, map[], {}, map[], 1, logPath)
    {
      this.logPath := logPath;
      this.detached := detached;
      processes, live, born, nextPid := map[], {}, map[], 1;
    }

    method StopKey(key: string)
      modifies this
      ensures View() == Stopped(old(View()), key)
    {
      if key !in processes {
        assert processes - {key} == processes;
        return;
      }
      var proc := processes[key];
      processes := processes - {key};
      live := live - {proc.pid};
    }

    method StartKey(key: string, frpcPath: string, cfg: RuntimeConfig, startOk: bool) returns (ok: bool)
      modifies this
      ensures Start(View(), ok) == Started(old(View()), key, frpcPath, cfg, startOk)
    {
      if key in processes && Running(View(), processes[key]) {
        return true;
      }
      if frpcPath == "" {
        return false;
      }
      var log := cfg.logPath;
      if log == "" {
        log := logPath;
      }
      if !startOk {
        return false;
      }
      var proc := Proc(nextPid, frpcPath, cfg.configPath, log, cfg.restartKey, false);
      live := live + {nextPid};
      born := born[nextPid := Birth(key, frpcPath, cfg.configPath, cfg.restartKey)];
      nextPid := nextPid + 1;
      processes := processes[key := proc];
      return true;
    }

    method ReloadKey(key: string, frpcPath: string, cfg: RuntimeConfig, o: Oracle) returns (ok: bool)
      modifies this
      ensures Start(View(), ok) == Reloaded(old(View()), key, frpcPath, cfg, o)
    {
      var running := key in processes && Running(View(), processes[key]);
      var needsRestart := running && NeedsRestart(View(), key, frpcPath, cfg);
      if needsRestart {
        StopKey(key);
        running := false;
      }
      if !running {
        ok := StartKey(key, frpcPath, cfg, o.startOk);
        return;
      }
      if !o.reloadOk {
        return false;
      }
      if key in processes {
        var proc := processes[key];
        processes := processes[key := proc.(configPath := cfg.configPath, logPath := cfg.logPath, restartKey := cfg.restartKey)];
      }
      return true;
    }

    method StopKeys(keys: seq<string>)
      modifies this
      ensures View() == StoppedAll(old(View()), keys)
    {
      assert keys[0..] == keys;
      for i := 0 to |keys|
        invariant StoppedAll(View(), keys[i..]) == StoppedAll(old(View()), keys)
      {
        assert keys[i..][1..] == keys[i + 1..];
        StopKey(keys[i]);
      }
    }

    /** Stops what is no longer wanted, then restarts what changed, reloads the rest and starts what is
        missing, in the order of the node ids; the first failure ends the call. */
    method Apply(frpcPath: string, configs: seq<RuntimeConfig>, oracle: string -> Oracle) returns (ok: bool)
      modifies this
      ensures Start(View(), ok) == Applied(old(View()), frpcPath, configs, oracle)
    {
      var desired: set<string> := {};
      for i := 0 to |configs|
        invariant desired == DesiredKeys(configs[..i])
      {
        assert configs[..i + 1] == configs[..i] + [configs[i]];
        desired := desired + {ProcessKey(configs[i].nodeId)};
      }
      assert configs[..|configs|] == configs;
      var stale := SortedMapKeys(StaleTable(View(), desired));
      StopKeys(stale);
      var sorted := Sort(configs, ByNodeId);
      ghost var start := View();
      assert sorted[0..] == sorted;
      for i := 0 to |sorted|
        invariant ReloadedAll(View(), frpcPath, sorted[i..], oracle) == ReloadedAll(start, frpcPath, sorted, oracle)
      {
        assert sorted[i..][1..] == sorted[i + 1..];
        var key := ProcessKey(sorted[i].nodeId);
        var done := ReloadKey(key, frpcPath, sorted[i], oracle(key));
        if !done {
          return false;
        }
      }
      return true;
    }

    /** The goroutine startKey leaves behind, after Wait has returned. */
    method MarkExited(key: string, pid: nat)
      requires pid in born && born[pid].key == key
      modifies this`processes
      ensures View() == Reaped(old(View()), pid)
    {
      if key in processes && processes[key].pid == pid {
        processes := processes[key := processes[key].(exited := true)];
      }
    }

    method StopAll()
      modifies this
      ensures View() == StoppedAll(old(View()), SortedKeys(old(View()).table))
    {
      var keys := SortedMapKeys(processes);
      StopKeys(keys);
    }
  }

  // ---------- what an undisturbed Apply achieves ----------

  /** Table and operating system agree on who is who: an entry's process was started for its key, an
      entry marked as exited is dead, and every live process is the entry of its key. */
  ghost predicate Coherent(s: State) {
    && (forall p | p in s.born :: p < s.nextPid)
    && (forall k | k in s.table :: s.table[k].pid in s.born && s.born[s.table[k].pid].key == k)
    && (forall k | k in s.table && s.table[k].exited :: s.table[k].pid !in s.live)
    && (forall p | p in s.live :: p in s.born && s.born[p].key in s.table && s.table[s.born[p].key].pid == p)
  }

  lemma StoppedCoherent(s: State, key: string)
    requires Coherent(s)
    ensures Coherent(Stopped(s, key))
  {
    var s' := Stopped(s, key);
    forall p | p in s'.live ensures p in s'.born && s'.born[p].key in s'.table && s'.table[s'.born[p].key].pid == p {
      assert p in s.live;
    }
  }

  lemma StartedCoherent(s: State, key: string, frpcPath: string, cfg: RuntimeConfig, startOk: bool)
    requires Coherent(s)
    ensures Coherent(Started(s, key, frpcPath, cfg, startOk).state)
  {
    var s' := Started(s, key, frpcPath, cfg, startOk).state;
    forall p | p in s'.live ensures p in s'.born && s'.born[p].key in s'.table && s'.table[s'.born[p].key].pid == p {
      if p in s.live && s.born[p].key == key {
        assert s.table[key].pid == p;
      }
    }
  }

  lemma RecordedCoherent(s: State, key: string, cfg: RuntimeConfig)
    requires Coherent(s)
    ensures Coherent(Recorded(s, key, cfg))
  {
  }

  lemma ReloadedCoherent(s: State, key: string, frpcPath: string, cfg: RuntimeConfig, o: Oracle)
    requires Coherent(s)
    ensures Coherent(Reloaded(s, key, frpcPath, cfg, o).state)
  {
    StartedCoherent(s, key, frpcPath, cfg, o.startOk);
    StoppedCoherent(s, key);
    StartedCoherent(Stopped(s, key), key, frpcPath, cfg, o.startOk);
    RecordedCoherent(s, key, cfg);
  }

  lemma {:induction false} StoppedAllCoherent(s: State, keys: seq<string>)
    requires Coherent(s)
    ensures Coherent(StoppedAll(s, keys))
    decreases keys
  {
    if keys != [] {
      StoppedCoherent(s, keys[0]);
      StoppedAllCoherent(Stopped(s, keys[0]), keys[1..]);
    }
  }

  lemma {:induction false} ReloadedAllCoherent(s: State, frpcPath: string, configs: seq<RuntimeConfig>, oracle: string -> Oracle)
    requires Coherent(s)
    ensures Coherent(ReloadedAll(s, frpcPath, configs, oracle).state)
    decreases configs
  {
    if configs != [] {
      var key := ProcessKey(configs[0].nodeId);
      ReloadedCoherent(s, key, frpcPath, configs[0], oracle(key));
      var r := Reloaded(s, key, frpcPath, configs[0], oracle(key));
      if r.ok {
        ReloadedAllCoherent(r.state, frpcPath, configs[1..], oracle);
      }
    }
  }

  /** Undisturbed calls keep the table and the operating system in agreement, whatever succeeds or fails. */
  lemma AppliedCoherent(s: State, frpcPath: string, configs: seq<RuntimeConfig>, oracle: string -> Oracle)
    requires Coherent(s)
    ensures Coherent(Applied(s, frpcPath, configs, oracle).state)
  {
    var stale := SortedKeys(StaleTable(s, DesiredKeys(configs)));
    StoppedAllCoherent(s, stale);
    ReloadedAllCoherent(StoppedAll(s, stale), frpcPath, Sort(configs, ByNodeId), oracle);
  }

  // ---------- the desired state ----------

  /** Configurations with one process key ask for the same process. */
  ghost predicate KeysAgree(configs: seq<RuntimeConfig>) {
    forall a, b | a in configs && b in configs && ProcessKey(a.nodeId) == ProcessKey(b.nodeId) :: SameProcess(a, b)
  }

  predicate SameProcess(a: RuntimeConfig, b: RuntimeConfig) {
    a.configPath == b.configPath && a.restartKey == b.restartKey
  }

  /** Nothing about the other keys changes. */
  ghost predicate OthersKept(s: State, s': State, keys: set<string>) {
    forall k | k !in keys ::
      && (k in s'.table <==> k in s.table)
      && (k in s.table ==> s'.table[k] == s.table[k] && (s'.table[k].pid in s'.live <==> s.table[k].pid in s.live))
  }

  /** The key runs a process recorded with exactly this frpc, config path and restart key; it is the process that ran
      before precisely when that one was recorded so already. A process that was just started is alive, and so is
      every process of a manager that looks them up. */
  ghost predicate Settled(s: State, s': State, key: string, frpcPath: string, cfg: RuntimeConfig) {
    && RunningKey(s', key) && LaunchedAs(s'.table[key], frpcPath, cfg)
    && (RunningKey(s, key) && LaunchedAs(s.table[key], frpcPath, cfg)
        <==> RunningKey(s, key) && s'.table[key].pid == s.table[key].pid)
    && (!RunningKey(s, key) || !LaunchedAs(s.table[key], frpcPath, cfg) ==> s'.table[key].pid >= s.nextPid)
    && (if !s'.detached && RunningKey(s, key) && s'.table[key].pid == s.table[key].pid
        then s'.table[key].pid in s'.live <==> s.table[key].pid in s.live
        else s'.table[key].pid in s'.live)
  }

  predicate LaunchedAs(p: Proc, frpcPath: string, cfg: RuntimeConfig) {
    p.frpcPath == frpcPath && p.configPath == cfg.configPath && p.restartKey == cfg.restartKey
  }

  lemma ReloadedSettles(s: State, key: string, frpcPath: string, cfg: RuntimeConfig, o: Oracle)
    requires Coherent(s) && Reloaded(s, key, frpcPath, cfg, o).ok
    ensures var s' := Reloaded(s, key, frpcPath, cfg, o).state;
            Settled(s, s', key, frpcPath, cfg) && OthersKept(s, s', {key}) && s.nextPid <= s'.nextPid
            && s'.detached == s.detached
  {
  }

  /** What was settled before other keys were touched stays settled. */
  lemma SettledBefore(s: State, s1: State, s': State, touched: set<string>, key: string, frpcPath: string, cfg: RuntimeConfig)
    requires Settled(s, s1, key, frpcPath, cfg)
    requires OthersKept(s1, s', touched) && key !in touched && s'.detached == s1.detached
    ensures Settled(s, s', key, frpcPath, cfg)
  {
  }

  /** What settles after other keys were touched is settled with respect to the start. */
  lemma SettledAfter(s: State, s1: State, s': State, touched: set<string>, key: string, frpcPath: string, cfg: RuntimeConfig)
    requires OthersKept(s, s1, touched) && key !in touched && s1.nextPid >= s.nextPid && s1.detached == s.detached
    requires Settled(s1, s', key, frpcPath, cfg)
    ensures Settled(s, s', key, frpcPath, cfg)
  {
    assert RunningKey(s1, key) <==> RunningKey(s, key);
    assert key in s.table ==> s1.table[key] == s.table[key];
  }

  lemma OthersKeptTwice(s: State, s1: State, s': State, a: set<string>, b: set<string>)
    requires OthersKept(s, s1, a) && OthersKept(s1, s', b)
    ensures OthersKept(s, s', a + b)
  {
  }

  /** What is settled stays settled when the same process is asked for again. */
  lemma SettledTwice(s: State, s1: State, s': State, key: string, frpcPath: string, first: RuntimeConfig, again: RuntimeConfig)
    requires Settled(s, s1, key, frpcPath, first) && Settled(s1, s', key, frpcPath, again) && SameProcess(first, again)
    requires s.detached == s1.detached == s'.detached
    ensures Settled(s, s', key, frpcPath, first) && Settled(s, s', key, frpcPath, again)
  {
  }

  lemma {:induction false} ReloadedAllSettles(s: State, frpcPath: string, configs: seq<RuntimeConfig>, oracle: string -> Oracle)
    requires Coherent(s) && KeysAgree(configs) && ReloadedAll(s, frpcPath, configs, oracle).ok
    ensures var s' := ReloadedAll(s, frpcPath, configs, oracle).state;
            && OthersKept(s, s', DesiredKeys(configs)) && s'.detached == s.detached
            && forall c | c in configs :: Settled(s, s', ProcessKey(c.nodeId), frpcPath, c)
    decreases configs
  {
    if configs != [] {
      var c0, rest := configs[0], configs[1..];
      var key := ProcessKey(c0.nodeId);
      var s1 := Reloaded(s, key, frpcPath, c0, oracle(key)).state;
      var s' := ReloadedAll(s, frpcPath, configs, oracle).state;
      ReloadedSettles(s, key, frpcPath, c0, oracle(key));
      ReloadedCoherent(s, key, frpcPath, c0, oracle(key));
      assert configs == [c0] + rest;
      ReloadedAllSettles(s1, frpcPath, rest, oracle);
      DesiredCons(c0, rest);
      OthersKeptTwice(s, s1, s', {key}, DesiredKeys(rest));
      forall c | c in configs ensures Settled(s, s', ProcessKey(c.nodeId), frpcPath, c) {
        SettledAlong(s, s1, s', frpcPath, c0, rest, c);
      }
    }
  }

  lemma SettledAlong(s: State, s1: State, s': State, frpcPath: string, c0: RuntimeConfig, rest: seq<RuntimeConfig>, c: RuntimeConfig)
    requires KeysAgree([c0] + rest) && c in [c0] + rest && s1.nextPid >= s.nextPid && s1.detached == s.detached == s'.detached
    requires Settled(s, s1, ProcessKey(c0.nodeId), frpcPath, c0) && OthersKept(s, s1, {ProcessKey(c0.nodeId)})
    requires OthersKept(s1, s', DesiredKeys(rest))
    requires forall r | r in rest :: Settled(s1, s', ProcessKey(r.nodeId), frpcPath, r)
    ensures Settled(s, s', ProcessKey(c.nodeId), frpcPath, c)
  {
    var key := ProcessKey(c0.nodeId);
    if ProcessKey(c.nodeId) != key {
      assert c in rest;
      SettledAfter(s, s1, s', {key}, ProcessKey(c.nodeId), frpcPath, c);
    } else if r :| r in rest && ProcessKey(r.nodeId) == key {
      assert c0 in [c0] + rest && r in [c0] + rest;
      SettledTwice(s, s1, s', key, frpcPath, c0, r);
      SettledAlike(s, s', key, frpcPath, c0, c);
    } else {
      assert c !in rest;
      SettledBefore(s, s1, s', DesiredKeys(rest), key, frpcPath, c0);
    }
  }

  lemma SettledAlike(s: State, s': State, key: string, frpcPath: string, a: RuntimeConfig, b: RuntimeConfig)
    requires Settled(s, s', key, frpcPath, a) && SameProcess(a, b)
    ensures Settled(s, s', key, frpcPath, b)
  {
  }

  lemma DesiredCons(c: RuntimeConfig, configs: seq<RuntimeConfig>)
    ensures DesiredKeys([c] + configs) == {ProcessKey(c.nodeId)} + DesiredKeys(configs)
  {
    assert ([c] + configs)[1..] == configs;
  }

  lemma {:induction false} StoppedAllEffect(s: State, keys: seq<string>)
    requires Coherent(s)
    ensures var s' := StoppedAll(s, keys);
            && (forall k :: k in s'.table <==> k in s.table && k !in keys)
            && OthersKept(s, s', set k | k in keys)
            && s'.nextPid == s.nextPid && s'.detached == s.detached && s'.born == s.born
    decreases keys
  {
    if keys != [] {
      StoppedCoherent(s, keys[0]);
      StoppedAllEffect(Stopped(s, keys[0]), keys[1..]);
      assert keys == [keys[0]] + keys[1..];
    }
  }

  /** Running entries after the two phases of an Apply. */
  lemma RunningAfter(s: State, s1: State, s': State, stale: set<string>, desired: set<string>, k: string)
    requires forall k :: k in stale <==> RunningKey(s, k) && k !in desired
    requires OthersKept(s, s1, stale) && s1.detached == s.detached && (forall k | k in stale :: k !in s1.table)
    requires OthersKept(s1, s', desired) && s'.detached == s1.detached
    requires k !in desired
    ensures !RunningKey(s', k)
  {
  }

  /** When one configuration fails: its process cannot be started, because there is no frpc or the start fails, or it runs
      as recorded and the reload command fails. A process that needed a restart has then been stopped; otherwise
      nothing has changed. */
  lemma ReloadFailsIff(s: State, key: string, frpcPath: string, cfg: RuntimeConfig, o: Oracle)
    ensures var r := Reloaded(s, key, frpcPath, cfg, o);
            var stays := RunningKey(s, key) && LaunchedAs(s.table[key], frpcPath, cfg);
            && (!r.ok <==> if stays then !o.reloadOk else frpcPath == "" || !o.startOk)
            && (!r.ok ==> r.state == if RunningKey(s, key) && !stays then Stopped(s, key) else s)
  {
  }

  /** The log that is recorded: the one asked for, and for a process that had to be started without one the manager's. */
  lemma ReloadedLog(s: State, key: string, frpcPath: string, cfg: RuntimeConfig, o: Oracle)
    requires Reloaded(s, key, frpcPath, cfg, o).ok
    ensures var s' := Reloaded(s, key, frpcPath, cfg, o).state;
            && key in s'.table
            && s'.table[key].logPath ==
                 if cfg.logPath == "" && !(RunningKey(s, key) && LaunchedAs(s.table[key], frpcPath, cfg)) then s.defaultLog else cfg.logPath
  {
  }

  lemma {:induction false} FirstFailureEnds(s: State, frpcPath: string, configs: seq<RuntimeConfig>, oracle: string -> Oracle) returns (i: nat)
    requires !ReloadedAll(s, frpcPath, configs, oracle).ok
    ensures i < |configs|
    ensures var before := ReloadedAll(s, frpcPath, configs[..i], oracle);
            var key := ProcessKey(configs[i].nodeId);
            before.ok && Reloaded(before.state, key, frpcPath, configs[i], oracle(key)) == ReloadedAll(s, frpcPath, configs, oracle)
    decreases configs
  {
    var key := ProcessKey(configs[0].nodeId);
    var r := Reloaded(s, key, frpcPath, configs[0], oracle(key));
    if r.ok {
      var j := FirstFailureEnds(r.state, frpcPath, configs[1..], oracle);
      i := j + 1;
      assert configs[..i][0] == configs[0] && configs[..i][1..] == configs[1..][..j];
    } else {
      i := 0;
      assert configs[..0] == [];
    }
  }

  lemma {:induction false} ReloadedAllKeepsOthers(s: State, frpcPath: string, configs: seq<RuntimeConfig>, oracle: string -> Oracle)
    requires Coherent(s)
    ensures OthersKept(s, ReloadedAll(s, frpcPath, configs, oracle).state, DesiredKeys(configs))
    ensures ReloadedAll(s, frpcPath, configs, oracle).state.nextPid >= s.nextPid
    decreases configs
  {
    if configs != [] {
      var key := ProcessKey(configs[0].nodeId);
      var r := Reloaded(s, key, frpcPath, configs[0], oracle(key));
      ReloadedCoherent(s, key, frpcPath, configs[0], oracle(key));
      ReloadedKeepsOthers(s, key, frpcPath, configs[0], oracle(key));
      DesiredCons(configs[0], configs[1..]);
      assert configs == [configs[0]] + configs[1..];
      if r.ok {
        ReloadedAllKeepsOthers(r.state, frpcPath, configs[1..], oracle);
        OthersKeptTwice(s, r.state, ReloadedAll(s, frpcPath, configs, oracle).state, {key}, DesiredKeys(configs[1..]));
      }
    }
  }

  lemma ReloadedKeepsOthers(s: State, key: string, frpcPath: string, cfg: RuntimeConfig, o: Oracle)
    requires Coherent(s)
    ensures OthersKept(s, Reloaded(s, key, frpcPath, cfg, o).state, {key}) && Reloaded(s, key, frpcPath, cfg, o).state.nextPid >= s.nextPid
  {
  }

  /** Up to the configuration that failed; the processes of those that come later, if they are no earlier one's too, are as
      they were. */
  lemma FailedReloadsStop(s: State, frpcPath: string, configs: seq<RuntimeConfig>, oracle: string -> Oracle) returns (i: nat)
    requires Coherent(s) && !ReloadedAll(s, frpcPath, configs, oracle).ok
    ensures i < |configs| && OthersKept(s, ReloadedAll(s, frpcPath, configs, oracle).state, DesiredKeys(configs[..i + 1]))
  {
    i := FirstFailureEnds(s, frpcPath, configs, oracle);
    var before := ReloadedAll(s, frpcPath, configs[..i], oracle);
    var key := ProcessKey(configs[i].nodeId);
    ReloadedAllCoherent(s, frpcPath, configs[..i], oracle);
    ReloadedAllKeepsOthers(s, frpcPath, configs[..i], oracle);
    ReloadedKeepsOthers(before.state, key, frpcPath, configs[i], oracle(key));
    OthersKeptTwice(s, before.state, ReloadedAll(s, frpcPath, configs, oracle).state, DesiredKeys(configs[..i]), {key});
    DesiredUpTo(configs, i);
  }

  lemma DesiredUpTo(configs: seq<RuntimeConfig>, i: nat)
    requires i < |configs|
    ensures DesiredKeys(configs[..i + 1]) == DesiredKeys(configs[..i]) + {ProcessKey(configs[i].nodeId)}
  {
    assert configs[..i + 1] == configs[..i] + [configs[i]];
  }

  lemma SortedByNodeId(configs: seq<RuntimeConfig>)
    ensures var sorted := Sort(configs, ByNodeId);
            multiset(sorted) == multiset(configs) && forall i, j | 0 <= i < j < |sorted| :: StrLe(sorted[i].nodeId, sorted[j].nodeId)
  {
    SortMultiset(configs, ByNodeId);
    ByNodeIdOrders();
    SortSorted(configs, ByNodeId);
  }

  /** A failed Apply has stopped what is not wanted and gone through the configurations in the order of their node ids up
      to one that failed; later keys are as they were. */
  lemma FailedApplyStops(s: State, frpcPath: string, configs: seq<RuntimeConfig>, oracle: string -> Oracle)
    returns (sorted: seq<RuntimeConfig>, i: nat)
    requires Coherent(s) && !Applied(s, frpcPath, configs, oracle).ok
    ensures multiset(sorted) == multiset(configs) && forall i, j | 0 <= i < j < |sorted| :: StrLe(sorted[i].nodeId, sorted[j].nodeId)
    ensures i < |sorted|
    ensures OthersKept(StoppedAll(s, SortedKeys(StaleTable(s, DesiredKeys(configs)))), Applied(s, frpcPath, configs, oracle).state,
                       DesiredKeys(sorted[..i + 1]))
  {
    sorted := Sort(configs, ByNodeId);
    SortedByNodeId(configs);
    StoppedAllCoherent(s, SortedKeys(StaleTable(s, DesiredKeys(configs))));
    i := FailedReloadsStop(StoppedAll(s, SortedKeys(StaleTable(s, DesiredKeys(configs)))), frpcPath, sorted, oracle);
  }

  lemma ByNodeIdOrders()
    ensures TotalPreorder(ByNodeId)
  {
    StrLeOrders([]);
    assert forall a: RuntimeConfig, b: RuntimeConfig :: StrLe(a.nodeId, b.nodeId) || StrLe(b.nodeId, a.nodeId);
    forall a: RuntimeConfig, b: RuntimeConfig, c: RuntimeConfig | ByNodeId(a, b) && ByNodeId(b, c) ensures ByNodeId(a, c) {
      StrLeTransitive(a.nodeId, b.nodeId, c.nodeId);
    }
  }

  /** After a successful Apply whose keys agree the running keys are exactly the desired ones,
      each with its configuration, and a process kept its pid exactly when it was running with the same
      frpc, config path and restart key. */
  lemma ApplyConverges(s: State, frpcPath: string, configs: seq<RuntimeConfig>, oracle: string -> Oracle)
    requires Coherent(s) && KeysAgree(configs) && Applied(s, frpcPath, configs, oracle).ok
    ensures var s' := Applied(s, frpcPath, configs, oracle).state;
            && (forall k :: RunningKey(s', k) <==> k in DesiredKeys(configs))
            && (forall c | c in configs :: Settled(s, s', ProcessKey(c.nodeId), frpcPath, c))
  {
    var desired := DesiredKeys(configs);
    var keys := SortedKeys(StaleTable(s, desired));
    var stale := set k | k in keys;
    var s1 := StoppedAll(s, keys);
    var sorted := Sort(configs, ByNodeId);
    var s' := ReloadedAll(s1, frpcPath, sorted, oracle).state;
    StoppedAllCoherent(s, keys);
    StoppedAllEffect(s, keys);
    SortMembers(configs, ByNodeId);
    assert DesiredKeys(sorted) == desired;
    ReloadedAllSettles(s1, frpcPath, sorted, oracle);
    assert forall k :: k in stale <==> RunningKey(s, k) && k !in desired;
    forall c | c in configs ensures Settled(s, s', ProcessKey(c.nodeId), frpcPath, c) {
      assert ProcessKey(c.nodeId) in desired;
      SettledAfter(s, s1, s', stale, ProcessKey(c.nodeId), frpcPath, c);
    }
    forall k ensures RunningKey(s', k) <==> k in desired {
      if k in desired {
        var c :| c in configs && ProcessKey(c.nodeId) == k;
        assert Settled(s, s', k, frpcPath, c);
      } else {
        RunningAfter(s, s1, s', stale, desired, k);
      }
    }
  }

  lemma {:induction false} ReloadedAllSucceeds(s: State, frpcPath: string, configs: seq<RuntimeConfig>, oracle: string -> Oracle)
    requires frpcPath != "" && forall c | c in configs :: oracle(ProcessKey(c.nodeId)) == Oracle(true, true)
    ensures ReloadedAll(s, frpcPath, configs, oracle).ok
    decreases configs
  {
    if configs != [] {
      var key := ProcessKey(configs[0].nodeId);
      assert configs[0] in configs;
      ReloadedAllSucceeds(Reloaded(s, key, frpcPath, configs[0], oracle(key)).state, frpcPath, configs[1..], oracle);
    }
  }

  /** Apply succeeds when every start and reload it may try does. */
  lemma ApplySucceeds(s: State, frpcPath: string, configs: seq<RuntimeConfig>, oracle: string -> Oracle)
    requires frpcPath != "" && forall c | c in configs :: oracle(ProcessKey(c.nodeId)) == Oracle(true, true)
    ensures Applied(s, frpcPath, configs, oracle).ok
  {
    SortMembers(configs, ByNodeId);
    ReloadedAllSucceeds(StoppedAll(s, SortedKeys(StaleTable(s, DesiredKeys(configs)))), frpcPath, Sort(configs, ByNodeId), oracle);
  }

  lemma ReloadedStable(s: State, key: string, frpcPath: string, cfg: RuntimeConfig, o: Oracle)
    requires RunningKey(s, key) && !NeedsRestart(s, key, frpcPath, cfg) && Reloaded(s, key, frpcPath, cfg, o).ok
    ensures SameProcesses(s, Reloaded(s, key, frpcPath, cfg, o).state)
  {
  }

  /** The same processes under the same keys, with the same recorded frpc, config path and restart key. */
  ghost predicate SameProcesses(s: State, s': State) {
    && s'.live == s.live && s'.nextPid == s.nextPid && s'.detached == s.detached && s'.table.Keys == s.table.Keys
    && forall k | k in s.table ::
         s'.table[k].(logPath := "") == s.table[k].(logPath := "")
  }

  /** Every key already settled: the loop over the configurations only reloads. */
  lemma {:induction false} ReloadedAllStable(s: State, frpcPath: string, configs: seq<RuntimeConfig>, oracle: string -> Oracle)
    requires forall c | c in configs :: RunningKey(s, ProcessKey(c.nodeId)) && !NeedsRestart(s, ProcessKey(c.nodeId), frpcPath, c)
    requires ReloadedAll(s, frpcPath, configs, oracle).ok
    ensures SameProcesses(s, ReloadedAll(s, frpcPath, configs, oracle).state)
    decreases configs
  {
    if configs != [] {
      var key := ProcessKey(configs[0].nodeId);
      var s1 := Reloaded(s, key, frpcPath, configs[0], oracle(key)).state;
      ReloadedStable(s, key, frpcPath, configs[0], oracle(key));
      forall c | c in configs[1..]
        ensures RunningKey(s1, ProcessKey(c.nodeId)) && !NeedsRestart(s1, ProcessKey(c.nodeId), frpcPath, c)
      {
        StillSettled(s, s1, ProcessKey(c.nodeId), frpcPath, c);
      }
      ReloadedAllStable(s1, frpcPath, configs[1..], oracle);
    }
  }

  lemma StillSettled(s: State, s1: State, key: string, frpcPath: string, cfg: RuntimeConfig)
    requires SameProcesses(s, s1) && RunningKey(s, key) && !NeedsRestart(s, key, frpcPath, cfg)
    ensures RunningKey(s1, key) && !NeedsRestart(s1, key, frpcPath, cfg)
  {
    var p, q := s.table[key].(logPath := ""), s1.table[key].(logPath := "");
    assert p == q;
  }

  lemma NothingStale(s: State, desired: set<string>)
    requires forall k | RunningKey(s, k) :: k in desired
    ensures SortedKeys(StaleTable(s, desired)) == []
  {
    assert StaleTable(s, desired) == map[];
    assert |multiset(SortedKeys(StaleTable(s, desired)))| == 0;
  }

  /** Applying the same configurations again starts nothing, kills nothing and changes no pid. */
  lemma ApplyTwiceChangesNoProcess(s: State, frpcPath: string, configs: seq<RuntimeConfig>, oracle: string -> Oracle,
                                   oracle': string -> Oracle)
    requires Coherent(s) && KeysAgree(configs) && Applied(s, frpcPath, configs, oracle).ok
    requires Applied(Applied(s, frpcPath, configs, oracle).state, frpcPath, configs, oracle').ok
    ensures var s1 := Applied(s, frpcPath, configs, oracle).state;
            SameProcesses(s1, Applied(s1, frpcPath, configs, oracle').state)
  {
    var s1 := Applied(s, frpcPath, configs, oracle).state;
    ApplyConverges(s, frpcPath, configs, oracle);
    NothingStale(s1, DesiredKeys(configs));
    SortMembers(configs, ByNodeId);
    ReloadedAllStable(s1, frpcPath, Sort(configs, ByNodeId), oracle');
  }

  /** StopAll leaves no live process. */
  lemma StopAllLeavesNothing(s: State)
    requires Coherent(s)
    ensures var s' := StoppedAll(s, SortedKeys(s.table)); s'.table == map[] && s'.live == {}
  {
    var keys := SortedKeys(s.table);
    StoppedAllEffect(s, keys);
    StoppedAllCoherent(s, keys);
  }

  // ---------- what the table records ----------

  /** Each entry records what its process was started with. */
  ghost predicate Faithful(s: State) {
    forall k | k in s.table ::
      var p := s.table[k];
      p.pid in s.born && s.born[p.pid] == Birth(k, p.frpcPath, p.configPath, p.restartKey)
  }

  lemma ReloadedFaithful(s: State, key: string, frpcPath: string, cfg: RuntimeConfig, o: Oracle)
    requires Coherent(s) && Faithful(s)
    ensures Faithful(Reloaded(s, key, frpcPath, cfg, o).state)
  {
  }

  lemma {:induction false} ReloadedAllFaithful(s: State, frpcPath: string, configs: seq<RuntimeConfig>, oracle: string -> Oracle)
    requires Coherent(s) && Faithful(s)
    ensures Faithful(ReloadedAll(s, frpcPath, configs, oracle).state)
    decreases configs
  {
    if configs != [] {
      var key := ProcessKey(configs[0].nodeId);
      ReloadedFaithful(s, key, frpcPath, configs[0], oracle(key));
      ReloadedCoherent(s, key, frpcPath, configs[0], oracle(key));
      var r := Reloaded(s, key, frpcPath, configs[0], oracle(key));
      if r.ok {
        ReloadedAllFaithful(r.state, frpcPath, configs[1..], oracle);
      }
    }
  }

  lemma StoppedAllFaithful(s: State, keys: seq<string>)
    requires Coherent(s) && Faithful(s)
    ensures Faithful(StoppedAll(s, keys))
  {
    StoppedAllEffect(s, keys);
  }

  /** Undisturbed calls keep the records true. */
  lemma AppliedFaithful(s: State, frpcPath: string, configs: seq<RuntimeConfig>, oracle: string -> Oracle)
    requires Coherent(s) && Faithful(s)
    ensures Faithful(Applied(s, frpcPath, configs, oracle).state)
  {
    var stale := SortedKeys(StaleTable(s, DesiredKeys(configs)));
    StoppedAllFaithful(s, stale);
    StoppedAllCoherent(s, stale);
    ReloadedAllFaithful(StoppedAll(s, stale), frpcPath, Sort(configs, ByNodeId), oracle);
  }
}
