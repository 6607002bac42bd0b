/** The process manager under concurrency: any number of Apply, Reload, Start and StopAll calls, broken up
    where the source releases its mutex, mixed with processes that exit by themselves
    (internal/client/process.go). */
module ProcessSteps {
  import opened Order
  import opened ProcessManager

  /** What a call still has to do between two points at which it holds the mutex. */
  datatype Action =
    | Survey(frpcPath: string, configs: seq<RuntimeConfig>)          // Apply: find the stale entries
    | Take(key: string)                                              // stopKey: remove the entry
    | Kill(pid: nat)                                                 // stopKey: kill what was removed
    | Check(key: string, frpcPath: string, cfg: RuntimeConfig)       // reloadKey: look at the entry
    | Launch(key: string, frpcPath: string, cfg: RuntimeConfig)      // startKey
    | Reload(key: string, cfg: RuntimeConfig)                        // reload command, then record
    | ListAll                                                        // StopAll: list the entries

  datatype System = System(pm: State, threads: map<nat, seq<Action>>)

  datatype Event =
    | Call(thread: nat, action: Action)      // a request arrives on an idle thread
    | Step(thread: nat, ok: bool)            // its next locked part; `ok` is the outcome of a start or reload
    | Exit(pid: nat)                         // a process dies by itself
    | Reap(pid: nat)                         // the waiting goroutine notices

  /** Calls the service makes. */
  predicate IsCall(a: Action) {
    a.Survey? || a.ListAll? || a.Check? || a.Launch?
  }

  function TakeAll(keys: seq<string>): (r: seq<Action>)
    ensures |r| == |keys| && forall i | 0 <= i < |keys| :: r[i] == Take(keys[i])
  {
    seq(|keys|, i requires 0 <= i < |keys| => Take(keys[i]))
  }

  function CheckAll(frpcPath: string, configs: seq<RuntimeConfig>): (r: seq<Action>)
    ensures |r| == |configs|
    ensures forall i | 0 <= i < |configs| :: r[i] == Check(ProcessKey(configs[i].nodeId), frpcPath, configs[i])
  {
    seq(|configs|, i requires 0 <= i < |configs| => Check(ProcessKey(configs[i].nodeId), frpcPath, configs[i]))
  }

  datatype Effect = Effect(pm: State, follow: seq<Action>, abort: bool)

  /** One locked part. An error ends the whole call. */
  ghost function Act(pm: State, a: Action, ok: bool): Effect {
    match a
    case Survey(frpcPath, configs) =>
      Effect(pm, TakeAll(SortedKeys(StaleTable(pm, DesiredKeys(configs)))) + CheckAll(frpcPath, Sort(configs, ByNodeId)), false)
    case Take(key) =>
      Effect(Removed(pm, key), if key in pm.table then [Kill(pm.table[key].pid)] else [], false)
    case Kill(pid) => Effect(Killed(pm, pid), [], false)
    case Check(key, frpcPath, cfg) =>
      if !RunningKey(pm, key) then Effect(pm, [Launch(key, frpcPath, cfg)], false)
      else if NeedsRestart(pm, key, frpcPath, cfg) then Effect(pm, [Take(key), Launch(key, frpcPath, cfg)], false)
      else Effect(pm, [Reload(key, cfg)], false)
    case Launch(key, frpcPath, cfg) =>
      var r := Started(pm, key, frpcPath, cfg, ok);
      Effect(r.state, [], !r.ok)
    case Reload(key, cfg) =>
      if ok then Effect(Recorded(pm, key, cfg), [], false) else Effect(pm, [], true)
    case ListAll => Effect(pm, TakeAll(SortedKeys(pm.table)), false)
  }

  function Todo(s: System, t: nat): seq<Action> {
    if t in s.threads then s.threads[t] else []
  }

  ghost function Next(s: System, e: Event): System {
    match e
    case Call(t, a) =>
      if Todo(s, t) == [] && IsCall(a) then s.(threads := s.threads[t := [a]]) else s
    case Step(t, ok) =>
      var todo := Todo(s, t);
      if todo == [] then s
      else
        var r := Act(s.pm, todo[0], ok);
        System(r.pm, s.threads[t := if r.abort then [] else r.follow + todo[1..]])
    case Exit(pid) => s.(pm := Killed(s.pm, pid))
    case Reap(pid) => if s.pm.detached || pid in s.pm.live then s else s.(pm := Reaped(s.pm, pid))
  }

  ghost function Run(s: System, events: seq<Event>): System
    decreases |events|
  {
    if events == [] then s else Run(Next(s, events[0]), events[1..])
  }

  function Initial(detached: bool, defaultLog: string): System {
    System(State(detached, map[], {}, map[], 1, defaultLog), map[])
  }

  // ---------- ownership ----------

  /** A stopKey call has removed this process from the table and is about to kill it. */
  ghost predicate HeldBy(s: System, t: nat, pid: nat) {
    Todo(s, t) != [] && Todo(s, t)[0] == Kill(pid)
  }

  ghost predicate Held(s: System, pid: nat) {
    exists t :: HeldBy(s, t, pid)
  }

  ghost predicate Entry(s: State, pid: nat) {
    pid in s.born && RecordedPid(s, s.born[pid].key, pid)
  }

  /** Kills are pending only as the very next step of a call. */
  ghost predicate KillsFirst(s: System) {
    forall t, i | 0 < i < |Todo(s, t)| :: !Todo(s, t)[i].Kill?
  }

  ghost predicate TableSound(s: State) {
    && (forall p | p in s.born :: p < s.nextPid)
    && (forall k | k in s.table :: s.table[k].pid in s.born && s.born[s.table[k].pid].key == k)
    && (forall k | k in s.table && s.table[k].exited :: s.table[k].pid !in s.live)
    && (forall p | p in s.live :: p in s.born)
  }

  /** Every live process is the table entry of its key or in the hands of a stopKey. */
  ghost predicate Owned(s: System) {
    && TableSound(s.pm) && KillsFirst(s)
    && forall p | p in s.pm.live :: Entry(s.pm, p) || Held(s, p)
  }

  // Actions of a call other than its first are never kills; what an action schedules keeps that so.
  lemma ScheduledKillsFirst(pm: State, a: Action, ok: bool, rest: seq<Action>)
    requires forall i | 0 <= i < |rest| :: !rest[i].Kill?
    ensures forall i | 0 < i < |Act(pm, a, ok).follow + rest| :: !(Act(pm, a, ok).follow + rest)[i].Kill?
  {
    FollowKillsFirst(pm, a, ok);
    KillsFirstConcat(Act(pm, a, ok).follow, rest);
  }

  lemma FollowKillsFirst(pm: State, a: Action, ok: bool)
    ensures forall i | 0 < i < |Act(pm, a, ok).follow| :: !Act(pm, a, ok).follow[i].Kill?
  {
  }

  lemma KillsFirstConcat(follow: seq<Action>, rest: seq<Action>)
    requires forall i | 0 < i < |follow| :: !follow[i].Kill?
    requires forall i | 0 <= i < |rest| :: !rest[i].Kill?
    ensures forall i | 0 < i < |follow + rest| :: !(follow + rest)[i].Kill?
  {
  }

  lemma ActSound(pm: State, a: Action, ok: bool)
    requires TableSound(pm)
    ensures TableSound(Act(pm, a, ok).pm)
  {
  }

  /** One locked part: a live process afterwards was started by it, or was live before and kept its
      entry, or lost its entry to a stopKey that now holds it. */
  lemma ActOwnership(pm: State, a: Action, ok: bool, p: nat)
    requires TableSound(pm) && p in Act(pm, a, ok).pm.live
    ensures p !in pm.live ==> Entry(Act(pm, a, ok).pm, p)
    ensures p in pm.live && Entry(pm, p) ==>
              Entry(Act(pm, a, ok).pm, p) || (!Act(pm, a, ok).abort && Act(pm, a, ok).follow == [Kill(p)])
    ensures a != Kill(p)
  {
    match a
    case Launch(key, frpcPath, cfg) => LaunchOwnership(pm, key, frpcPath, cfg, ok, p);
    case Take(key) =>
      if Entry(pm, p) {
        TakeOwnership(pm, key, p);
      }
    case _ =>
  }

  lemma LaunchOwnership(pm: State, key: string, frpcPath: string, cfg: RuntimeConfig, ok: bool, p: nat)
    requires TableSound(pm) && p in Started(pm, key, frpcPath, cfg, ok).state.live
    ensures p !in pm.live ==> Entry(Started(pm, key, frpcPath, cfg, ok).state, p)
    ensures p in pm.live && Entry(pm, p) ==> Entry(Started(pm, key, frpcPath, cfg, ok).state, p)
  {
    if p in pm.live && Entry(pm, p) && pm.born[p].key == key {
      assert pm.table[key].pid == p;
    }
  }

  lemma TakeOwnership(pm: State, key: string, p: nat)
    requires TableSound(pm) && p in pm.live && Entry(pm, p)
    ensures Entry(Removed(pm, key), p) || (key in pm.table && pm.table[key].pid == p)
  {
  }

  lemma StepOwned(s: System, t: nat, ok: bool)
    requires Owned(s)
    ensures Owned(Next(s, Step(t, ok)))
  {
    var todo := Todo(s, t);
    if todo != [] {
      var s' := Next(s, Step(t, ok));
      var r := Act(s.pm, todo[0], ok);
      ActSound(s.pm, todo[0], ok);
      ScheduledKillsFirst(s.pm, todo[0], ok, todo[1..]);
      assert forall u | u != t :: Todo(s', u) == Todo(s, u);
      forall p | p in s'.pm.live ensures Entry(s'.pm, p) || Held(s', p) {
        ActOwnership(s.pm, todo[0], ok, p);
        if p in s.pm.live && !Entry(s.pm, p) {
          var u :| HeldBy(s, u, p);
          assert u != t;
          assert HeldBy(s', u, p);
        } else if !Entry(s'.pm, p) {
          assert HeldBy(s', t, p);
        }
      }
    }
  }

  /** Steps that move no thread past a kill and take no entry from a live process. */
  lemma UnheldStepOwned(s: System, s': System)
    requires Owned(s) && TableSound(s'.pm) && KillsFirst(s') && s'.pm.live <= s.pm.live
    requires forall p | p in s'.pm.live && Entry(s.pm, p) :: Entry(s'.pm, p)
    requires forall u | Todo(s, u) != [] :: Todo(s', u) == Todo(s, u)
    ensures Owned(s')
  {
    forall p | p in s'.pm.live ensures Entry(s'.pm, p) || Held(s', p) {
      if !Entry(s.pm, p) {
        var u :| HeldBy(s, u, p);
        assert HeldBy(s', u, p);
      }
    }
  }

  lemma NextOwned(s: System, e: Event)
    requires Owned(s)
    ensures Owned(Next(s, e))
  {
    match e
    case Step(t, ok) => StepOwned(s, t, ok);
    case Call(t, a) =>
      var s' := Next(s, e);
      assert forall u | u != t :: Todo(s', u) == Todo(s, u);
      UnheldStepOwned(s, s');
    case Exit(pid) =>
      var s' := Next(s, e);
      assert forall u :: Todo(s', u) == Todo(s, u);
      UnheldStepOwned(s, s');
    case Reap(pid) =>
      var s' := Next(s, e);
      assert forall u :: Todo(s', u) == Todo(s, u);
      UnheldStepOwned(s, s');
  }

  lemma {:induction false} RunOwned(s: System, events: seq<Event>)
    requires Owned(s)
    ensures Owned(Run(s, events))
    decreases |events|
  {
    if events != [] {
      NextOwned(s, events[0]);
      RunOwned(Next(s, events[0]), events[1..]);
    }
  }

  /** Whatever calls overlap and whenever processes exit, each live process the manager started is the
      table entry of its key or held by a stopKey about to kill it; so no key ever has two live processes
      that nobody is about to kill. */
  lemma NoOrphans(detached: bool, defaultLog: string, events: seq<Event>, p: nat, q: nat)
    requires var s := Run(Initial(detached, defaultLog), events); p in s.pm.live && q in s.pm.live
    ensures var s := Run(Initial(detached, defaultLog), events);
            && p in s.pm.born && q in s.pm.born
            && (Entry(s.pm, p) || Held(s, p))
            && (s.pm.born[p].key == s.pm.born[q].key && !Held(s, p) && !Held(s, q) ==> p == q)
  {
    RunOwned(Initial(detached, defaultLog), events);
  }

  /** Once no call is in progress, the table knows every live process. */
  lemma QuietMeansCoherent(detached: bool, defaultLog: string, events: seq<Event>)
    requires forall t :: Todo(Run(Initial(detached, defaultLog), events), t) == []
    ensures Coherent(Run(Initial(detached, defaultLog), events).pm)
  {
    var s := Run(Initial(detached, defaultLog), events);
    RunOwned(Initial(detached, defaultLog), events);
    forall p | p in s.pm.live ensures Entry(s.pm, p) {
      assert forall t :: !HeldBy(s, t, p);
    }
  }

  // ---------- the undisturbed calls are runs of these steps ----------

  lemma {:induction false} RunAppend(s: System, a: seq<Event>, b: seq<Event>)
    ensures Run(s, a + b) == Run(Run(s, a), b)
    decreases |a|
  {
    if a == [] {
      assert a + b == b;
    } else {
      assert (a + b)[1..] == a[1..] + b;
      RunAppend(Next(s, a[0]), a[1..], b);
    }
  }

  lemma RunOne(s: System, e: Event)
    ensures Run(s, [e]) == Next(s, e)
  {
    assert Run(Next(s, e), []) == Next(s, e);
    assert [e][1..] == [];
  }

  /** One step of thread `t`, whose call then goes on with `rest`. */
  lemma StepThread(s: System, t: nat, a: Action, rest: seq<Action>, ok: bool)
    requires Todo(s, t) == [a] + rest
    ensures var r := Act(s.pm, a, ok);
            Run(s, [Step(t, ok)]) == System(r.pm, s.threads[t := if r.abort then [] else r.follow + rest])
  {
    RunOne(s, Step(t, ok));
    assert ([a] + rest)[1..] == rest;
  }

  lemma TwoSteps(s: System, t: nat, a: Action, b: Action, rest: seq<Action>, ok: bool, ok': bool) returns (events: seq<Event>)
    requires Todo(s, t) == [a] + rest && !Act(s.pm, a, ok).abort && Act(s.pm, a, ok).follow == [b]
    ensures var r := Act(Act(s.pm, a, ok).pm, b, ok');
            Run(s, events) == System(r.pm, s.threads[t := if r.abort then [] else r.follow + rest])
  {
    var s1 := System(Act(s.pm, a, ok).pm, s.threads[t := [b] + rest]);
    StepThread(s, t, a, rest, ok);
    StepThread(s1, t, b, rest, ok');
    events := [Step(t, ok)] + [Step(t, ok')];
    RunAppend(s, [Step(t, ok)], [Step(t, ok')]);
    var r := Act(s1.pm, b, ok');
    SetTwice(s.threads, t, [b] + rest, if r.abort then [] else r.follow + rest);
  }

  lemma SetTwice(threads: map<nat, seq<Action>>, t: nat, first: seq<Action>, second: seq<Action>)
    ensures threads[t := first][t := second] == threads[t := second]
  {
  }

  lemma StopIsRun(s: System, t: nat, key: string, rest: seq<Action>) returns (events: seq<Event>)
    requires Todo(s, t) == [Take(key)] + rest
    ensures Run(s, events) == System(Stopped(s.pm, key), s.threads[t := rest])
  {
    if key in s.pm.table {
      events := TwoSteps(s, t, Take(key), Kill(s.pm.table[key].pid), rest, true, true);
      assert [] + rest == rest;
    } else {
      StepThread(s, t, Take(key), rest, true);
      events := [Step(t, true)];
      assert s.pm.table - {key} == s.pm.table;
      assert [] + rest == rest;
    }
  }

  lemma {:induction false} StopsAreRun(s: System, t: nat, keys: seq<string>, rest: seq<Action>) returns (events: seq<Event>)
    requires t in s.threads && Todo(s, t) == TakeAll(keys) + rest
    ensures Run(s, events) == System(StoppedAll(s.pm, keys), s.threads[t := rest])
    decreases keys
  {
    if keys == [] {
      events := [];
      assert TakeAll(keys) + rest == rest;
      assert s.threads[t := rest] == s.threads;
    } else {
      var rest1 := TakeAll(keys[1..]) + rest;
      assert TakeAll(keys) + rest == [Take(keys[0])] + rest1;
      var first := StopIsRun(s, t, keys[0], rest1);
      var s1 := System(Stopped(s.pm, keys[0]), s.threads[t := rest1]);
      var more := StopsAreRun(s1, t, keys[1..], rest);
      events := first + more;
      RunAppend(s, first, more);
      assert s1.threads[t := rest] == s.threads[t := rest];
    }
  }

  /** What is left for a thread after a reloadKey: the rest of its call, or nothing after an error. */
  function After(s: System, t: nat, r: Start, rest: seq<Action>): System {
    System(r.state, s.threads[t := if r.ok then rest else []])
  }

  lemma ReloadIsRun(s: System, t: nat, key: string, frpcPath: string, cfg: RuntimeConfig, o: Oracle, rest: seq<Action>)
    returns (events: seq<Event>)
    requires Todo(s, t) == [Check(key, frpcPath, cfg)] + rest
    ensures Run(s, events) == After(s, t, Reloaded(s.pm, key, frpcPath, cfg, o), rest)
  {
    assert [] + rest == rest;
    if !RunningKey(s.pm, key) {
      events := TwoSteps(s, t, Check(key, frpcPath, cfg), Launch(key, frpcPath, cfg), rest, true, o.startOk);
    } else if NeedsRestart(s.pm, key, frpcPath, cfg) {
      var rest1 := [Launch(key, frpcPath, cfg)] + rest;
      StepThread(s, t, Check(key, frpcPath, cfg), rest, true);
      var check := [Step(t, true)];
      assert [Take(key), Launch(key, frpcPath, cfg)] + rest == [Take(key)] + rest1;
      var s1 := System(s.pm, s.threads[t := [Take(key)] + rest1]);
      var stop := StopIsRun(s1, t, key, rest1);
      var s2 := System(Stopped(s.pm, key), s1.threads[t := rest1]);
      var launch := [Step(t, o.startOk)];
      StepThread(s2, t, Launch(key, frpcPath, cfg), rest, o.startOk);
      events := check + (stop + launch);
      RunAppend(s, check, stop + launch);
      RunAppend(s1, stop, launch);
      var r := Started(s2.pm, key, frpcPath, cfg, o.startOk);
      assert s2.threads[t := if r.ok then rest else []] == s.threads[t := if r.ok then rest else []];
    } else {
      events := TwoSteps(s, t, Check(key, frpcPath, cfg), Reload(key, cfg), rest, true, o.reloadOk);
    }
  }

  lemma CheckAllCons(frpcPath: string, configs: seq<RuntimeConfig>)
    requires configs != []
    ensures CheckAll(frpcPath, configs)
         == [Check(ProcessKey(configs[0].nodeId), frpcPath, configs[0])] + CheckAll(frpcPath, configs[1..])
  {
  }

  lemma {:induction false} ReloadsAreRun(s: System, t: nat, frpcPath: string, configs: seq<RuntimeConfig>, oracle: string -> Oracle)
    returns (events: seq<Event>)
    requires t in s.threads && Todo(s, t) == CheckAll(frpcPath, configs)
    ensures Run(s, events) == System(ReloadedAll(s.pm, frpcPath, configs, oracle).state, s.threads[t := []])
    decreases configs
  {
    if configs == [] {
      events := [];
      assert s.threads[t := []] == s.threads;
    } else {
      var key := ProcessKey(configs[0].nodeId);
      var rest := CheckAll(frpcPath, configs[1..]);
      CheckAllCons(frpcPath, configs);
      var r := Reloaded(s.pm, key, frpcPath, configs[0], oracle(key));
      var first := ReloadIsRun(s, t, key, frpcPath, configs[0], oracle(key), rest);
      var s1 := After(s, t, r, rest);
      if r.ok {
        var more := ReloadsAreRun(s1, t, frpcPath, configs[1..], oracle);
        events := first + more;
        RunAppend(s, first, more);
        SetTwice(s.threads, t, rest, []);
      } else {
        events := first;
      }
    }
  }

  /** A call arrives and takes its first step. */
  lemma CallAndStep(s: System, t: nat, a: Action)
    requires Todo(s, t) == [] && IsCall(a) && !Act(s.pm, a, true).abort
    ensures Run(s, [Call(t, a)] + [Step(t, true)]) == System(Act(s.pm, a, true).pm, s.threads[t := Act(s.pm, a, true).follow])
  {
    var s0 := s.(threads := s.threads[t := [a]]);
    RunOne(s, Call(t, a));
    assert [a] == [a] + [];
    StepThread(s0, t, a, [], true);
    var follow := Act(s.pm, a, true).follow;
    assert follow + [] == follow;
    RunAppend(s, [Call(t, a)], [Step(t, true)]);
    SetTwice(s.threads, t, [a], follow);
  }

  lemma SurveyIsRun(s: System, t: nat, frpcPath: string, configs: seq<RuntimeConfig>) returns (events: seq<Event>)
    requires Todo(s, t) == []
    ensures Run(s, events) == System(s.pm, s.threads[t :=
              TakeAll(SortedKeys(StaleTable(s.pm, DesiredKeys(configs)))) + CheckAll(frpcPath, Sort(configs, ByNodeId))])
  {
    CallAndStep(s, t, Survey(frpcPath, configs));
    events := [Call(t, Survey(frpcPath, configs))] + [Step(t, true)];
  }

  lemma PhasesAreRun(s: System, t: nat, keys: seq<string>, frpcPath: string, configs: seq<RuntimeConfig>, oracle: string -> Oracle)
    returns (events: seq<Event>)
    requires t in s.threads && Todo(s, t) == TakeAll(keys) + CheckAll(frpcPath, configs)
    ensures Run(s, events)
         == System(ReloadedAll(StoppedAll(s.pm, keys), frpcPath, configs, oracle).state, s.threads[t := []])
  {
    var checks := CheckAll(frpcPath, configs);
    var stops := StopsAreRun(s, t, keys, checks);
    var s1 := System(StoppedAll(s.pm, keys), s.threads[t := checks]);
    var reloads := ReloadsAreRun(s1, t, frpcPath, configs, oracle);
    RunAppend(s, stops, reloads);
    events := stops + reloads;
    assert s1.threads[t := []] == s.threads[t := []];
  }

  /** An Apply whose parts no other call or exit separates does what the sequential Apply is proved to
      do: its steps form a run that ends in the state `Applied` gives. */
  lemma ApplyIsRun(s: System, t: nat, frpcPath: string, configs: seq<RuntimeConfig>, oracle: string -> Oracle)
    returns (events: seq<Event>)
    requires Todo(s, t) == []
    ensures Run(s, events) == System(Applied(s.pm, frpcPath, configs, oracle).state, s.threads[t := []])
  {
    var stale := SortedKeys(StaleTable(s.pm, DesiredKeys(configs)));
    var sorted := Sort(configs, ByNodeId);
    var survey := SurveyIsRun(s, t, frpcPath, configs);
    var s1 := System(s.pm, s.threads[t := TakeAll(stale) + CheckAll(frpcPath, sorted)]);
    var phases := PhasesAreRun(s1, t, stale, frpcPath, sorted, oracle);
    RunAppend(s, survey, phases);
    events := survey + phases;
    assert s1.threads[t := []] == s.threads[t := []];
  }

  // ---------- what overlapping calls can spoil ----------

  /** Two overlapping reloads of one key: the first has found the process up to date and is running its
      reload command while the second restarts the process with another configuration. When the first
      finishes it records its own configuration for a process that was started with the other one, so the
      table is no longer faithful although every call succeeded. */
  lemma OverlappingReloadsMisrecord(s: System, t: nat, u: nat, key: string, frpcPath: string, a: RuntimeConfig, b: RuntimeConfig)
    returns (events: seq<Event>)
    requires t != u && Todo(s, t) == [Check(key, frpcPath, a)] && Todo(s, u) == [Check(key, frpcPath, b)]
    requires Coherent(s.pm) && RunningKey(s.pm, key) && !NeedsRestart(s.pm, key, frpcPath, a)
    requires frpcPath != "" && a.restartKey != b.restartKey
    ensures var s' := Run(s, events);
            && Todo(s', t) == [] && Todo(s', u) == []
            && RunningKey(s'.pm, key) && s'.pm.table[key].restartKey == a.restartKey
            && s'.pm.table[key].pid in s'.pm.born && s'.pm.born[s'.pm.table[key].pid].restartKey == b.restartKey
            && !Faithful(s'.pm)
  {
    var s1 := System(s.pm, s.threads[t := [Reload(key, a)]]);
    StepThread(s, t, Check(key, frpcPath, a), [], true);
    assert [Reload(key, a)] + [] == [Reload(key, a)];
    assert Todo(s1, u) == [Check(key, frpcPath, b)] + [];
    var restart := ReloadIsRun(s1, u, key, frpcPath, b, Oracle(true, true), []);
    var s2 := After(s1, u, Reloaded(s.pm, key, frpcPath, b, Oracle(true, true)), []);
    assert Todo(s2, t) == [Reload(key, a)] + [];
    StepThread(s2, t, Reload(key, a), [], true);
    events := [Step(t, true)] + (restart + [Step(t, true)]);
    RunAppend(s, [Step(t, true)], restart + [Step(t, true)]);
    RunAppend(s1, restart, [Step(t, true)]);
    assert Reloaded(s.pm, key, frpcPath, b, Oracle(true, true)).ok;
  }

  lemma CallsArrive(s: System, t: nat, a: Action, u: nat, b: Action)
    requires t != u && Todo(s, t) == [] && Todo(s, u) == [] && IsCall(a) && IsCall(b)
    ensures Run(s, [Call(t, a)] + [Call(u, b)]) == System(s.pm, s.threads[t := [a]][u := [b]])
  {
    RunOne(s, Call(t, a));
    RunOne(Next(s, Call(t, a)), Call(u, b));
    RunAppend(s, [Call(t, a)], [Call(u, b)]);
  }

  lemma LaunchFirst(detached: bool, defaultLog: string, key: string, frpcPath: string, cfg: RuntimeConfig)
    requires frpcPath != ""
    ensures var s := Run(Initial(detached, defaultLog), [Call(1, Launch(key, frpcPath, cfg))] + [Step(1, true)]);
            && s.threads == map[1 := []] && Coherent(s.pm) && RunningKey(s.pm, key) && !NeedsRestart(s.pm, key, frpcPath, cfg)
  {
    var s0 := Initial(detached, defaultLog);
    CallAndStep(s0, 1, Launch(key, frpcPath, cfg));
    assert Coherent(s0.pm);
    StartedCoherent(s0.pm, key, frpcPath, cfg, true);
  }

  /** From a manager that has done nothing, for every key, frpc and two configurations with different restart
      keys: a run that starts the key with the first one and then overlaps a reload of each, in which every
      call succeeds, ends with a record that is not true. */
  lemma MisrecordHappens(detached: bool, defaultLog: string, key: string, frpcPath: string, a: RuntimeConfig, b: RuntimeConfig)
    returns (events: seq<Event>)
    requires frpcPath != "" && a.restartKey != b.restartKey
    ensures !Faithful(Run(Initial(detached, defaultLog), events).pm)
  {
    var s0 := Initial(detached, defaultLog);
    var launch := [Call(1, Launch(key, frpcPath, a))] + [Step(1, true)];
    LaunchFirst(detached, defaultLog, key, frpcPath, a);
    var s1 := Run(s0, launch);
    var calls := [Call(1, Check(key, frpcPath, a))] + [Call(2, Check(key, frpcPath, b))];
    CallsArrive(s1, 1, Check(key, frpcPath, a), 2, Check(key, frpcPath, b));
    var s2 := Run(s1, calls);
    var overlap := OverlappingReloadsMisrecord(s2, 1, 2, key, frpcPath, a, b);
    events := launch + (calls + overlap);
    RunAppend(s0, launch, calls + overlap);
    RunAppend(s1, calls, overlap);
  }

  // ---------- exactly when the records stay true ----------

  /** The key has no entry, or one that already records this config path and restart key. */
  predicate Matches(pm: State, key: string, cfg: RuntimeConfig) {
    key in pm.table ==> pm.table[key].configPath == cfg.configPath && pm.table[key].restartKey == cfg.restartKey
  }

  lemma RecordedFaithfulIff(pm: State, key: string, cfg: RuntimeConfig)
    requires Faithful(pm)
    ensures Faithful(Recorded(pm, key, cfg)) <==> Matches(pm, key, cfg)
  {
    if key in pm.table {
      assert Recorded(pm, key, cfg).table[key].pid == pm.table[key].pid;
    }
  }

  lemma StartedFaithful(pm: State, key: string, frpcPath: string, cfg: RuntimeConfig, ok: bool)
    requires Faithful(pm) && TableSound(pm)
    ensures Faithful(Started(pm, key, frpcPath, cfg, ok).state)
  {
  }

  /** A locked part keeps the records true, except that a successful reload does so exactly when its key has no
      entry or one that records the same config path and restart key. */
  lemma ActFaithfulIff(pm: State, a: Action, ok: bool)
    requires Faithful(pm) && TableSound(pm)
    ensures Faithful(Act(pm, a, ok).pm) <==> (a.Reload? && ok ==> Matches(pm, a.key, a.cfg))
  {
    match a
    case Launch(key, frpcPath, cfg) => StartedFaithful(pm, key, frpcPath, cfg, ok);
    case Reload(key, cfg) => RecordedFaithfulIff(pm, key, cfg);
    case _ =>
  }

  /** If the event is the end of a successful reload, its key matches. */
  predicate ReloadMatches(s: System, e: Event) {
    e.Step? && e.ok && Todo(s, e.thread) != [] && Todo(s, e.thread)[0].Reload? ==>
      Matches(s.pm, Todo(s, e.thread)[0].key, Todo(s, e.thread)[0].cfg)
  }

  lemma ExitFaithful(pm: State, pid: nat)
    requires Faithful(pm)
    ensures Faithful(Killed(pm, pid)) && Faithful(Reaped(pm, pid))
  {
  }

  lemma NextFaithfulIff(s: System, e: Event)
    requires TableSound(s.pm) && Faithful(s.pm)
    ensures Faithful(Next(s, e).pm) <==> ReloadMatches(s, e)
  {
    match e
    case Step(t, ok) =>
      if Todo(s, t) != [] {
        ActFaithfulIff(s.pm, Todo(s, t)[0], ok);
      }
    case Exit(pid) => ExitFaithful(s.pm, pid);
    case Reap(pid) => ExitFaithful(s.pm, pid);
    case Call(_, _) =>
  }

  ghost predicate AlwaysFaithful(s: System, events: seq<Event>)
    decreases |events|
  {
    Faithful(s.pm) && (events != [] ==> AlwaysFaithful(Next(s, events[0]), events[1..]))
  }

  ghost predicate ReloadsMatch(s: System, events: seq<Event>)
    decreases |events|
  {
    events != [] ==> ReloadMatches(s, events[0]) && ReloadsMatch(Next(s, events[0]), events[1..])
  }

  lemma {:induction false} RunFaithfulIff(s: System, events: seq<Event>)
    requires Owned(s) && Faithful(s.pm)
    ensures AlwaysFaithful(s, events) <==> ReloadsMatch(s, events)
    decreases |events|
  {
    if events != [] {
      NextOwned(s, events[0]);
      NextFaithfulIff(s, events[0]);
      if ReloadMatches(s, events[0]) {
        RunFaithfulIff(Next(s, events[0]), events[1..]);
      } else {
        assert !AlwaysFaithful(Next(s, events[0]), events[1..]);
      }
    }
  }

  /** Whatever overlaps, the table always records what each process was started with if and only if every
      successful reload ends on a key without an entry or with one of its own config path and restart key. */
  lemma RecordsTrueIff(detached: bool, defaultLog: string, events: seq<Event>)
    ensures AlwaysFaithful(Initial(detached, defaultLog), events) <==> ReloadsMatch(Initial(detached, defaultLog), events)
  {
    RunFaithfulIff(Initial(detached, defaultLog), events);
  }

  /** The thread is running a reload command for the key. */
  ghost predicate Reloading(s: System, t: nat, key: string, cfg: RuntimeConfig) {
    Todo(s, t) != [] && Todo(s, t)[0] == Reload(key, cfg)
  }

  /** No process is started for a key while another call runs a reload command for the key and another
      configuration. */
  ghost predicate StartsApart(s: System, e: Event) {
    e.Step? && Todo(s, e.thread) != [] && Todo(s, e.thread)[0].Launch? ==>
      var a := Todo(s, e.thread)[0];
      forall u, cfg | u != e.thread && Reloading(s, u, a.key, cfg) :: SameProcess(cfg, a.cfg)
  }

  ghost predicate AlwaysApart(s: System, events: seq<Event>)
    decreases |events|
  {
    events != [] ==> StartsApart(s, events[0]) && AlwaysApart(Next(s, events[0]), events[1..])
  }

  /** Reload commands run only as the next step of a call, for keys that match. */
  ghost predicate ReloadsReady(s: System) {
    && (forall t, key, cfg | Reloading(s, t, key, cfg) :: Matches(s.pm, key, cfg))
    && (forall t, i | 0 < i < |Todo(s, t)| :: !Todo(s, t)[i].Reload?)
  }

  /** What one locked part does to another thread's reload. */
  lemma ActKeepsMatch(pm: State, a: Action, ok: bool, key: string, cfg: RuntimeConfig)
    requires Matches(pm, key, cfg) && (a.Reload? ==> Matches(pm, a.key, a.cfg))
    requires a.Launch? && a.key == key ==> SameProcess(cfg, a.cfg)
    ensures Matches(Act(pm, a, ok).pm, key, cfg)
  {
  }

  lemma FollowReady(pm: State, a: Action, ok: bool, rest: seq<Action>)
    requires forall i | 0 <= i < |rest| :: !rest[i].Reload?
    ensures var todo := if Act(pm, a, ok).abort then [] else Act(pm, a, ok).follow + rest;
            && (forall i | 0 < i < |todo| :: !todo[i].Reload?)
            && (todo != [] && todo[0].Reload? ==> Matches(Act(pm, a, ok).pm, todo[0].key, todo[0].cfg))
  {
    FollowMatches(pm, a, ok);
    ReloadsFirstConcat(Act(pm, a, ok).follow, rest);
  }

  lemma FollowMatches(pm: State, a: Action, ok: bool)
    ensures var follow := Act(pm, a, ok).follow;
            && (forall i | 0 < i < |follow| :: !follow[i].Reload?)
            && (follow != [] && follow[0].Reload? ==> Matches(Act(pm, a, ok).pm, follow[0].key, follow[0].cfg))
  {
  }

  lemma ReloadsFirstConcat(follow: seq<Action>, rest: seq<Action>)
    requires forall i | 0 < i < |follow| :: !follow[i].Reload?
    requires forall i | 0 <= i < |rest| :: !rest[i].Reload?
    ensures forall i | 0 < i < |follow + rest| :: !(follow + rest)[i].Reload?
    ensures follow + rest != [] && (follow + rest)[0].Reload? ==> follow != [] && (follow + rest)[0] == follow[0]
  {
  }

  lemma StepReady(s: System, t: nat, ok: bool)
    requires ReloadsReady(s) && StartsApart(s, Step(t, ok)) && Todo(s, t) != []
    ensures ReloadsReady(Next(s, Step(t, ok)))
  {
    var todo := Todo(s, t);
    var s' := Next(s, Step(t, ok));
    var a := todo[0];
    FollowReady(s.pm, a, ok, todo[1..]);
    assert forall u | u != t :: Todo(s', u) == Todo(s, u);
    assert a.Reload? ==> Reloading(s, t, a.key, a.cfg);
    forall u, key, cfg | Reloading(s', u, key, cfg) ensures Matches(s'.pm, key, cfg) {
      if u != t {
        assert Reloading(s, u, key, cfg);
        ActKeepsMatch(s.pm, a, ok, key, cfg);
      }
    }
  }

  lemma NextReady(s: System, e: Event)
    requires ReloadsReady(s) && StartsApart(s, e)
    ensures ReloadsReady(Next(s, e)) && ReloadMatches(s, e)
  {
    var s' := Next(s, e);
    match e
    case Step(t, ok) =>
      if Todo(s, t) != [] {
        StepReady(s, t, ok);
        assert Todo(s, t)[0].Reload? ==> Reloading(s, t, Todo(s, t)[0].key, Todo(s, t)[0].cfg);
      }
    case Call(t, a) =>
      assert forall u | u != t :: Todo(s', u) == Todo(s, u);
      SameMatches(s, s');
    case Exit(pid) => SameMatches(s, s');
    case Reap(pid) => SameMatches(s, s');
  }

  /** No new reload, and nothing a reload looks at has changed. */
  lemma SameMatches(s: System, s': System)
    requires ReloadsReady(s)
    requires forall t :: Todo(s', t) == Todo(s, t) || (|Todo(s', t)| == 1 && !Todo(s', t)[0].Reload?)
    requires forall key, cfg | Matches(s.pm, key, cfg) :: Matches(s'.pm, key, cfg)
    ensures ReloadsReady(s')
  {
    forall t, key, cfg | Reloading(s', t, key, cfg) ensures Matches(s'.pm, key, cfg) {
      assert Reloading(s, t, key, cfg);
    }
  }

  lemma {:induction false} ApartRunsMatch(s: System, events: seq<Event>)
    requires ReloadsReady(s) && AlwaysApart(s, events)
    ensures ReloadsMatch(s, events)
    decreases |events|
  {
    if events != [] {
      NextReady(s, events[0]);
      ApartRunsMatch(Next(s, events[0]), events[1..]);
    }
  }

  /** So the records stay true in every run in which no process is started for a key while another call reloads
      the key with another configuration. */
  lemma RecordsTrue(detached: bool, defaultLog: string, events: seq<Event>)
    requires AlwaysApart(Initial(detached, defaultLog), events)
    ensures AlwaysFaithful(Initial(detached, defaultLog), events)
  {
    ApartRunsMatch(Initial(detached, defaultLog), events);
    RecordsTrueIff(detached, defaultLog, events);
  }
}
