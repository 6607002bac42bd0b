/** Store, files and processes agree along every sequential run of requests, as long as some rule is
    enabled: what the store renders to is what the files hold and what the process table records. */
module Agreement {
  import opened Wrappers
  import opened Text
  import opened Validate
  import opened Rules
  import opened DirectRender
  import opened DirectPartition
  import opened DirectApart
  import opened Transaction
  import opened Rendering
  import FrpConfig
  import PM = ProcessManager

  // ---------- requests, one after the other ----------

  datatype Event =
    | Submit(request: Request, now: int, fate: Fate)
    | AddNode(input: NodeInput, generatedId: string, now: int)
    | RemoveNode(id: string)
    | Exit(pid: nat)     // a process dies
    | Reap(pid: nat)     // its waiting goroutine notices

  /** An in-place change of the store; an error leaves it as it was. */
  function InPlace(w: World, change: Result<Data>): Done {
    if change.Ok? then Done(w.(store := change.value), Ok(()))
    else Done(w.(store := Normalized(w.store)), Err(change.error))
  }

  ghost function Handle(isIP: string -> bool, render: Renderer, w: World, r: Request, now: int, fate: Fate): Done {
    var plan := Prepare(isIP, w.store, r, now);
    if plan.Err? then Done(w, Err(plan.error))
    else
      match plan.value
      case Replace(newData) => ApplyData(render, w, w.store, newData, fate)
      case SetNode(id, node) => InPlace(w, SetNodeNow(Normalized(w.store), id, node))
  }

  function HandleAddNode(w: World, input: NodeInput, generatedId: string, now: int): Done {
    var node := BuildNode(input, generatedId, now);
    if node.Err? then Done(w, Err(node.error)) else InPlace(w, CreateNodeNow(Normalized(w.store), node.value))
  }

  function HandleRemoveNode(w: World, id: string): Done {
    InPlace(w, DeleteNodeNow(Normalized(w.store), id))
  }

  ghost function Next(isIP: string -> bool, render: Renderer, w: World, e: Event): World {
    match e
    case Submit(r, now, fate) => Handle(isIP, render, w, r, now, fate).world
    case AddNode(input, generatedId, now) => HandleAddNode(w, input, generatedId, now).world
    case RemoveNode(id) => HandleRemoveNode(w, id).world
    case Exit(pid) => w.(procs := PM.Killed(w.procs, pid))
    case Reap(pid) => if pid in w.procs.live then w else w.(procs := PM.Reaped(w.procs, pid))
  }

  ghost function Run(isIP: string -> bool, render: Renderer, w: World, events: seq<Event>): World
    decreases |events|
  {
    if events == [] then w else Run(isIP, render, Next(isIP, render, w, events[0]), events[1..])
  }

  // ---------- the invariant ----------

  /** The table has an entry for each configuration, with its config path and restart key. */
  ghost predicate Tabled(s: PM.State, frpcPath: string, configs: seq<PM.RuntimeConfig>) {
    forall c | c in configs ::
      && PM.ProcessKey(c.nodeId) in s.table
      && !PM.NeedsRestart(s, PM.ProcessKey(c.nodeId), frpcPath, c)
  }

  /** Store, files and process table tell the same. */
  ghost predicate InStep(w: World, rendered: Result<seq<PM.RuntimeConfig>>) {
    rendered.Ok? && Texts(w.files, rendered.value) && Tabled(w.procs, w.store.frpc.path, rendered.value)
  }

  ghost predicate Agree(render: Renderer, w: World) {
    SomeEnabled(w.store) ==> InStep(w, render(w.store))
  }

  ghost predicate Good(render: Renderer, w: World) {
    && Normalized(w.store) == w.store && Consistent(w.store) && PM.Coherent(w.procs) && Agree(render, w)
  }

  /** What the proofs need of a renderer: configurations that can be written and applied together, and that
      depend on no node that enabled rules do not use. */
  ghost predicate Proper(render: Renderer) {
    && (forall d | Consistent(d) && render(d).Ok? :: Mergeable(render(d).value))
    && (forall d: Data, d': Data | d' == d.(nodes := d'.nodes) && Consistent(d) && SomeEnabled(d) && SameForEnabled(d, d') :: render(d') == render(d))
  }

  /** When an apply fails, the old configurations are applied again with success. */
  ghost predicate Recovers(isIP: string -> bool, render: Renderer, w: World, e: Event) {
    e.Submit? ==>
      var plan := Prepare(isIP, w.store, e.request, e.now);
      plan.Ok? && plan.value.Replace? ==> RecoversWith(render, w, plan.value.newData, e.fate)
  }

  ghost predicate RecoversWith(render: Renderer, w: World, data: Data, fate: Fate) {
    var d := Normalized(data);
    var before := render(w.store);
    Accepted(render, data, fate) && before.Ok? ==>
      var applied := PM.Applied(w.procs, d.frpc.path, render(d).value, fate.apply);
      !applied.ok ==> PM.Applied(applied.state, w.store.frpc.path, before.value, fate.reapply).ok
  }

  ghost predicate Orderly(isIP: string -> bool, render: Renderer, w: World, events: seq<Event>)
    decreases |events|
  {
    events != [] ==>
      && Recovers(isIP, render, w, events[0])
      && Orderly(isIP, render, Next(isIP, render, w, events[0]), events[1..])
  }

  // ---------- plans ----------

  lemma PlanKeepsFrpc(isIP: string -> bool, snap: Data, r: Request, now: int)
    requires Prepare(isIP, snap, r, now).Ok? && Prepare(isIP, snap, r, now).value.Replace?
    ensures Prepare(isIP, snap, r, now).value.newData.frpc == snap.frpc
  {
    if r.ChangeNode? {
      NodePlanKeepsFrpc(snap, TrimSpace(r.id), r.node, r.token, now);
    } else if r.SaveRoom? || r.PatchRoom? || r.DeleteRoom? {
      RoomRequestEffect(isIP, snap, r, now);
    } else {
      PortRequestEffect(isIP, snap, r, now);
    }
  }

  lemma NodePlanKeepsFrpc(snap: Data, id: string, input: NodeInput, token: TokenChange, now: int)
    requires PlanNamedNode(snap, id, input, token, now).Ok? && PlanNamedNode(snap, id, input, token, now).value.Replace?
    ensures PlanNamedNode(snap, id, input, token, now).value.newData.frpc == snap.frpc
  {
  }

  lemma SameFrpc(d: Data, d': Data)
    requires d'.frpc == d.frpc
    ensures Normalized(d) == d ==> Normalized(d') == d'
  {
  }

  lemma PlanGood(isIP: string -> bool, d: Data, r: Request, now: int)
    requires Consistent(d) && Normalized(d) == d
    requires Prepare(isIP, d, r, now).Ok? && Prepare(isIP, d, r, now).value.Replace?
    ensures var d' := Prepare(isIP, d, r, now).value.newData; Consistent(d') && Normalized(d') == d'
  {
    PreparedConsistent(isIP, d, r, now);
    PlanKeepsFrpc(isIP, d, r, now);
    SameFrpc(d, Prepare(isIP, d, r, now).value.newData);
  }

  // ---------- applying ----------

  lemma AppliedTabled(s: PM.State, frpcPath: string, configs: seq<PM.RuntimeConfig>, oracle: string -> PM.Oracle)
    requires PM.Coherent(s) && PM.KeysAgree(configs) && PM.Applied(s, frpcPath, configs, oracle).ok
    ensures Tabled(PM.Applied(s, frpcPath, configs, oracle).state, frpcPath, configs)
    ensures PM.Coherent(PM.Applied(s, frpcPath, configs, oracle).state)
  {
    PM.AppliedCoherent(s, frpcPath, configs, oracle);
    PM.ApplyConverges(s, frpcPath, configs, oracle);
    var s' := PM.Applied(s, frpcPath, configs, oracle).state;
    forall c | c in configs
      ensures PM.ProcessKey(c.nodeId) in s'.table && !PM.NeedsRestart(s', PM.ProcessKey(c.nodeId), frpcPath, c)
    {
      assert PM.Settled(s, s', PM.ProcessKey(c.nodeId), frpcPath, c);
    }
  }

  lemma CommitAgrees(render: Renderer, w: World, data: Data, fate: Fate)
    requires Proper(render) && PM.Coherent(w.procs) && Consistent(data) && Normalized(data) == data && Accepted(render, data, fate)
    requires PM.Applied(w.procs, data.frpc.path, render(data).value, fate.apply).ok
    ensures var next := render(data).value;
            var procs := PM.Applied(w.procs, data.frpc.path, next, fate.apply).state;
            Good(render, World(data, WriteAll(w.files, next), procs))
  {
    var next := render(data).value;
    assert Mergeable(next);
    WriteAllEffect(w.files, next);
    AppliedTabled(w.procs, data.frpc.path, next, fate.apply);
  }

  lemma RollbackAgrees(render: Renderer, w: World, files: map<string, string>, procs: PM.State, fate: Fate)
    requires Proper(render) && Good(render, w) && PM.Coherent(procs)
    requires render(w.store).Ok? ==> PM.Applied(procs, w.store.frpc.path, render(w.store).value, fate.reapply).ok
    ensures Good(render, RolledBack(render(w.store), w.store, files, procs, fate))
  {
    if render(w.store).Ok? {
      var before := render(w.store).value;
      assert Mergeable(before);
      WriteAllEffect(files, before);
      AppliedTabled(procs, w.store.frpc.path, before, fate.reapply);
    }
  }

  lemma ApplyDataAgrees(render: Renderer, w: World, data: Data, fate: Fate)
    requires Proper(render) && Good(render, w) && Consistent(data) && Normalized(data) == data && RecoversWith(render, w, data, fate)
    ensures Good(render, ApplyData(render, w, w.store, data, fate).world)
  {
    if Accepted(render, data, fate) && render(w.store) != Err(Diverges) {
      var next := render(data).value;
      var applied := PM.Applied(w.procs, data.frpc.path, next, fate.apply);
      AcceptedCases(render, w, w.store, data, fate, next, applied);
      if applied.ok {
        CommitAgrees(render, w, data, fate);
      } else {
        PM.AppliedCoherent(w.procs, data.frpc.path, next, fate.apply);
        RollbackAgrees(render, w, WriteAll(w.files, next), applied.state, fate);
      }
    } else if !Accepted(render, data, fate) {
      RejectedChangesNothing(render, w, w.store, data, fate);
    }
  }

  // ---------- changes in place ----------

  lemma NodeChangeAgrees(render: Renderer, w: World, d': Data)
    requires Proper(render) && Good(render, w) && d' == w.store.(nodes := d'.nodes) && SameForEnabled(w.store, d') && Consistent(d')
    ensures Good(render, w.(store := d'))
  {
    SameFrpc(w.store, d');
    assert SomeEnabled(w.store) ==> render(d') == render(w.store);
  }

  lemma SetNodeConsistent(d: Data, id: string, node: NodeConfig)
    requires Consistent(d) && id in d.nodes && node.id == id
    ensures Consistent(d.(nodes := d.nodes[id := node]))
  {
    assert d.nodes[id := node].Keys == d.nodes.Keys;
  }

  lemma SetNodeSame(d: Data, id: string, node: NodeConfig)
    requires !EnabledRuleUsesNode(d, id)
    ensures SameForEnabled(d, d.(nodes := d.nodes[id := node]))
  {
  }

  lemma AddNodeConsistent(d: Data, node: NodeConfig)
    requires Consistent(d) && node.id !in d.nodes && IdPattern(node.id, 2)
    ensures Consistent(d.(nodes := d.nodes[node.id := node])) && SameForEnabled(d, d.(nodes := d.nodes[node.id := node]))
  {
  }

  lemma RemoveNodeConsistent(d: Data, id: string)
    requires Consistent(d) && forall k | k in d.portRules :: d.portRules[k].nodeId != id
    ensures Consistent(d.(nodes := d.nodes - {id})) && SameForEnabled(d, d.(nodes := d.nodes - {id}))
  {
  }

  // ---------- runs ----------

  lemma PlannedSetNode(isIP: string -> bool, snap: Data, r: Request, now: int)
    requires Prepare(isIP, snap, r, now).Ok? && Prepare(isIP, snap, r, now).value.SetNode?
    ensures var p := Prepare(isIP, snap, r, now).value;
            p.nodeId in snap.nodes && p.config.id == p.nodeId && !EnabledRuleUsesNode(snap, p.nodeId)
  {
    if r.ChangeNode? {
      SetNodeFacts(snap, TrimSpace(r.id), r.node, r.token, now);
    }
  }

  lemma SubmitGood(isIP: string -> bool, render: Renderer, w: World, r: Request, now: int, fate: Fate)
    requires Proper(render) && Good(render, w)
    requires Recovers(isIP, render, w, Submit(r, now, fate))
    ensures Good(render, Handle(isIP, render, w, r, now, fate).world)
  {
    var plan := Prepare(isIP, w.store, r, now);
    if plan.Ok? {
      match plan.value
      case Replace(data) =>
        PlanGood(isIP, w.store, r, now);
        ApplyDataAgrees(render, w, data, fate);
      case SetNode(id, node) =>
        PlannedSetNode(isIP, w.store, r, now);
        SetNodeConsistent(w.store, id, node);
        SetNodeSame(w.store, id, node);
        NodeChangeAgrees(render, w, w.store.(nodes := w.store.nodes[id := node]));
    }
  }

  lemma ExitCoherent(s: PM.State, pid: nat)
    requires PM.Coherent(s)
    ensures PM.Coherent(PM.Killed(s, pid)) && (pid !in s.live ==> PM.Coherent(PM.Reaped(s, pid)))
  {
  }

  lemma ExitTabled(s: PM.State, pid: nat, frpcPath: string, configs: seq<PM.RuntimeConfig>)
    requires Tabled(s, frpcPath, configs)
    ensures Tabled(PM.Killed(s, pid), frpcPath, configs) && Tabled(PM.Reaped(s, pid), frpcPath, configs)
  {
  }

  lemma ProcsGood(render: Renderer, w: World, procs: PM.State)
    requires Good(render, w) && PM.Coherent(procs)
    requires forall configs | Tabled(w.procs, w.store.frpc.path, configs) :: Tabled(procs, w.store.frpc.path, configs)
    ensures Good(render, w.(procs := procs))
  {
  }

  lemma ExitGood(render: Renderer, w: World, pid: nat)
    requires Good(render, w)
    ensures Good(render, w.(procs := PM.Killed(w.procs, pid)))
    ensures pid !in w.procs.live ==> Good(render, w.(procs := PM.Reaped(w.procs, pid)))
  {
    ExitCoherent(w.procs, pid);
    forall configs | Tabled(w.procs, w.store.frpc.path, configs)
      ensures Tabled(PM.Killed(w.procs, pid), w.store.frpc.path, configs) && Tabled(PM.Reaped(w.procs, pid), w.store.frpc.path, configs)
    {
      ExitTabled(w.procs, pid, w.store.frpc.path, configs);
    }
    ProcsGood(render, w, PM.Killed(w.procs, pid));
    if pid !in w.procs.live {
      ProcsGood(render, w, PM.Reaped(w.procs, pid));
    }
  }

  lemma AddNodeGood(render: Renderer, w: World, input: NodeInput, generatedId: string, now: int)
    requires Proper(render) && Good(render, w)
    ensures Good(render, HandleAddNode(w, input, generatedId, now).world)
  {
    var node := BuildNode(input, generatedId, now);
    if node.Ok? && node.value.id !in w.store.nodes {
      AddNodeConsistent(w.store, node.value);
      NodeChangeAgrees(render, w, w.store.(nodes := w.store.nodes[node.value.id := node.value]));
    }
  }

  lemma RemoveNodeGood(render: Renderer, w: World, id: string)
    requires Proper(render) && Good(render, w)
    ensures Good(render, HandleRemoveNode(w, id).world)
  {
    if DeleteNodeNow(w.store, id).Ok? {
      RemoveNodeConsistent(w.store, TrimSpace(id));
      NodeChangeAgrees(render, w, w.store.(nodes := w.store.nodes - {TrimSpace(id)}));
    }
  }

  lemma NextGood(isIP: string -> bool, render: Renderer, w: World, e: Event)
    requires Proper(render) && Good(render, w) && Recovers(isIP, render, w, e)
    ensures Good(render, Next(isIP, render, w, e))
  {
    match e
    case Submit(r, now, fate) => SubmitGood(isIP, render, w, r, now, fate);
    case AddNode(input, generatedId, now) => AddNodeGood(render, w, input, generatedId, now);
    case RemoveNode(id) => RemoveNodeGood(render, w, id);
    case Exit(pid) => ExitGood(render, w, pid);
    case Reap(pid) => ExitGood(render, w, pid);
  }

  lemma {:induction false} RunGood(isIP: string -> bool, render: Renderer, w: World, events: seq<Event>)
    requires Proper(render) && Good(render, w) && Orderly(isIP, render, w, events)
    ensures Good(render, Run(isIP, render, w, events))
    decreases |events|
  {
    if events != [] {
      NextGood(isIP, render, w, events[0]);
      RunGood(isIP, render, Next(isIP, render, w, events[0]), events[1..]);
    }
  }

  lemma RendererIsProper(env: Env)
    ensures Proper(RendererOf(env))
  {
    forall d | Consistent(d) && RendererOf(env)(d).Ok? ensures Mergeable(RendererOf(env)(d).value) {
      RenderedMergeable(env, d);
    }
    forall d: Data, d': Data | d' == d.(nodes := d'.nodes) && Consistent(d) && SomeEnabled(d) && SameForEnabled(d, d')
      ensures RendererOf(env)(d') == RendererOf(env)(d)
    {
      RenderReadsEnabledNodes(env, d, d');
    }
  }

  /** Once an apply of the store has succeeded, every sequential run keeps store, files and processes in
      agreement whenever some rule is enabled, through node changes that render nothing and through
      failed requests whose old configurations could be applied again. */
  lemma RunsAgree(env: Env, start: World, fate: Fate, events: seq<Event>)
    requires Consistent(start.store) && Normalized(start.store) == start.store && PM.Coherent(start.procs)
    requires ApplyData(RendererOf(env), start, start.store, start.store, fate).result.Ok?
    requires Orderly(env.isIP, RendererOf(env), ApplyData(RendererOf(env), start, start.store, start.store, fate).world, events)
    ensures var end := Run(env.isIP, RendererOf(env), ApplyData(RendererOf(env), start, start.store, start.store, fate).world, events);
            Agree(RendererOf(env), end) && Consistent(end.store) && Normalized(end.store) == end.store
  {
    RendererIsProper(env);
    RunsAgreeWith(env.isIP, RendererOf(env), start, fate, events);
  }

  lemma RunsAgreeWith(isIP: string -> bool, render: Renderer, start: World, fate: Fate, events: seq<Event>)
    requires Proper(render) && Consistent(start.store) && Normalized(start.store) == start.store && PM.Coherent(start.procs)
    requires ApplyData(render, start, start.store, start.store, fate).result.Ok?
    requires Orderly(isIP, render, ApplyData(render, start, start.store, start.store, fate).world, events)
    ensures Good(render, Run(isIP, render, ApplyData(render, start, start.store, start.store, fate).world, events))
  {
    var d := start.store;
    var next := render(d).value;
    AcceptedCases(render, start, d, d, fate, next, PM.Applied(start.procs, d.frpc.path, next, fate.apply));
    CommitAgrees(render, start, d, fate);
    RunGood(isIP, render, ApplyData(render, start, d, d, fate).world, events);
  }

  // ---------- which processes survive ----------

  /** A running process keeps its pid through a successful Apply exactly when frpc, config path and the
      eight restart fields of its client configuration are unchanged. */
  lemma KeepsPidIff(s: PM.State, frpcPath: string, configs: seq<PM.RuntimeConfig>, oracle: string -> PM.Oracle,
                    c: PM.RuntimeConfig, was: FrpConfig.ClientConfig, now: FrpConfig.ClientConfig)
    requires PM.Coherent(s) && PM.KeysAgree(configs) && PM.Applied(s, frpcPath, configs, oracle).ok && c in configs
    requires PM.RunningKey(s, PM.ProcessKey(c.nodeId)) && s.table[PM.ProcessKey(c.nodeId)].restartKey == RestartKey(was)
    requires c.restartKey == RestartKey(now) && NulFree(was) && NulFree(now)
    ensures var key := PM.ProcessKey(c.nodeId);
            var s' := PM.Applied(s, frpcPath, configs, oracle).state;
            PM.RunningKey(s', key)
            && (s'.table[key].pid == s.table[key].pid <==>
                s.table[key].frpcPath == frpcPath && s.table[key].configPath == c.configPath && RestartOf(was) == RestartOf(now))
  {
    PM.ApplyConverges(s, frpcPath, configs, oracle);
    assert PM.Settled(s, PM.Applied(s, frpcPath, configs, oracle).state, PM.ProcessKey(c.nodeId), frpcPath, c);
    RestartKeyInjective(was, now);
  }
}
