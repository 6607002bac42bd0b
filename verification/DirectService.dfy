/** The client service in direct mode as an object: a store, the files it writes and the process manager it
    drives (internal/client/service.go). Each method is proved to do what Transaction and Agreement say. */
module DirectService {
  import opened Wrappers
  import opened Text
  import opened Order
  import opened Lists
  import opened Rules
  import opened DirectRender
  import opened DirectPartition
  import opened DirectBuild
  import opened Transaction
  import opened Rendering
  import opened Agreement
  import FrpConfig
  import AdminPorts
  import PM = ProcessManager

  /** Rendering does not depend on the traversal of the rules. */
  ghost predicate Settled(d: Data) {
    NoPortTies(d.portRules) && NoRoomTies(d.roomRules)
  }

  lemma PlannedSettled(isIP: string -> bool, d: Data, r: Request, now: int)
    requires Consistent(d) && Prepare(isIP, d, r, now).Ok? && Prepare(isIP, d, r, now).value.Replace?
    ensures Settled(d) && Settled(Normalized(Prepare(isIP, d, r, now).value.newData))
  {
    PreparedConsistent(isIP, d, r, now);
    KeyedHasNoTies(d);
    KeyedHasNoTies(Normalized(Prepare(isIP, d, r, now).value.newData));
  }

  class Service {
    const env: Env
    const manager: PM.Manager
    var store: Data
    var files: map<string, string>

    ghost function View(): World
      reads this, manager
    {
      World(store, files, manager.View())
    }

    constructor (env: Env, manager: PM.Manager, store: Data)
      ensures this.env == env && this.manager == manager
      ensures View() == World(Normalized(store), map[], manager.View())
    {
      this.env, this.manager, this.store, this.files := env, manager, Normalized(store), map[];
    }

    /** One configuration with its text. */
    method RuntimeOf(r: Rendered) returns (c: PM.RuntimeConfig)
      ensures c == Runtime(r)
    {
      var raw := FrpConfig.RenderClientConfig(r.client);
      c := PM.RuntimeConfig(r.nodeId, r.configPath, r.logPath, r.restartKey, raw);
    }

    method RuntimeOfAll(built: seq<Rendered>) returns (configs: seq<PM.RuntimeConfig>)
      ensures configs == Each(Runtime, built)
    {
      configs := [];
      for i := 0 to |built|
        invariant |configs| == i && forall j | 0 <= j < i :: configs[j] == Runtime(built[j])
      {
        var c := RuntimeOf(built[i]);
        configs := configs + [c];
      }
    }

    method RenderLegacy(d: Data) returns (c: PM.RuntimeConfig)
      ensures c == LegacyConfig(env.legacy, d)
    {
      var client := env.legacy(d);
      var raw := FrpConfig.RenderClientConfig(client);
      var frpc := Normalized(d).frpc;
      c := PM.RuntimeConfig(PM.DEFAULT_KEY, ConfigPath(frpc, PM.DEFAULT_KEY), LogPath(frpc, PM.DEFAULT_KEY),
                            RestartKey(client), raw);
    }

    method RenderClientConfigs(d: Data) returns (r: Result<seq<PM.RuntimeConfig>>)
      requires Settled(d)
      ensures r == RendererOf(env)(d)
    {
      if UsesDirectMode(d) {
        var built := BuildDirectFrpcConfigs(env.isIP, d);
        if built.Err? {
          return Err(built.error);
        }
        var configs := RuntimeOfAll(built.value);
        return Ok(configs);
      }
      var c := RenderLegacy(d);
      r := Ok([c]);
    }

    /** Verifies one configuration after the other and stops at the first that fails. */
    method VerifyRenderedConfigs(frpcPath: string, configs: seq<PM.RuntimeConfig>, verifies: Verdicts) returns (o: Outcome)
      ensures o == Verify(frpcPath, configs, verifies)
      ensures o.Pass? <==> TrimSpace(frpcPath) != "" && forall i | 0 <= i < |configs| :: verifies(i, frpcPath, configs[i].raw)
    {
      if TrimSpace(frpcPath) == "" {
        return Fail(BadRequest);
      }
      for i := 0 to |configs|
        invariant forall j | 0 <= j < i :: verifies(j, frpcPath, configs[j].raw)
      {
        if !verifies(i, frpcPath, configs[i].raw) {
          return Fail(Internal);
        }
      }
      o := Pass;
    }

    method WriteRenderedConfigs(configs: seq<PM.RuntimeConfig>)
      modifies this`files
      ensures files == WriteAll(old(files), configs)
    {
      assert configs[0..] == configs;
      for i := 0 to |configs|
        invariant WriteAll(files, configs[i..]) == WriteAll(old(files), configs)
      {
        assert configs[i..][1..] == configs[i + 1..];
        files := files[configs[i].configPath := configs[i].raw];
      }
    }

    method ApplyData(oldData: Data, data: Data, fate: Fate) returns (r: Result<()>)
      requires Settled(oldData) && Settled(Normalized(data))
      modifies this, manager
      ensures Done(View(), r) == Transaction.ApplyData(RendererOf(env), old(View()), oldData, data, fate)
    {
      var newData := Normalized(data);
      var next := RenderClientConfigs(newData);
      if next.Err? {
        return Err(next.error);
      }
      var verified := VerifyRenderedConfigs(newData.frpc.path, next.value, fate.verifies);
      if verified.Fail? {
        return Err(verified.error);
      }
      var before := RenderClientConfigs(oldData);
      if before.Err? && before.error.Diverges? {
        return Err(Diverges);
      }
      r := Install(newData, next.value, oldData, before, fate);
    }

    method Install(newData: Data, next: seq<PM.RuntimeConfig>, oldData: Data, before: Result<seq<PM.RuntimeConfig>>, fate: Fate)
      returns (r: Result<()>)
      modifies this, manager
      ensures Done(View(), r) == Transaction.Install(old(View()), newData, next, oldData, before, fate)
    {
      WriteRenderedConfigs(next);
      store := newData;
      var applied := manager.Apply(newData.frpc.path, next, fate.apply);
      if !applied {
        store := Normalized(oldData);
        if before.Ok? {
          WriteRenderedConfigs(before.value);
          var _ := manager.Apply(oldData.frpc.path, before.value, fate.reapply);
        }
        return Err(Internal);
      }
      r := Ok(());
    }

    /** The requests on port rules, room rules and existing nodes. */
    method Submit(request: Request, now: int, fate: Fate) returns (r: Result<()>)
      requires Consistent(store)
      modifies this, manager
      ensures Done(View(), r) == Handle(env.isIP, RendererOf(env), old(View()), request, now, fate)
    {
      var plan := Prepare(env.isIP, store, request, now);
      if plan.Err? {
        return Err(plan.error);
      }
      match plan.value
      case Replace(newData) =>
        PlannedSettled(env.isIP, store, request, now);
        r := ApplyData(store, newData, fate);
      case SetNode(id, node) => r := Change(SetNodeNow(Normalized(store), id, node));
    }

    /** One step of the store, without rendering. */
    method Change(change: Result<Data>) returns (r: Result<()>)
      modifies this`store
      ensures Done(View(), r) == InPlace(old(View()), change)
    {
      if change.Err? {
        store := Normalized(store);
        return Err(change.error);
      }
      store := change.value;
      r := Ok(());
    }

    method CreateNode(input: NodeInput, generatedId: string, now: int) returns (r: Result<()>)
      modifies this`store
      ensures Done(View(), r) == HandleAddNode(old(View()), input, generatedId, now)
    {
      var node := BuildNode(input, generatedId, now);
      if node.Err? {
        return Err(node.error);
      }
      r := Change(CreateNodeNow(Normalized(store), node.value));
    }

    method DeleteNode(id: string) returns (r: Result<()>)
      modifies this`store
      ensures Done(View(), r) == HandleRemoveNode(old(View()), id)
    {
      r := Change(DeleteNodeNow(Normalized(store), id));
    }
  }
}
