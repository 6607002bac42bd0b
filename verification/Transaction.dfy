/** applyData: verify, write the files, replace the store, apply to the processes, and roll back when that
    fails (internal/client/service.go). How a store renders is a parameter here; writing files and saving
    the store always succeed. */
module Transaction {
  import opened Wrappers
  import opened Text
  import opened Rules
  import PM = ProcessManager

  type Verdicts = (nat, string, string) -> bool

  type Renderer = Data -> Result<seq<PM.RuntimeConfig>>

  datatype World = World(store: Data, files: map<string, string>, procs: PM.State)

  /** What the outside decides: the verdict of each run of `frpc verify`, given the path of frpc and the text of the
      configuration, and how starting and reloading each process ends, in the apply and in the re-apply after a
      failure. */
  datatype Fate = Fate(verifies: Verdicts, apply: string -> PM.Oracle, reapply: string -> PM.Oracle)

  datatype Done = Done(world: World, result: Result<()>)

  function Verify(frpcPath: string, configs: seq<PM.RuntimeConfig>, verifies: Verdicts): Outcome {
    if TrimSpace(frpcPath) == "" then Fail(BadRequest)
    else if forall i | 0 <= i < |configs| :: verifies(i, frpcPath, configs[i].raw) then Pass
    else Fail(Internal)
  }

  function WriteAll(files: map<string, string>, configs: seq<PM.RuntimeConfig>): map<string, string>
    decreases configs
  {
    if configs == [] then files else WriteAll(files[configs[0].configPath := configs[0].raw], configs[1..])
  }

  ghost function ApplyData(render: Renderer, w: World, oldData: Data, data: Data, fate: Fate): Done {
    var newData := Normalized(data);
    var next := render(newData);
    if next.Err? then Done(w, Err(next.error))
    else
      var verified := Verify(newData.frpc.path, next.value, fate.verifies);
      if verified.Fail? then Done(w, Err(verified.error))
      else if render(oldData) == Err(Diverges) then Done(w, Err(Diverges))
      else Install(w, newData, next.value, oldData, render(oldData), fate)
  }

  /** Files, store and processes take the new configurations. */
  ghost function Install(w: World, newData: Data, next: seq<PM.RuntimeConfig>, oldData: Data, before: Result<seq<PM.RuntimeConfig>>, fate: Fate): Done {
    var files := WriteAll(w.files, next);
    var applied := PM.Applied(w.procs, newData.frpc.path, next, fate.apply);
    if applied.ok then Done(World(newData, files, applied.state), Ok(()))
    else Done(RolledBack(before, oldData, files, applied.state, fate), Err(Internal))
  }

  /** The old data is stored again; when it renders, its texts are written and applied again. */
  ghost function RolledBack(before: Result<seq<PM.RuntimeConfig>>, oldData: Data, files: map<string, string>, procs: PM.State, fate: Fate): World {
    if before.Err? then World(Normalized(oldData), files, procs)
    else World(Normalized(oldData), WriteAll(files, before.value),
               PM.Applied(procs, oldData.frpc.path, before.value, fate.reapply).state)
  }

  // ---------- files ----------

  function PathsOf(configs: seq<PM.RuntimeConfig>): set<string> {
    set c | c in configs :: c.configPath
  }

  /** Configurations with one path have one text. */
  ghost predicate PathsAgree(configs: seq<PM.RuntimeConfig>) {
    forall a, b | a in configs && b in configs && a.configPath == b.configPath :: a.raw == b.raw
  }

  predicate SameAt(f: map<string, string>, g: map<string, string>, p: string) {
    (p in f <==> p in g) && (p in f ==> f[p] == g[p])
  }

  /** Every configuration has its text in its file. */
  predicate Texts(files: map<string, string>, configs: seq<PM.RuntimeConfig>) {
    forall c | c in configs :: c.configPath in files && files[c.configPath] == c.raw
  }

  lemma PathsCons(c: PM.RuntimeConfig, configs: seq<PM.RuntimeConfig>)
    ensures PathsOf([c] + configs) == {c.configPath} + PathsOf(configs)
  {
  }

  /** Writing configurations whose paths agree leaves each its text, and touches no other file. */
  lemma {:induction false} WriteAllEffect(files: map<string, string>, configs: seq<PM.RuntimeConfig>)
    requires PathsAgree(configs)
    ensures Texts(WriteAll(files, configs), configs)
    ensures forall p | p !in PathsOf(configs) :: SameAt(WriteAll(files, configs), files, p)
    decreases configs
  {
    if configs != [] {
      var c, rest := configs[0], configs[1..];
      PathsCons(c, rest);
      assert configs == [c] + rest;
      WriteAllEffect(files[c.configPath := c.raw], rest);
      if r :| r in rest && r.configPath == c.configPath {
        assert c in configs && r in configs;
      } else {
        assert c.configPath !in PathsOf(rest);
        assert SameAt(WriteAll(files, configs), files[c.configPath := c.raw], c.configPath);
      }
    }
  }

  /** Writing the new texts and then the old ones. */
  lemma WriteTwice(files: map<string, string>, next: seq<PM.RuntimeConfig>, before: seq<PM.RuntimeConfig>)
    requires PathsAgree(next) && PathsAgree(before)
    ensures var written := WriteAll(files, next);
            var restored := WriteAll(written, before);
            && Texts(restored, before)
            && forall p | p !in PathsOf(before) ::
                 if p in PathsOf(next) then SameAt(restored, written, p) else SameAt(restored, files, p)
  {
    WriteAllEffect(files, next);
    WriteAllEffect(WriteAll(files, next), before);
  }

  // ---------- all or nothing ----------

  /** Whether applyData gets past its checks: the new data renders, there is an frpc, and it passes every text. */
  ghost predicate Accepted(render: Renderer, data: Data, fate: Fate) {
    var d := Normalized(data);
    var next := render(d);
    && next.Ok? && TrimSpace(d.frpc.path) != ""
    && forall i | 0 <= i < |next.value| :: fate.verifies(i, d.frpc.path, next.value[i].raw)
  }

  /** The new data is stored and each of its configurations has its text. */
  ghost predicate Committed(w: World, d: Data, next: seq<PM.RuntimeConfig>, w': World) {
    && w'.store == d && Texts(w'.files, next)
    && forall p | p !in PathsOf(next) :: SameAt(w'.files, w.files, p)
  }

  /** The old data is back, with its text at each of its paths; what is left over of the new
      configurations lies at paths only they have. */
  ghost predicate Restored(w: World, d: Data, before: seq<PM.RuntimeConfig>, next: seq<PM.RuntimeConfig>, w': World) {
    && w'.store == d && Texts(w'.files, before)
    && forall p | p !in PathsOf(before) ::
         if p in PathsOf(next) then SameAt(w'.files, WriteAll(w.files, next), p) else SameAt(w'.files, w.files, p)
  }

  /** applyData succeeds exactly when the new data renders, frpc is there and passes every rendered text, the old data
      can be rendered or fails to, and every process takes its configuration. */
  lemma ApplyDataOkIff(render: Renderer, w: World, oldData: Data, data: Data, fate: Fate)
    ensures var d := Normalized(data);
            ApplyData(render, w, oldData, data, fate).result.Ok? <==>
              && render(d).Ok? && TrimSpace(d.frpc.path) != ""
              && (forall i | 0 <= i < |render(d).value| :: fate.verifies(i, d.frpc.path, render(d).value[i].raw))
              && render(oldData) != Err(Diverges)
              && PM.Applied(w.procs, d.frpc.path, render(d).value, fate.apply).ok
  {
  }

  /** Data that does not render, a blank path, or one text that frpc refuses: nothing is written, stored or
      applied, and the error says which. */
  lemma RefusedChangesNothing(render: Renderer, w: World, oldData: Data, data: Data, fate: Fate)
    requires var d := Normalized(data);
             || render(d).Err? || TrimSpace(d.frpc.path) == ""
             || exists i :: 0 <= i < |render(d).value| && !fate.verifies(i, d.frpc.path, render(d).value[i].raw)
    ensures var d := Normalized(data);
            var error := if render(d).Err? then render(d).error else if TrimSpace(d.frpc.path) == "" then BadRequest else Internal;
            ApplyData(render, w, oldData, data, fate) == Done(w, Err(error))
  {
  }

  lemma RejectedChangesNothing(render: Renderer, w: World, oldData: Data, data: Data, fate: Fate)
    requires !Accepted(render, data, fate)
    ensures ApplyData(render, w, oldData, data, fate).world == w && ApplyData(render, w, oldData, data, fate).result.Err?
  {
  }

  /** How an accepted applyData ends. */
  lemma AcceptedCases(render: Renderer, w: World, oldData: Data, data: Data, fate: Fate, next: seq<PM.RuntimeConfig>, applied: PM.Start)
    requires Accepted(render, data, fate) && next == render(Normalized(data)).value && render(oldData) != Err(Diverges)
    requires applied == PM.Applied(w.procs, Normalized(data).frpc.path, next, fate.apply)
    ensures ApplyData(render, w, oldData, data, fate)
         == if applied.ok then Done(World(Normalized(data), WriteAll(w.files, next), applied.state), Ok(()))
            else Done(RolledBack(render(oldData), oldData, WriteAll(w.files, next), applied.state, fate), Err(Internal))
  {
  }

  /** Old data that does not render is stored again, but the files stay as the new data made them. */
  ghost predicate StoreRestored(w: World, d: Data, next: seq<PM.RuntimeConfig>, w': World) {
    && w'.store == d && Texts(w'.files, next)
    && forall p | p !in PathsOf(next) :: SameAt(w'.files, w.files, p)
  }

  /** applyData is all or nothing, whatever verification and the processes do. */
  lemma AllOrNothing(render: Renderer, w: World, oldData: Data, data: Data, fate: Fate)
    requires render(oldData).Ok? ==> PathsAgree(render(oldData).value)
    requires render(Normalized(data)).Ok? ==> PathsAgree(render(Normalized(data)).value)
    ensures var r := ApplyData(render, w, oldData, data, fate);
            if !Accepted(render, data, fate) || render(oldData) == Err(Diverges) then r.world == w && r.result.Err?
            else if r.result.Ok? then Committed(w, Normalized(data), render(Normalized(data)).value, r.world)
            else if render(oldData).Ok? then
              Restored(w, Normalized(oldData), render(oldData).value, render(Normalized(data)).value, r.world)
            else StoreRestored(w, Normalized(oldData), render(Normalized(data)).value, r.world)
  {
    if Accepted(render, data, fate) && render(oldData) != Err(Diverges) {
      var next := render(Normalized(data)).value;
      AcceptedCases(render, w, oldData, data, fate, next, PM.Applied(w.procs, Normalized(data).frpc.path, next, fate.apply));
      WriteAllEffect(w.files, next);
      if render(oldData).Ok? {
        WriteTwice(w.files, next, render(oldData).value);
      }
    } else if !Accepted(render, data, fate) {
      RejectedChangesNothing(render, w, oldData, data, fate);
    }
  }

  /** After a failed apply from a state whose files held the old texts, files differ from before at most
      at paths that only the new configurations use. */
  lemma FailureLeavesOnlyNewFiles(w: World, d: Data, before: seq<PM.RuntimeConfig>, next: seq<PM.RuntimeConfig>, w': World, p: string)
    requires Restored(w, d, before, next, w') && Texts(w.files, before)
    ensures SameAt(w'.files, w.files, p) || (p in PathsOf(next) && p !in PathsOf(before))
  {
    if p in PathsOf(before) {
      var c :| c in before && c.configPath == p;
      assert SameAt(w'.files, w.files, p);
    }
  }
}
