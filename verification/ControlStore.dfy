/** The control server's sections as updates of its JSON store: what the file holds is always what the server
    has in memory (internal/control/service.go, internal/storage/json_file.go). */
module ControlStore {
  import opened Wrappers
  import opened ControlModel
  import opened ControlInvariant
  import opened ControlSteps
  import Storage

  /** A section as the closure that Update gets. */
  function Closure(env: Env, s: System, e: Event): Data -> Storage.Change<Data> {
    d => var r := Section(env, s.(data := d), e); Storage.Change(r.data, r.result)
  }

  /** Normalising fills in missing maps; here none is ever missing. */
  function Keep(d: Data): Data { d }

  ghost function Step(env: Env, s: System, file: Data, e: Event): Storage.Stored<Data> {
    Storage.Updated(Storage.Stored(s.data, file), Keep, Closure(env, s, e))
  }

  ghost function FileAfter(env: Env, s: System, file: Data, events: seq<Event>): Data
    decreases |events|
  {
    if events == [] then file else FileAfter(env, Next(env, s, events[0]), Step(env, s, file, events[0]).file, events[1..])
  }

  /** No section changes anything when it fails, on whatever data. */
  lemma SectionsAreHarmless(env: Env, s: System, e: Event)
    ensures Storage.Harmless(Closure(env, s, e))
  {
    forall d | Closure(env, s, e)(d).result.Err? ensures Closure(env, s, e)(d).data == d {
      FailedSectionsAreHarmless(env, s.(data := d), e);
    }
  }

  lemma StepIsNext(env: Env, s: System, e: Event)
    ensures Step(env, s, s.data, e) == Storage.Stored(Next(env, s, e).data, Next(env, s, e).data)
  {
    SectionsAreHarmless(env, s, e);
    assert Closure(env, s, e)(s.data) == Storage.Change(Section(env, s, e).data, Section(env, s, e).result) by {
      assert s.(data := s.data) == s;
    }
  }

  lemma {:induction false} FileFollows(env: Env, s: System, events: seq<Event>)
    ensures FileAfter(env, s, s.data, events) == Run(env, s, events).data
    decreases |events|
  {
    if events != [] {
      StepIsNext(env, s, events[0]);
      FileFollows(env, Next(env, s, events[0]), events[1..]);
    }
  }

  /** However operations interleave and whichever of them fail, the file holds the data in memory, so a restart
      finds a state that satisfies the invariant. */
  lemma FileHoldsStore(env: Env, config: ServerConfig, events: seq<Event>)
    requires FreshRun(env, Start(config), events)
    ensures var file := FileAfter(env, Start(config), Start(config).data, events);
            file == Run(env, Start(config), events).data && Inv(file)
  {
    FileFollows(env, Start(config), events);
    ReachableStates(env, config, events);
  }
}
