/** The JSON store both services are built on (internal/storage/json_file.go): one value in memory, one in
    the file, changed by closures under a lock. Saving always succeeds here. */
module Storage {
  import opened Wrappers

  /** What a closure makes of the value in memory, and its error. An error does not undo the change. */
  datatype Change<T> = Change(data: T, result: Result<()>)

  datatype Stored<T> = Stored(data: T, file: T)

  ghost function Updated<T>(s: Stored<T>, normalize: T -> T, fn: T -> Change<T>): Stored<T> {
    var c := fn(normalize(s.data));
    if c.result.Err? then s.(data := c.data) else Stored(normalize(c.data), normalize(c.data))
  }

  class JSONFile<T> {
    const normalize: T -> T
    var data: T
    var file: T

    ghost function View(): Stored<T>
      reads this
    {
      Stored(data, file)
    }

    /** OpenJSONFile without a file: the normalised initial value is saved. */
    constructor (initial: T, normalize: T -> T)
      ensures this.normalize == normalize && View() == Stored(normalize(initial), normalize(initial))
    {
      this.normalize := normalize;
      this.data, this.file := normalize(initial), normalize(initial);
    }

    method Update(fn: T -> Change<T>) returns (r: Result<()>)
      modifies this
      ensures View() == Updated(old(View()), normalize, fn)
      ensures r == fn(normalize(old(data))).result
    {
      data := normalize(data);
      var c := fn(data);
      data := c.data;
      if c.result.Err? {
        return c.result;
      }
      data := normalize(data);
      SaveLocked();
      r := c.result;
    }

    method SaveLocked()
      modifies this`file
      ensures file == data
    {
      file := data;
    }

    method Snapshot() returns (d: T)
      ensures d == data
    {
      d := data;
    }
  }

  /** A closure that fails leaves the value as it was. */
  ghost predicate Harmless<T(!new)>(fn: T -> Change<T>) {
    forall d :: fn(d).result.Err? ==> fn(d).data == d
  }

  ghost function UpdatedAll<T>(s: Stored<T>, normalize: T -> T, fns: seq<T -> Change<T>>): Stored<T>
    decreases |fns|
  {
    if fns == [] then s else UpdatedAll(Updated(s, normalize, fns[0]), normalize, fns[1..])
  }

  /** Memory and file agree through any updates whose closures change nothing when they fail. */
  lemma {:induction false} MemoryIsSaved<T(!new)>(s: Stored<T>, normalize: T -> T, fns: seq<T -> Change<T>>)
    requires Saved(s, normalize)
    requires forall d: T :: normalize(normalize(d)) == normalize(d)
    requires forall i | 0 <= i < |fns| :: Harmless(fns[i])
    ensures Saved(UpdatedAll(s, normalize, fns), normalize)
    decreases |fns|
  {
    if fns != [] {
      assert Harmless(fns[0]);
      MemoryIsSaved(Updated(s, normalize, fns[0]), normalize, fns[1..]);
    }
  }

  ghost predicate Saved<T>(s: Stored<T>, normalize: T -> T) {
    s.data == s.file && normalize(s.data) == s.data
  }

  /** An update keeps memory and file in agreement from every saved state if and only if its closure changes no
      normalised value when it fails. */
  lemma SavedIffHarmless<T(!new)>(normalize: T -> T, fn: T -> Change<T>)
    requires forall d: T :: normalize(normalize(d)) == normalize(d)
    ensures (forall s: Stored<T> | Saved(s, normalize) :: Saved(Updated(s, normalize, fn), normalize))
       <==> (forall d: T | normalize(d) == d && fn(d).result.Err? :: fn(d).data == d)
  {
    if forall s: Stored<T> | Saved(s, normalize) :: Saved(Updated(s, normalize, fn), normalize) {
      forall d: T | normalize(d) == d && fn(d).result.Err? ensures fn(d).data == d {
        assert Saved(Stored(d, d), normalize);
        assert Saved(Updated(Stored(d, d), normalize, fn), normalize);
      }
    }
  }
}
