/**
 The storage the core writes to: a local file system and an object-store bucket,
 each a map from locator to contents, plus the blob columns of the track itself.
 Writes and removals may raise; which ones do is given by `Faults`. A run of writes
 or removals stops at the first one that raises, as a Python loop does.
 */
module Storage {
  import opened Base

  /** An object in the bucket, with the content type it was put with. */
  datatype StoredObject = StoredObject(body: Bytes, contentType: string)

  datatype World = World(fs: map<string, Bytes>, bucket: map<string, StoredObject>)

  /** The locators whose write, and those whose removal, raises. */
  datatype Faults = Faults(failingWrites: set<string>, failingRemoves: set<string>)

  /** Where a storage-mode string sends the data. */
  datatype Backend = Postgres | S3 | Local

  /** Ingestion and retrieval: "postgres", "s3", and every other mode as local. */
  function IngestBackend(mode: string): (b: Backend)
    ensures b == Postgres <==> mode == "postgres"
    ensures b == S3 <==> mode == "s3"
  {
    if mode == "postgres" then Postgres else if mode == "s3" then S3 else Local
  }

  /** Cleanup: "local", "s3", and every other mode as postgres. */
  function CleanupBackend(mode: string): (b: Backend)
    ensures b == Local <==> mode == "local"
    ensures b == S3 <==> mode == "s3"
  {
    if mode == "local" then Local else if mode == "s3" then S3 else Postgres
  }

  /** The two dispatches agree exactly on the three documented mode names. */
  lemma BackendsAgreeOnKnownModes(mode: string)
    ensures IngestBackend(mode) == CleanupBackend(mode) <==> mode in {"postgres", "s3", "local"}
  {
  }

  datatype Put<V> = Put(key: string, value: V)

  function KeysOf<V>(puts: seq<Put<V>>): set<string>
  {
    set i | 0 <= i < |puts| :: puts[i].key
  }

  predicate DistinctKeys<V>(puts: seq<Put<V>>)
  {
    forall i, j :: 0 <= i < j < |puts| ==> puts[i].key != puts[j].key
  }

  lemma KeysOfCons<V>(puts: seq<Put<V>>, n: nat)
    requires 0 < |puts| && n < |puts|
    ensures KeysOf(puts[..n + 1]) == {puts[0].key} + KeysOf(puts[1..][..n])
  {
    var a, b := puts[..n + 1], puts[1..][..n];
    forall k | k in KeysOf(a) ensures k in {puts[0].key} + KeysOf(b) {
      var i :| 0 <= i < |a| && a[i].key == k;
      if i > 0 { assert b[i - 1] == a[i]; }
    }
    forall k | k in KeysOf(b) ensures k in KeysOf(a) {
      var i :| 0 <= i < |b| && b[i].key == k;
      assert a[i + 1] == b[i];
    }
    assert a[0] == puts[0];
  }

  /** A store after a run of operations, and how many of them completed. */
  datatype Run<V> = Run(store: map<string, V>, done: nat)

  /**
   Performs `puts` in order; the first whose key is failing raises and the
   ones after it are not attempted.
   */
  function WriteEach<V>(store: map<string, V>, puts: seq<Put<V>>, failing: set<string>): (r: Run<V>)
    ensures r.done <= |puts|
    ensures forall i :: 0 <= i < r.done ==> puts[i].key !in failing
    ensures r.done < |puts| ==> puts[r.done].key in failing
    ensures r.store.Keys == store.Keys + KeysOf(puts[..r.done])
    ensures forall i :: 0 <= i < r.done ==> puts[i].key in r.store
    ensures forall k :: k in store && k !in KeysOf(puts[..r.done]) ==> r.store[k] == store[k]
    decreases |puts|
  {
    if |puts| == 0 then Run(store, 0)
    else if puts[0].key in failing then Run(store, 0)
    else
      var rest := WriteEach(store[puts[0].key := puts[0].value], puts[1..], failing);
      KeysOfCons(puts, rest.done);
      Run(rest.store, rest.done + 1)
  }

  /** With distinct keys, every completed write leaves its own value in the store. */
  lemma {:induction false} WriteEachStoresValues<V>(store: map<string, V>, puts: seq<Put<V>>, failing: set<string>)
    requires DistinctKeys(puts)
    ensures var r := WriteEach(store, puts, failing);
      forall i :: 0 <= i < r.done ==> r.store[puts[i].key] == puts[i].value
    decreases |puts|
  {
    if |puts| > 0 && puts[0].key !in failing {
      var next := store[puts[0].key := puts[0].value];
      WriteEachStoresValues(next, puts[1..], failing);
      var rest := WriteEach(next, puts[1..], failing);
      assert puts[0].key !in KeysOf(puts[1..][..rest.done]);
      forall i | 0 < i <= rest.done ensures puts[1..][i - 1] == puts[i] { }
    }
  }

  /**
   Removes `keys` in order. With `onlyExisting` a key absent from the store is
   skipped without a call (`if os.path.exists(p)`); otherwise every key is
   deleted, absent or not. The first failing call raises and ends the run.
   */
  function RemoveEach<V>(store: map<string, V>, keys: seq<string>, failing: set<string>, onlyExisting: bool): (r: Run<V>)
    decreases |keys|
    ensures r.done <= |keys|
    ensures r.done < |keys| ==> keys[r.done] in failing
    // A call made before the stopping point did not raise: it was skipped or succeeded.
    ensures forall i :: 0 <= i < r.done ==> keys[i] !in failing || (onlyExisting && keys[i] !in store)
    ensures r.store.Keys == store.Keys - set i | 0 <= i < r.done :: keys[i]
    ensures forall k :: k in r.store ==> r.store[k] == store[k]
  {
    if |keys| == 0 then Run(store, 0)
    else if onlyExisting && keys[0] !in store then
      var rest := RemoveEach(store, keys[1..], failing, onlyExisting);
      RemovedShift(keys, rest.done);
      Run(rest.store, rest.done + 1)
    else if keys[0] in failing then Run(store, 0)
    else
      var rest := RemoveEach(store - {keys[0]}, keys[1..], failing, onlyExisting);
      RemovedShift(keys, rest.done);
      Run(rest.store, rest.done + 1)
  }

  /** The first `n + 1` keys are the head and the first `n` keys of the tail. */
  lemma RemovedShift(keys: seq<string>, n: nat)
    requires n < |keys|
    ensures (set i | 0 <= i < n + 1 :: keys[i]) == {keys[0]} + set i | 0 <= i < n :: keys[1..][i]
    ensures forall i :: 0 < i <= n ==> keys[1..][i - 1] == keys[i]
  {
    assert forall i :: 0 < i <= n ==> keys[1..][i - 1] == keys[i];
  }

  /**
   A run of writes whose keys are `locators` completes exactly when none of them
   fails, and otherwise stops at one of them that fails.
   */
  lemma WriteOutcome<V>(store: map<string, V>, puts: seq<Put<V>>, failing: set<string>, locators: seq<string>)
    requires |puts| == |locators| && forall i :: 0 <= i < |puts| ==> puts[i].key == locators[i]
    ensures var run := WriteEach(store, puts, failing);
      && (run.done == |puts| <==> forall i :: 0 <= i < |locators| ==> locators[i] !in failing)
      && (run.done < |puts| ==> puts[run.done].key in locators && puts[run.done].key in failing)
  {
  }

  /** The keys of `puts`, in order. */
  function KeySeq<V>(puts: seq<Put<V>>): (ks: seq<string>)
    ensures |ks| == |puts| && forall i :: 0 <= i < |puts| ==> ks[i] == puts[i].key
  {
    if |puts| == 0 then [] else [puts[0].key] + KeySeq(puts[1..])
  }

  lemma KeySeqCoversKeys<V>(puts: seq<Put<V>>)
    ensures (set i | 0 <= i < |puts| :: KeySeq(puts)[i]) == KeysOf(puts)
  {
    var keys := KeySeq(puts);
    forall k | k in KeysOf(puts) ensures k in set i | 0 <= i < |puts| :: keys[i] {
      var i :| 0 <= i < |puts| && puts[i].key == k;
      assert keys[i] == k;
    }
  }

  lemma FreshKeysDisjoint<V>(store: map<string, V>, puts: seq<Put<V>>)
    requires forall i :: 0 <= i < |puts| ==> puts[i].key !in store
    ensures store.Keys !! KeysOf(puts)
  {
  }

  /** With no failing key, every write is performed. */
  lemma WriteCompletes<V>(store: map<string, V>, puts: seq<Put<V>>, failing: set<string>)
    requires forall i :: 0 <= i < |puts| ==> puts[i].key !in failing
    ensures var w := WriteEach(store, puts, failing);
      w.done == |puts| && w.store.Keys == store.Keys + KeysOf(puts)
  {
    var w := WriteEach(store, puts, failing);
    assert puts[..w.done] == puts;
  }

  /** With no failing key, every removal is performed. */
  lemma RemoveCompletes<V>(store: map<string, V>, keys: seq<string>, failing: set<string>, onlyExisting: bool)
    requires forall i :: 0 <= i < |keys| ==> keys[i] !in failing
    ensures var r := RemoveEach(store, keys, failing, onlyExisting);
      r.done == |keys| && r.store.Keys == store.Keys - set i | 0 <= i < |keys| :: keys[i]
  {
  }

  /**
   Removing exactly the keys a complete run of writes created, in order, with no
   removal failing, gives back the store as it was before the writes.
   */
  lemma RemoveUndoesWrite<V>(store: map<string, V>, puts: seq<Put<V>>, failing: set<string>,
                             keys: seq<string>, removing: set<string>, onlyExisting: bool)
    requires keys == KeySeq(puts)
    requires forall i :: 0 <= i < |puts| ==>
      puts[i].key !in failing && puts[i].key !in removing && puts[i].key !in store
    ensures var w := WriteEach(store, puts, failing);
      && w.done == |puts|
      && RemoveEach(w.store, keys, removing, onlyExisting).store == store
  {
    WriteCompletes(store, puts, failing);
    var w := WriteEach(store, puts, failing);
    RemoveCompletes(w.store, keys, removing, onlyExisting);
    KeySeqCoversKeys(puts);
    FreshKeysDisjoint(store, puts);
    var r := RemoveEach(w.store, keys, removing, onlyExisting);
    assert r.store.Keys == store.Keys;
  }

  /**
   A removal that raises at position `j`, after calls that could not raise, ends the
   run there: exactly the keys before `j` are removed and none from `j` on is attempted.
   */
  lemma RemoveStopsAt<V>(store: map<string, V>, keys: seq<string>, failing: set<string>, onlyExisting: bool, j: nat)
    requires j < |keys| && keys[j] in failing && (onlyExisting ==> keys[j] in store)
    requires forall i :: 0 <= i < j ==> keys[i] !in failing
    ensures var r := RemoveEach(store, keys, failing, onlyExisting);
      r.done == j && r.store.Keys == store.Keys - set i | 0 <= i < j :: keys[i]
  {
  }

  /** Running the same removals again on what they left removes nothing more. */
  lemma {:induction false} RemoveEachIdempotent<V>(store: map<string, V>, keys: seq<string>, failing: set<string>,
                                                   onlyExisting: bool)
    ensures var once := RemoveEach(store, keys, failing, onlyExisting).store;
      RemoveEach(once, keys, failing, onlyExisting).store == once
    decreases |keys|
  {
    if |keys| > 0 {
      var k := keys[0];
      if onlyExisting && k !in store {
        var once := RemoveEach(store, keys[1..], failing, onlyExisting).store;
        assert k !in once;
        RemoveEachIdempotent(store, keys[1..], failing, onlyExisting);
      } else if k !in failing {
        var once := RemoveEach(store - {k}, keys[1..], failing, onlyExisting).store;
        assert k !in once;
        assert once - {k} == once;
        RemoveEachIdempotent(store - {k}, keys[1..], failing, onlyExisting);
      }
    }
  }
}
