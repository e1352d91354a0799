/**
 * End-to-end runs: `list_all_containers` over the fake liblxc, with two
 * container names handed over as a native array, listed, collected and
 * released; and the finishing of attach and log options.
 */
module Scenario {

  import opened Wrappers
  import opened Text
  import opened NativeHeap
  import opened Ffi
  import Attach
  import Log
  import Lxc

  /**
   * What liblxc allocates for two containers `web` and `db`: two strings and
   * a NULL-terminated array of them, handed over with a count of 2.
   */
  method AllocateTwoNames() returns (heap: Heap, web: AllocId, db: AllocId, arr: AllocId)
    ensures fresh(heap) && heap.Valid()
    ensures heap.live == {web, db, arr} && heap.doubleFrees == 0
    ensures web != db && web != arr && db != arr
    ensures arr in heap.arrays && heap.arrays[arr] == [Some(web), Some(db), None]
    ensures web in heap.strings && heap.strings[web] == Ascii("web")
    ensures db in heap.strings && heap.strings[db] == Ascii("db")
    ensures FirstNull(heap.arrays[arr][..2]) == 2
    ensures Lxc.HandsOverArray(heap, Some(arr), 2)
  {
    AsciiLiteral("web");
    AsciiLiteral("db");
    heap := new Heap();
    web := heap.AllocString(Ascii("web"));
    db := heap.AllocString(Ascii("db"));
    arr := heap.AllocArray([Some(web), Some(db), None]);
    ghost var slots: seq<Option<AllocId>> := [Some(web), Some(db)];
    assert heap.arrays[arr][..2] == slots;
    assert FirstNull(slots) == 2 by {
      FirstNullUnique(slots, 2);
    }
    assert heap.OwnsStrings(arr, 2);
  }

  /**
   * `list_all_containers` over `/var/lib/x` on that array: one native call,
   * and an iterator at the start of exactly the two slots.
   */
  method ListGiven(heap: Heap, web: AllocId, db: AllocId, arr: AllocId) returns (native: Lxc.Native, it: StringArrayIter)
    requires arr in heap.arrays && heap.arrays[arr] == [Some(web), Some(db), None]
    requires FirstNull(heap.arrays[arr][..2]) == 2
    requires Lxc.HandsOverArray(heap, Some(arr), 2)
    ensures fresh(native) && native.heap == heap && native.calls == [Lxc.Call.ListAll(Ascii("/var/lib/x"))]
    ensures fresh(it) && it.Valid() && it.heap == heap && it.ptr == Some(arr) && it.at == 0 && it.len == 2
    ensures it.AsSlice() == [Some(web), Some(db)]
  {
    AsciiLiteral("/var/lib/x");
    native := new Lxc.Native(heap);
    var r := Lxc.ListAllContainers(native, Ascii("/var/lib/x"), 2, Some(arr));
    it := r.value;
    assert heap.arrays[arr][..2] == [Some(web), Some(db)];
  }

  /** An iterator at the start of two slots yields the two texts they point at, both UTF-8. */
  lemma TwoSlotsRemaining(it: StringArrayIter, web: AllocId, db: AllocId, w: seq<Byte>, d: seq<Byte>)
    requires it.Valid() && it.at == 0 && it.AsSlice() == [Some(web), Some(db)]
    requires web in it.heap.strings && it.heap.strings[web] == w && ValidUtf8(w)
    requires db in it.heap.strings && it.heap.strings[db] == d && ValidUtf8(d)
    ensures it.Remaining() == [w, d]
    ensures forall i :: it.at <= i < it.len ==> ValidUtf8(it.heap.strings[it.AsSlice()[i].value])
  {
    assert it.AsSlice()[it.at..] == it.AsSlice();
  }

  /**
   * liblxc reports `web` and `db` under `/var/lib/x`: listing gives exactly
   * those names in that order, and afterwards nothing is left allocated and
   * nothing was freed twice.
   */
  method ListTwoContainers() returns (names: seq<seq<Byte>>, live: set<AllocId>, doubleFrees: nat, calls: seq<Lxc.Call>)
    ensures names == [Ascii("web"), Ascii("db")]
    ensures live == {} && doubleFrees == 0
    ensures calls == [Lxc.Call.ListAll(Ascii("/var/lib/x"))]
  {
    var heap, web, db, arr := AllocateTwoNames();
    var native, it := ListGiven(heap, web, db, arr);
    AsciiLiteral("web");
    AsciiLiteral("db");
    TwoSlotsRemaining(it, web, db, Ascii("web"), Ascii("db"));
    ghost var slots := it.AsSlice();
    names := it.Collect();
    assert heap.live == {} by {
      assert (set i | 0 <= i < 2 :: slots[i].value) == {web, db} by {
        assert slots[0].value == web && slots[1].value == db;
      }
      assert (set p | p in Freed(Some(arr))) == {arr};
    }
    live, doubleFrees, calls := heap.live, heap.doubleFrees, native.calls;
  }

  /** The texts `FOO` and `bar`, whose assignment is `FOO=bar`. */
  method FooAndBar() returns (foo: seq<Byte>, bar: seq<Byte>)
    ensures foo == Ascii("FOO") && bar == Ascii("bar")
    ensures Attach.EnvAssignment(foo, bar) == Ascii("FOO=bar") && 0 !in Ascii("FOO=bar")
  {
    AsciiLiteral("FOO=bar");
    foo, bar := Ascii("FOO"), Ascii("bar");
    assert Attach.EnvAssignment(foo, bar) == Ascii("FOO=bar");
  }

  /**
   * Attach options with one environment variable `FOO=bar`: the finished
   * record's environment array points at `FOO=bar`, then NULL, and asking
   * for the record a second time gives the same record.
   */
  method FinishFooBar() returns (options: Attach.AttachOptions, first: Attach.AttachRecord, second: Attach.AttachRecord)
    ensures first.extraEnvVars.Some? && first.extraKeepEnv.Some?
    ensures Resolve(first.extraEnvVars.value, options.extraEnvVars.owned) == [Some(Ascii("FOO=bar")), None]
    ensures Resolve(first.extraKeepEnv.value, options.extraKeepEnv.owned) == [None]
    ensures second == first
  {
    var foo, bar := FooAndBar();
    options := new Attach.AttachOptions();
    var r := options.SetEnvVar(foo, bar);
    first := options.Raw();
    ViewResolves(first.extraEnvVars.value, options.extraEnvVars.owned);
    ViewResolves(first.extraKeepEnv.value, options.extraKeepEnv.owned);
    second := options.Raw();
  }

  /** Log options asked for their record twice in a row give the same record. */
  method LogRawTwice(options: Log.LogOptions) returns (first: Log.LogRecord, second: Log.LogRecord)
    modifies options`raw
    ensures first == second && first == options.Finished()
  {
    first := options.Raw();
    second := options.Raw();
  }
}
