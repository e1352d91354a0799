/**
 * The FFI helpers of `src/util/ffi.rs`: conversion of host strings into C
 * strings, the `CStringVec` builder of NULL-terminated `char **` views, and
 * `StringArrayIter`, which takes ownership of a native `char **` and frees it.
 */
module Ffi {

  import opened Wrappers
  import opened Text
  import opened NativeHeap

  // ---------------------------------------------------------------------
  // ToCString

  /** `std::ffi::NulError`: the position of the first 0 byte and the bytes. */
  datatype NulError = NulError(position: nat, bytes: seq<Byte>)

  /** `Cow<CStr>`: a C string either borrowed from the input or newly owned. */
  datatype Cow = Borrowed(borrowed: CStr) | Owned(owned: CStr) {
    /** `Cow::into_owned`: the C string itself. */
    function IntoOwned(): (c: CStr)
      ensures Borrowed? ==> c == borrowed
      ensures Owned? ==> c == owned
    {
      match this
      case Borrowed(b) => b
      case Owned(o) => o
    }
  }

  /** `CString::new`: fails exactly when the bytes contain a 0 byte. */
  function CStringNew(bytes: seq<Byte>): (r: Result<CStr, NulError>)
    ensures r.Success? <==> 0 !in bytes
    ensures r.Success? ==> r.value == bytes
    ensures r.Failure? ==> && r.error.bytes == bytes
                           && r.error.position < |bytes|
                           && bytes[r.error.position] == 0
                           && 0 !in bytes[..r.error.position]
  {
    var k := FirstNul(bytes);
    FirstNulIsBoundIff(bytes);
    if k < |bytes| then
      assert forall i :: 0 <= i < k ==> bytes[..k][i] != 0;
      Failure(NulError(k, bytes))
    else Success(bytes)
  }

  /** `ToCString` for `CStr` and `CString`: always succeeds, borrowing. */
  function BorrowCString(c: CStr): (r: Result<Cow, NulError>)
    ensures r.Success? && r.value.Borrowed? && r.value.IntoOwned() == c
  {
    Success(Borrowed(c))
  }

  /**
   * `ToCString` for `str`, `[u8]`, `String`, `OsStr`, `OsString`, `Path` and
   * `PathBuf`, all of which reduce to their bytes: a new owned C string, or
   * the `NulError` of `CString::new`.
   */
  function ToCString(bytes: seq<Byte>): (r: Result<Cow, NulError>)
    ensures r.Success? <==> 0 !in bytes
    ensures r.Success? ==> r.value.Owned? && r.value.IntoOwned() == bytes
    ensures r.Failure? ==> r == Failure(CStringNew(bytes).error)
  {
    match CStringNew(bytes)
    case Success(c) => Success(Owned(c))
    case Failure(e) => Failure(e)
  }

  /** Encoding text and decoding the C string gives the text back. */
  lemma TextRoundTrip(text: seq<Byte>)
    requires ValidUtf8(text) && 0 !in text
    ensures ToCString(text).Success?
    ensures ToStr(ToCString(text).value.IntoOwned()) == Some(text)
  {
  }

  // ---------------------------------------------------------------------
  // CStringVec

  /** An entry of a `char **` view: NULL, or a pointer to the `index`-th owned C string. */
  datatype Ptr = Null | Ref(index: nat)

  /** `v` is the NULL-terminated view of `n` owned strings, in order. */
  predicate IsView(v: seq<Ptr>, n: nat) {
    && |v| == n + 1
    && (forall i :: 0 <= i < n ==> v[i] == Ref(i))
    && v[n] == Null
  }

  /** The NULL-terminated view of `n` owned strings. */
  function View(n: nat): (v: seq<Ptr>)
    ensures IsView(v, n)
  {
    seq(n + 1, i requires 0 <= i <= n => if i < n then Ref(i) else Null)
  }

  /** There is only one view of `n` strings. */
  lemma ViewIsUnique(v: seq<Ptr>, n: nat)
    requires IsView(v, n)
    ensures v == View(n)
  {
  }

  /** What each entry of a view points at, among the strings `owned`. */
  function Resolve(view: seq<Ptr>, owned: seq<CStr>): (r: seq<Option<CStr>>)
    ensures |r| == |view|
  {
    seq(|view|, i requires 0 <= i < |view| =>
      if view[i].Ref? && view[i].index < |owned| then Some(owned[view[i].index]) else None)
  }

  /** The owned strings as non-NULL entries. */
  function Entries(owned: seq<CStr>): (r: seq<Option<CStr>>)
    ensures |r| == |owned| && forall i :: 0 <= i < |owned| ==> r[i] == Some(owned[i])
  {
    seq(|owned|, i requires 0 <= i < |owned| => Some(owned[i]))
  }

  /** A view of the current strings points at exactly those strings, then NULL. */
  lemma ViewResolves(view: seq<Ptr>, owned: seq<CStr>)
    requires IsView(view, |owned|)
    ensures Resolve(view, owned) == Entries(owned) + [None]
  {
    var r := Resolve(view, owned);
    assert r[|owned|] == None;
    assert forall i :: 0 <= i < |owned| ==> r[i] == Some(owned[i]);
  }

  /** A view taken before a push no longer describes the strings. */
  lemma StaleViewAfterPush(view: seq<Ptr>, owned: seq<CStr>, c: CStr)
    requires IsView(view, |owned|)
    ensures !IsView(view, |owned + [c]|)
    ensures Some(c) !in Resolve(view, owned + [c])[|owned|..]
  {
  }

  /**
   * `CStringVec`: owned C strings plus a rebuilt-on-demand NULL-terminated
   * view of pointers into them. `Deref` exposes `owned` directly.
   */
  class CStringVec {
    var owned: seq<CStr>
    var ffi: seq<Ptr>

    constructor ()
      ensures owned == [] && ffi == []
    {
      owned, ffi := [], [];
    }

    /** `push` through `DerefMut`: appends, keeping insertion order. */
    method Push(c: CStr)
      modifies this`owned
      ensures owned == old(owned) + [c]
    {
      owned := owned + [c];
    }

    /** `update`: truncates the view and re-pushes one pointer per string and a NULL. */
    method Update()
      modifies this`ffi
      ensures IsView(ffi, |owned|)
    {
      ffi := [];
      var i := 0;
      while i < |owned|
        invariant 0 <= i <= |owned|
        invariant |ffi| == i && forall k :: 0 <= k < i ==> ffi[k] == Ref(k)
      {
        ffi := ffi + [Ref(i)];
        i := i + 1;
      }
      ffi := ffi + [Null];
    }

    /** `get_raw`: rebuilds the view of the current strings and returns it. */
    method GetRaw() returns (view: seq<Ptr>)
      modifies this`ffi
      ensures view == ffi && IsView(view, |owned|)
      ensures Resolve(view, owned) == Entries(owned) + [None]
    {
      Update();
      view := ffi;
      ViewResolves(view, owned);
    }
  }

  // ---------------------------------------------------------------------
  // StringArrayIter

  /** Index of the first NULL slot of `s`, or `|s|` when there is none. */
  function FirstNull<T>(s: seq<Option<T>>): (k: nat)
    ensures k <= |s|
    ensures forall i :: 0 <= i < k ==> s[i].Some?
    ensures k < |s| ==> s[k].None?
  {
    if |s| == 0 || s[0].None? then 0 else 1 + FirstNull(s[1..])
  }

  /** The first NULL is the only index with no NULL before it and NULL or the end at it. */
  lemma FirstNullUnique<T>(s: seq<Option<T>>, k: nat)
    requires k <= |s| && (forall i :: 0 <= i < k ==> s[i].Some?) && (k < |s| ==> s[k].None?)
    ensures k == FirstNull(s)
  {
  }

  /** A NULL slot exists exactly when the first NULL lies inside the array. */
  lemma FirstNullIsBoundIff<T>(s: seq<Option<T>>)
    ensures FirstNull(s) < |s| <==> None in s
  {
    if None in s {
      var j :| 0 <= j < |s| && s[j] == None;
      assert !(j < FirstNull(s));
    }
  }

  /** Clamping to the first NULL a second time changes nothing. */
  lemma FirstNullOfPrefix<T>(s: seq<Option<T>>)
    ensures FirstNull(s[..FirstNull(s)]) == FirstNull(s)
  {
    var k := FirstNull(s);
    FirstNullUnique(s[..k], k);
  }

  /**
   * `StringArrayIter`: owns a native array `ptr` of C strings whose logical
   * length `len` is clamped to the first NULL, and a cursor `at`.
   * `dropped` records that `drop` has run; Rust runs it exactly once.
   */
  class StringArrayIter {
    const heap: Heap
    const ptr: Option<AllocId>
    var len: nat
    var at: nat
    var dropped: bool

    ghost predicate Valid()
      reads this, heap
    {
      && !dropped
      && at <= len
      && (ptr.None? ==> len == 0)
      && (ptr.Some? ==> ptr.value in heap.live && heap.OwnsStrings(ptr.value, len))
    }

    /** `as_slice`: the first `len` slots of the native array. */
    function AsSlice(): (s: seq<Option<AllocId>>)
      reads this, heap
      requires ptr.None? ==> len == 0
      requires ptr.Some? ==> ptr.value in heap.arrays && len <= |heap.arrays[ptr.value]|
      ensures |s| == len
      ensures ptr.Some? ==> s == heap.arrays[ptr.value][..len]
    {
      if ptr.None? then [] else heap.arrays[ptr.value][..len]
    }

    /** The texts not yet returned by `next`, in index order. */
    ghost function Remaining(): seq<seq<Byte>>
      reads this, heap
      requires Valid()
    {
      heap.Texts(AsSlice()[at..])
    }

    /**
     * `StringArrayIter::new`: takes over the array `ptr` with declared length
     * `n` and clamps the length to the first NULL among the first `n` slots.
     */
    constructor (heap: Heap, ptr: Option<AllocId>, n: nat)
      requires ptr.None? ==> n == 0
      requires ptr.Some? ==> && ptr.value in heap.live && ptr.value in heap.arrays
                             && n <= |heap.arrays[ptr.value]|
                             && heap.OwnsStrings(ptr.value, FirstNull(heap.arrays[ptr.value][..n]))
      ensures Valid()
      ensures this.heap == heap && this.ptr == ptr && at == 0
      ensures len == (if ptr.None? then 0 else FirstNull(heap.arrays[ptr.value][..n]))
    {
      this.heap, this.ptr, len, at, dropped := heap, ptr, n, 0, false;
      new;
      var s := AsSlice();
      var k := 0;
      while k < |s| && s[k].Some?
        invariant 0 <= k <= |s|
        invariant forall i :: 0 <= i < k ==> s[i].Some?
      {
        k := k + 1;
      }
      FirstNullUnique(s, k);
      len := k;
    }

    /**
     * `next`: the text of slot `at`, advancing the cursor, or `None` once the
     * cursor reaches `len`. It copies the string and frees nothing.
     */
    method Next() returns (item: Option<seq<Byte>>)
      requires Valid()
      requires at < len ==> ValidUtf8(heap.strings[AsSlice()[at].value])
      modifies this`at
      ensures Valid()
      ensures old(at) < len ==> at == old(at) + 1 && item == Some(heap.strings[AsSlice()[old(at)].value])
      ensures old(at) == len ==> at == old(at) && item == None
    {
      var s := AsSlice();
      if at >= |s| {
        return None;
      }
      var p := s[at];
      at := at + 1;
      var text := ToStr(heap.strings[p.value]);
      item := Some(text.value);
    }

    /**
     * `collect` (as in `src/bin/rlxc.rs`): drains the remaining texts in
     * index order; the iterator was taken by value, so it is dropped after.
     */
    method Collect() returns (items: seq<seq<Byte>>)
      requires Valid()
      requires forall i :: at <= i < len ==> ValidUtf8(heap.strings[AsSlice()[i].value])
      modifies this`at, this`dropped, heap`live, heap`frees, heap`doubleFrees
      ensures items == old(Remaining())
      ensures dropped && at == len
      ensures heap.frees == old(heap.frees) + Ids(old(AsSlice())) + Freed(ptr)
      ensures heap.live == old(heap.live) - (set i | 0 <= i < len :: old(AsSlice())[i].value) - set p | p in Freed(ptr)
      ensures heap.doubleFrees == old(heap.doubleFrees)
    {
      ghost var at0 := at;
      ghost var s := AsSlice();
      items := [];
      while true
        invariant Valid() && at0 <= at <= len
        invariant AsSlice() == s
        invariant items == heap.Texts(s[at0..at])
        invariant heap.live == old(heap.live) && heap.frees == old(heap.frees)
        invariant heap.doubleFrees == old(heap.doubleFrees)
        decreases len - at
      {
        var item := Next();
        if item.None? {
          break;
        }
        items := items + [item.value];
      }
      Drop();
    }

    /**
     * `drop`: frees every slot below `len`, in order, then the array itself,
     * whatever the cursor. Each of these allocations is freed exactly once.
     */
    method Drop()
      requires Valid()
      modifies this`dropped, heap`live, heap`frees, heap`doubleFrees
      ensures dropped
      ensures heap.frees == old(heap.frees) + Ids(old(AsSlice())) + Freed(ptr)
      ensures heap.live == old(heap.live) - (set i | 0 <= i < len :: old(AsSlice())[i].value) - set p | p in Freed(ptr)
      ensures heap.doubleFrees == old(heap.doubleFrees)
      ensures forall x :: x in Ids(old(AsSlice())) + Freed(ptr) ==>
                multiset(heap.frees[|old(heap.frees)|..])[x] == 1
    {
      var s := AsSlice();
      for i := 0 to |s|
        invariant heap.frees == old(heap.frees) + Ids(s)[..i]
        invariant heap.live == old(heap.live) - set j | 0 <= j < i :: s[j].value
        invariant heap.doubleFrees == old(heap.doubleFrees)
      {
        assert s[i].value in heap.live by {
          assert forall j :: 0 <= j < i ==> s[j] != s[i];
        }
        heap.Free(s[i]);
        assert Ids(s)[..i + 1] == Ids(s)[..i] + [s[i].value];
      }
      assert Ids(s)[..|s|] == Ids(s);
      heap.Free(ptr);
      dropped := true;
      ghost var added := Ids(s) + Freed(ptr);
      assert heap.frees[|old(heap.frees)|..] == added;
      assert Distinct(added) by {
        assert forall i, j :: 0 <= i < j < |s| ==> s[i] != s[j];
      }
      forall x | x in added ensures multiset(added)[x] == 1 {
        DistinctOccursOnce(added, x);
      }
    }
  }
}
