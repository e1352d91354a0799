/**
 * A fake C allocator standing in for the native heap that liblxc allocates
 * from and that `libc::free` releases into. Allocations are numbered; a
 * pointer is `Some(id)` and the NULL pointer is `None`. Every call of `free`
 * on a non-NULL pointer is logged, and freeing something that is no longer
 * live is counted as a double free.
 */
module NativeHeap {

  import opened Wrappers
  import opened Text

  /** The identity of one native allocation. */
  type AllocId = nat

  /** All elements of `s` are distinct. */
  ghost predicate Distinct<T>(s: seq<T>) {
    forall i, j :: 0 <= i < j < |s| ==> s[i] != s[j]
  }

  /** The pointee of every slot, when no slot is NULL. */
  function Ids<T>(s: seq<Option<T>>): (r: seq<T>)
    requires forall i :: 0 <= i < |s| ==> s[i].Some?
    ensures |r| == |s| && forall i :: 0 <= i < |s| ==> r[i] == s[i].value
  {
    seq(|s|, i requires 0 <= i < |s| => s[i].value)
  }

  /** A pointer as a list of the allocations `free` would release: none for NULL. */
  function Freed(p: Option<AllocId>): (r: seq<AllocId>)
    ensures p.None? <==> r == []
    ensures p.Some? ==> r == [p.value]
  {
    if p.Some? then [p.value] else []
  }

  /** A value that occurs in a list of distinct values occurs exactly once. */
  lemma {:induction false} DistinctOccursOnce<T>(s: seq<T>, x: T)
    requires Distinct(s) && x in s
    ensures multiset(s)[x] == 1
  {
    assert s == [s[0]] + s[1..];
    if s[0] == x {
      assert x !in s[1..];
    } else {
      DistinctOccursOnce(s[1..], x);
    }
  }

  class Heap {
    /** Live and freed C strings, by allocation. */
    var strings: map<AllocId, CStr>
    /** Live and freed pointer arrays (`char **`), by allocation. */
    var arrays: map<AllocId, seq<Option<AllocId>>>
    /** The allocations not yet freed. */
    var live: set<AllocId>
    /** Every `free` of a non-NULL pointer, in call order. */
    var frees: seq<AllocId>
    /** How many of those frees released something that was not live. */
    var doubleFrees: nat
    /** The next allocation number. */
    var next: AllocId

    ghost predicate Valid()
      reads this
    {
      && strings.Keys !! arrays.Keys
      && live <= strings.Keys + arrays.Keys
      && (forall id :: id in strings ==> id < next)
      && (forall id :: id in arrays ==> id < next)
    }

    constructor ()
      ensures Valid()
      ensures strings == map[] && arrays == map[] && live == {}
      ensures frees == [] && doubleFrees == 0
    {
      strings, arrays, live := map[], map[], {};
      frees, doubleFrees, next := [], 0, 0;
    }

    /** `malloc` + `strcpy` on the native side. */
    method AllocString(c: CStr) returns (id: AllocId)
      requires Valid()
      modifies this`strings, this`live, this`next
      ensures Valid()
      ensures id !in old(strings) && id !in arrays && id !in old(live)
      ensures strings == old(strings)[id := c] && live == old(live) + {id}
    {
      id := next;
      strings := strings[id := c];
      live := live + {id};
      next := next + 1;
    }

    /** `malloc` of a pointer array on the native side. */
    method AllocArray(slots: seq<Option<AllocId>>) returns (id: AllocId)
      requires Valid()
      modifies this`arrays, this`live, this`next
      ensures Valid()
      ensures id !in old(arrays) && id !in strings && id !in old(live)
      ensures arrays == old(arrays)[id := slots] && live == old(live) + {id}
    {
      id := next;
      arrays := arrays[id := slots];
      live := live + {id};
      next := next + 1;
    }

    /** `libc::free`: NULL is ignored, anything else is released and logged. */
    method Free(p: Option<AllocId>)
      modifies this`live, this`frees, this`doubleFrees
      ensures frees == old(frees) + Freed(p)
      ensures p.None? ==> live == old(live) && doubleFrees == old(doubleFrees)
      ensures p.Some? ==> live == old(live) - {p.value}
      ensures p.Some? ==> doubleFrees == old(doubleFrees) + (if p.value in old(live) then 0 else 1)
    {
      if p.Some? {
        if p.value !in live {
          doubleFrees := doubleFrees + 1;
        }
        live := live - {p.value};
        frees := frees + [p.value];
      }
    }

    /**
     * The first `n` slots of the array `base` point at live, pairwise
     * distinct C strings, none of which is the array itself: what a native
     * call hands over when it returns a string array.
     */
    ghost predicate OwnsStrings(base: AllocId, n: nat)
      reads this
    {
      && base in arrays && n <= |arrays[base]|
      && (forall i :: 0 <= i < n ==>
            && arrays[base][i].Some?
            && arrays[base][i].value in strings
            && arrays[base][i].value in live
            && arrays[base][i].value != base)
      && (forall i, j :: 0 <= i < j < n ==> arrays[base][i] != arrays[base][j])
    }

    /** The texts the slots of `s` point at. */
    function Texts(s: seq<Option<AllocId>>): (r: seq<seq<Byte>>)
      reads this
      requires forall i :: 0 <= i < |s| ==> s[i].Some? && s[i].value in strings
      ensures |r| == |s| && forall i :: 0 <= i < |s| ==> r[i] == strings[s[i].value]
    {
      var m := strings;
      seq(|s|, i requires 0 <= i < |s| => m[s[i].value])
    }
  }
}
