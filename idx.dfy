/**
 * Typed index arena (src/common/idx.rs).
 *
 * Every index type wraps a 32-bit payload; an arena is an append-only
 * vector whose positions are the indices it hands out.
 */
module Idx {
  import opened Wrappers

  /** The `u32` payload of every index type. */
  newtype U32 = x: int | 0 <= x < 0x1_0000_0000

  const U32_MODULUS: nat := 0x1_0000_0000

  /** `Idx::new`: the `as u32` cast keeps the low 32 bits of the `usize`. */
  function New(index: nat): (r: U32)
    ensures index < U32_MODULUS ==> r as nat == index
    ensures (index - r as int) % U32_MODULUS == 0
  {
    (index % U32_MODULUS) as U32
  }

  /** `Idx::index`: widening the payload back to a `usize` is lossless. */
  function Index(i: U32): (r: nat)
    ensures r < U32_MODULUS && New(r) == i
  {
    i as nat
  }

  /** Both casts together: an index survives a trip through `usize`. */
  lemma IndexNewRoundTrip(i: U32)
    ensures New(Index(i)) == i
  {
  }

  /** Indices that differ by a multiple of 2^32 collapse onto one payload. */
  lemma NewTruncates(v: nat)
    ensures New(v + U32_MODULUS) == New(v)
  {
  }

  /** `IdxVec<I, T>`: a vector of `T` addressed by indices. */
  class IdxVec<T> {
    var raw: seq<T>

    /** `IdxVec::new` (and `Default::default`). */
    constructor ()
      ensures raw == []
    {
      raw := [];
    }

    /** `push`: appends and hands out the old length as the new index. */
    method Push(elem: T) returns (r: U32)
      modifies this
      ensures raw == old(raw) + [elem]
      ensures r == New(|old(raw)|)
      ensures |old(raw)| < U32_MODULUS ==> Index(r) == |old(raw)| && Get(r) == Some(elem)
    {
      var index := |raw|;
      raw := raw + [elem];
      r := New(index);
    }

    /** `is_empty`: no element, so not even index 0 is present. */
    function IsEmpty(): (r: bool)
      reads this
      ensures r <==> Get(New(0)).None?
    {
      |raw| == 0
    }

    /** `len`: the number of stored elements. */
    function Len(): (n: nat)
      reads this
      ensures forall i: U32 :: Get(i).Some? <==> Index(i) < n
    {
      |raw|
    }

    /** `contains_key` as written: it compares `len < index`, which is false
      * for every index `get` accepts and true only past the end. */
    function ContainsKey(index: U32): (r: bool)
      reads this
      ensures Get(index).Some? ==> !r
      ensures Index(index) == |raw| ==> !r
      ensures Index(index) > |raw| ==> r
    {
      |raw| < Index(index)
    }

    /** The bounds test `contains_key` evidently means: the key names an element. */
    function InBounds(index: U32): (r: bool)
      reads this
      ensures r <==> Get(index).Some?
    {
      Index(index) < |raw|
    }

    /** `get`: the element at the index, absent exactly past the end. */
    function Get(index: U32): (r: Option<T>)
      reads this
      ensures r.Some? <==> Index(index) < |raw|
      ensures r.Some? ==> r.value == raw[Index(index)]
    {
      if Index(index) < |raw| then Some(raw[Index(index)]) else None
    }

    /** `get_mut`, followed by a write through the returned reference when
      * there is one: only the addressed element changes. */
    method GetMut(index: U32, value: T) returns (found: bool)
      modifies this
      ensures found <==> old(Get(index)).Some?
      ensures |raw| == |old(raw)|
      ensures found ==> Get(index) == Some(value)
      ensures forall k :: 0 <= k < |raw| && k != Index(index) ==> raw[k] == old(raw)[k]
      ensures !found ==> raw == old(raw)
    {
      found := Index(index) < |raw|;
      if found {
        raw := raw[Index(index) := value];
      }
    }

    /** `keys`: `0, 1, ..., len-1`, each passed through `Idx::new`. */
    function Keys(): (r: seq<U32>)
      reads this
      ensures |r| == |raw|
      ensures forall k :: 0 <= k < |r| ==> Get(r[k]).Some?
      ensures |raw| <= U32_MODULUS ==> forall k :: 0 <= k < |r| ==> Index(r[k]) == k
    {
      var n := |raw|;
      seq(n, k requires 0 <= k < n => New(k))
    }

    /** `values`: the stored elements in index order. */
    function Values(): (r: seq<T>)
      reads this
      ensures |r| == |raw|
      ensures |raw| <= U32_MODULUS ==> forall k :: 0 <= k < |r| ==> Get(New(k)) == Some(r[k])
    {
      raw
    }

    /** `iter`: the k-th key paired with the k-th value. */
    function Iter(): (r: seq<(U32, T)>)
      reads this
      ensures |r| == |raw|
      ensures forall k :: 0 <= k < |r| ==> r[k].0 == Keys()[k] && r[k].1 == Values()[k]
      ensures |raw| <= U32_MODULUS ==> forall k :: 0 <= k < |r| ==> Get(r[k].0) == Some(r[k].1)
    {
      var keys, values := Keys(), Values();
      seq(|keys|, k requires 0 <= k < |keys| => (keys[k], values[k]))
    }

    /** `clear`: drops every element; earlier indices now dangle. */
    method Clear()
      modifies this
      ensures raw == []
      ensures IsEmpty() && Len() == 0
    {
      raw := [];
    }

    /** `Index::index` (`arena[i]`): panics out of range, so callers must stay in range. */
    function At(index: U32): (r: T)
      reads this
      requires Index(index) < |raw|
      ensures Get(index) == Some(r)
    {
      raw[Index(index)]
    }

    /** `IndexMut::index_mut` followed by a store: replaces one element. */
    method Set(index: U32, value: T)
      requires Index(index) < |raw|
      modifies this
      ensures raw == old(raw)[Index(index) := value]
    {
      raw := raw[Index(index) := value];
    }
  }

  /** `contains`: membership among the stored values. */
  function Contains<T(==)>(v: IdxVec<T>, t: T): (r: bool)
    reads v
    ensures r <==> exists k :: 0 <= k < |v.raw| && v.raw[k] == t
  {
    t in v.raw
  }

  /** `from_iter`: pushes the items one after another into a new arena. */
  method FromIter<T>(items: seq<T>) returns (v: IdxVec<T>)
    ensures fresh(v)
    ensures v.raw == items && v.Len() == |items|
  {
    v := new IdxVec();
    for i := 0 to |items|
      invariant v.raw == items[..i]
    {
      var _ := v.Push(items[i]);
    }
  }

  /** The defect in `contains_key`: a one-element arena does not "contain" index 0. */
  lemma ContainsKeyRejectsValidIndex<T>(v: IdxVec<T>)
    requires |v.raw| == 1
    ensures v.InBounds(New(0)) && !v.ContainsKey(New(0))
  {
  }
}
