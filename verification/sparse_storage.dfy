/** A model of `SparseStorage` (itemal.py:52-146): an array of fixed rank kept as Python
    lists nested rank levels deep. Writes grow every list on the key's path on demand,
    reads of cells never written return the fill value, and a per-dimension high-water
    mark records how far each dimension has grown.

    The nested lists are the value `storage` of type seq<Cell<V>>; the ghost map
    `Contents` is the abstract view, one entry per materialised cell (a written cell or
    a cell created as padding). `Valid()` states that walking the nested lists with a
    key refines a lookup in that map. */
module SparseArray {
  import opened Wrappers

  /** One slot of a nested Python list: a stored value, or a list one level deeper. */
  datatype Cell<V> = Leaf(value: V) | List(items: seq<Cell<V>>)

  datatype StorageError =
    | InvalidRank(rank: int)                  // the constructor's ValueError
    | RankMismatch(given: nat, expected: nat) // the IndexError of reads and writes

  function MaxNat(a: nat, b: nat): nat {
    if a >= b then a else b
  }

  /** `items` is a list nested `depth` levels deep: sub-lists above the last level,
      values on it. */
  ghost predicate Shaped<V>(items: seq<Cell<V>>, depth: nat)
    decreases depth
  {
    && depth >= 1
    && forall j :: 0 <= j < |items| ==>
         if depth == 1 then items[j].Leaf?
         else items[j].List? && Shaped(items[j].items, depth - 1)
  }

  /** valueAtIndex's walk (itemal.py:101-109): index one level at a time. None stands for
      an index past the end of a list (the IndexError the walk catches) and for a slot
      of the wrong kind, which a shaped list never has. */
  function Walk<V>(items: seq<Cell<V>>, key: seq<nat>): Option<V>
    decreases |key|
  {
    if key == [] || key[0] >= |items| then None
    else match items[key[0]]
      case Leaf(v) => if |key| == 1 then Some(v) else None
      case List(sub) => if |key| == 1 then None else Walk(sub, key[1..])
  }

  /** `items` extended with copies of `filler` up to length `n` (the append loops of
      setValueAtIndex, itemal.py:125-126 and 136-137). */
  function Pad<V>(items: seq<Cell<V>>, n: nat, filler: Cell<V>): (r: seq<Cell<V>>)
    ensures |r| == if |items| >= n then |items| else n
    ensures forall j :: 0 <= j < |items| ==> r[j] == items[j]
    ensures forall j :: |items| <= j < |r| ==> r[j] == filler
  {
    if |items| >= n then items else items + seq(n - |items|, _ => filler)
  }

  /** The nested list after setValueAtIndex(key, v) (itemal.py:115-138): each list on the
      key's path padded up to the key's index there (with empty lists above the last
      level, with the fill value on it), and `v` written at the end of the path. */
  function Store<V>(items: seq<Cell<V>>, key: seq<nat>, v: V, fill: V): seq<Cell<V>>
    requires |key| >= 1
    decreases |key|
  {
    if |key| == 1 then Pad(items, key[0] + 1, Leaf(fill))[key[0] := Leaf(v)]
    else
      var padded := Pad(items, key[0] + 1, List([]));
      var below := if padded[key[0]].List? then padded[key[0]].items else [];
      padded[key[0] := List(Store(below, key[1..], v, fill))]
  }

  /** `k` is one of the cells a write at `key` creates as padding: in the same innermost
      list as `key`, before it, and absent before the write. */
  ghost predicate IsPad<V>(items: seq<Cell<V>>, key: seq<nat>, k: seq<nat>)
    requires |k| == |key| >= 1
  {
    && k[..|k| - 1] == key[..|key| - 1]
    && k[|k| - 1] < key[|key| - 1]
    && Walk(items, k) == None
  }

  lemma {:induction false} StoreShaped<V>(items: seq<Cell<V>>, key: seq<nat>, v: V, fill: V)
    requires |key| >= 1 && Shaped(items, |key|)
    ensures Shaped(Store(items, key, v, fill), |key|)
    decreases |key|
  {
    if |key| > 1 {
      var padded := Pad(items, key[0] + 1, List([]));
      var below := if padded[key[0]].List? then padded[key[0]].items else [];
      assert Shaped(padded, |key|);
      assert Shaped(below, |key| - 1);
      StoreShaped(below, key[1..], v, fill);
    }
  }

  /** Walking the nested list after a write: the written key yields the new value, the
      padding cells yield the fill value, and every other key yields what it did. */
  lemma {:induction false} WalkStore<V>(items: seq<Cell<V>>, key: seq<nat>, v: V, fill: V, k: seq<nat>)
    requires |key| >= 1 && Shaped(items, |key|) && |k| == |key|
    ensures Walk(Store(items, key, v, fill), k) ==
      if k == key then Some(v) else if IsPad(items, key, k) then Some(fill) else Walk(items, k)
    decreases |key|
  {
    var n := |key|;
    if n == 1 {
      WalkStoreLast(items, key, v, fill, k);
    } else if k[0] != key[0] {
      WalkStoreAside(items, key, v, fill, k);
    } else {
      var padded := Pad(items, key[0] + 1, List([]));
      assert Shaped(padded, n);
      WalkStore(Below(items, key), key[1..], v, fill, k[1..]);
      WalkStoreInto(items, key, v, fill, k);
    }
  }

  /** The list below `key[0]` that a write at `key` descends into. */
  function Below<V>(items: seq<Cell<V>>, key: seq<nat>): seq<Cell<V>>
    requires |key| >= 1
  {
    var padded := Pad(items, key[0] + 1, List([]));
    if padded[key[0]].List? then padded[key[0]].items else []
  }

  /** WalkStore's step down: a key that follows the written path at the first level
      walks on in the list below, where the write continues with the rest of the key. */
  lemma WalkStoreInto<V>(items: seq<Cell<V>>, key: seq<nat>, v: V, fill: V, k: seq<nat>)
    requires |key| > 1 && Shaped(items, |key|) && |k| == |key| && k[0] == key[0]
    ensures Walk(Store(items, key, v, fill), k) == Walk(Store(Below(items, key), key[1..], v, fill), k[1..])
    ensures Walk(items, k) == Walk(Below(items, key), k[1..])
    ensures k == key <==> k[1..] == key[1..]
    ensures IsPad(items, key, k) <==> IsPad(Below(items, key), key[1..], k[1..])
  {
    WalkBelow(items, key, k);
    PrefixTail(k, key);
  }

  lemma WalkBelow<V>(items: seq<Cell<V>>, key: seq<nat>, k: seq<nat>)
    requires |key| > 1 && Shaped(items, |key|) && |k| == |key| && k[0] == key[0]
    ensures Walk(items, k) == Walk(Below(items, key), k[1..])
  {
    if key[0] < |items| {
      assert items[key[0]].List? && Below(items, key) == items[key[0]].items;
    } else {
      assert Below(items, key) == [];
    }
  }

  /** Two keys of the same length and the same first index agree (everywhere, or up to
      the last index) exactly when their tails do. */
  lemma PrefixTail(k: seq<nat>, key: seq<nat>)
    requires |key| > 1 && |k| == |key| && k[0] == key[0]
    ensures k == key <==> k[1..] == key[1..]
    ensures k[..|k| - 1] == key[..|key| - 1] <==> k[1..][..|k| - 2] == key[1..][..|key| - 2]
  {
    var n := |key|;
    assert k[..n - 1] == [k[0]] + k[1..][..n - 2];
    assert key[..n - 1] == [key[0]] + key[1..][..n - 2];
    assert k == [k[0]] + k[1..] && key == [key[0]] + key[1..];
  }

  /** WalkStore on the last level. */
  lemma WalkStoreLast<V>(items: seq<Cell<V>>, key: seq<nat>, v: V, fill: V, k: seq<nat>)
    requires |key| == 1 && Shaped(items, 1) && |k| == 1
    ensures Walk(Store(items, key, v, fill), k) ==
      if k == key then Some(v) else if IsPad(items, key, k) then Some(fill) else Walk(items, k)
  {
    assert k == [k[0]] && key == [key[0]];
    assert k[..0] == key[..0];
  }

  /** WalkStore for a key that leaves the written path at the first level. */
  lemma WalkStoreAside<V>(items: seq<Cell<V>>, key: seq<nat>, v: V, fill: V, k: seq<nat>)
    requires |key| > 1 && Shaped(items, |key|) && |k| == |key| && k[0] != key[0]
    ensures Walk(Store(items, key, v, fill), k) == Walk(items, k)
    ensures k != key && !IsPad(items, key, k)
  {
    var n := |key|;
    assert k[..n - 1][0] == k[0] && key[..n - 1][0] == key[0];
  }

  /** What a read of key `k` returns, given the materialised cells `m`. */
  ghost function Read<V>(m: map<seq<nat>, V>, fill: V, k: seq<nat>): V {
    if k in m then m[k] else fill
  }

  function Lookup<V>(m: map<seq<nat>, V>, k: seq<nat>): Option<V> {
    if k in m then Some(m[k]) else None
  }

  /** The cells a write at `key` adds as padding to the abstract contents `m`. */
  ghost function PadKeys<V>(m: map<seq<nat>, V>, key: seq<nat>): set<seq<nat>>
    requires |key| >= 1
  {
    set j: nat | j < key[|key| - 1] && key[..|key| - 1] + [j] !in m :: key[..|key| - 1] + [j]
  }

  /** The abstract effect of setValueAtIndex(key, v): padding cells get the fill value,
      `key` gets `v`, everything else is kept. */
  ghost function Stored<V>(m: map<seq<nat>, V>, key: seq<nat>, v: V, fill: V): map<seq<nat>, V>
    requires |key| >= 1
  {
    (map k | k in PadKeys(m, key) :: fill) + m[key := v]
  }

  /** A write is seen by reads of its own key only: padding reads as the fill value,
      which is what those cells read as before. */
  lemma StoredRead<V>(m: map<seq<nat>, V>, key: seq<nat>, v: V, fill: V, k: seq<nat>)
    requires |key| >= 1
    ensures Read(Stored(m, key, v, fill), fill, k) == if k == key then v else Read(m, fill, k)
  {
  }

  /** Walking `items` with any key of length `rank` is a lookup in `m`. */
  ghost predicate Refines<V>(items: seq<Cell<V>>, m: map<seq<nat>, V>, rank: nat) {
    && (forall k {:trigger k in m} :: k in m ==> |k| == rank)
    && (forall k: seq<nat> {:trigger Walk(items, k)} {:trigger Lookup(m, k)} | |k| == rank :: Walk(items, k) == Lookup(m, k))
  }

  /** Membership in PadKeys is exactly IsPad, given that `items` refines `m`. */
  lemma PadKeysArePads<V>(items: seq<Cell<V>>, m: map<seq<nat>, V>, key: seq<nat>, k: seq<nat>)
    requires |key| >= 1 && |k| == |key| && Walk(items, k) == Lookup(m, k)
    ensures k in PadKeys(m, key) <==> IsPad(items, key, k)
  {
    var n := |key|;
    if IsPad(items, key, k) {
      assert k == key[..n - 1] + [k[n - 1]];
    }
    if k in PadKeys(m, key) {
      var j: nat :| j < key[n - 1] && key[..n - 1] + [j] !in m && k == key[..n - 1] + [j];
      assert k[..n - 1] == key[..n - 1] && k[n - 1] == j;
    }
  }

  lemma StoredKeysRank<V>(m: map<seq<nat>, V>, key: seq<nat>, v: V, fill: V)
    requires |key| >= 1 && forall k :: k in m ==> |k| == |key|
    ensures forall k :: k in Stored(m, key, v, fill) ==> |k| == |key|
  {
    forall k | k in Stored(m, key, v, fill) ensures |k| == |key| {
      if k in PadKeys(m, key) {
        var j: nat :| j < key[|key| - 1] && key[..|key| - 1] + [j] !in m && k == key[..|key| - 1] + [j];
      }
    }
  }

  /** The concrete write refines the abstract one. */
  lemma StoreRefines<V>(items: seq<Cell<V>>, m: map<seq<nat>, V>, key: seq<nat>, v: V, fill: V)
    requires |key| >= 1 && Shaped(items, |key|) && Refines(items, m, |key|)
    ensures Shaped(Store(items, key, v, fill), |key|)
    ensures Refines(Store(items, key, v, fill), Stored(m, key, v, fill), |key|)
  {
    StoreShaped(items, key, v, fill);
    StoredKeysRank(m, key, v, fill);
    forall k: seq<nat> | |k| == |key|
      ensures Walk(Store(items, key, v, fill), k) == Lookup(Stored(m, key, v, fill), k)
    {
      WalkStore(items, key, v, fill, k);
      PadKeysArePads(items, m, key, k);
    }
  }

  /** The high-water update of `_maxDimension` by a write at `key` (itemal.py:119-124,
      131-135): dimension d rises to cover key[d]. */
  function HighWater(dims: seq<nat>, key: seq<nat>): (r: seq<nat>)
    ensures |r| == |key|
  {
    seq(|key|, d requires 0 <= d < |key| => MaxNat(if d < |dims| then dims[d] else 0, key[d] + 1))
  }

  /** Every list at depth d of `items` is at most dims[d] long; with no marks at all,
      `items` is empty. */
  ghost predicate Bounded<V>(items: seq<Cell<V>>, dims: seq<nat>)
    decreases |dims|
  {
    if dims == [] then items == []
    else
      && |items| <= dims[0]
      && forall j :: 0 <= j < |items| && items[j].List? ==> Bounded(items[j].items, dims[1..])
  }

  lemma {:induction false} BoundedMono<V>(items: seq<Cell<V>>, dims: seq<nat>, dims': seq<nat>)
    requires Bounded(items, dims) && |dims'| == |dims|
    requires forall d :: 0 <= d < |dims| ==> dims[d] <= dims'[d]
    ensures Bounded(items, dims')
    decreases |dims|
  {
    if dims != [] {
      forall j | 0 <= j < |items| && items[j].List? ensures Bounded(items[j].items, dims'[1..]) {
        BoundedMono(items[j].items, dims[1..], dims'[1..]);
      }
    }
  }

  lemma {:induction false} BoundedStore<V>(items: seq<Cell<V>>, dims: seq<nat>, key: seq<nat>, v: V, fill: V)
    requires |key| >= 1 && Shaped(items, |key|) && Bounded(items, dims)
    requires dims == [] || |dims| == |key|
    ensures Bounded(Store(items, key, v, fill), HighWater(dims, key))
    decreases |key|
  {
    if |key| > 1 {
      var dims1 := if dims == [] then [] else dims[1..];
      var padded := Pad(items, key[0] + 1, List([]));
      var below := if padded[key[0]].List? then padded[key[0]].items else [];
      assert Shaped(padded, |key|);
      assert Bounded(below, dims1);
      BoundedStore(below, dims1, key[1..], v, fill);
      assert HighWater(dims, key)[1..] == HighWater(dims1, key[1..]);
      BoundedLevel(items, dims, key, v, fill);
    }
  }

  /** One level of BoundedStore: the list on the key's path grows to key[0] + 1 at
      most, the sub-list on the path is bounded by the lemma one level down, and the
      other sub-lists by the old marks. */
  lemma BoundedLevel<V>(items: seq<Cell<V>>, dims: seq<nat>, key: seq<nat>, v: V, fill: V)
    requires |key| > 1 && Shaped(items, |key|) && Bounded(items, dims)
    requires dims == [] || |dims| == |key|
    requires var padded := Pad(items, key[0] + 1, List([]));
      var below := if padded[key[0]].List? then padded[key[0]].items else [];
      Bounded(Store(below, key[1..], v, fill), HighWater(dims, key)[1..])
    ensures Bounded(Store(items, key, v, fill), HighWater(dims, key))
  {
    var hw := HighWater(dims, key);
    var dims1 := if dims == [] then [] else dims[1..];
    var r := Store(items, key, v, fill);
    forall j | 0 <= j < |r| && r[j].List? ensures Bounded(r[j].items, hw[1..]) {
      if j != key[0] && j < |items| {
        BoundedMono(items[j].items, dims1, hw[1..]);
      }
    }
  }

  class SparseStorage<V> {
    const rank: nat
    var fill: V
    var storage: seq<Cell<V>>
    var maxDimension: seq<nat>
    ghost var Contents: map<seq<nat>, V>

    ghost predicate Valid()
      reads this
    {
      && rank >= 1
      && Shaped(storage, rank)
      && Refines(storage, Contents, rank)
      && (maxDimension == [] || |maxDimension| == rank)
      && Bounded(storage, maxDimension)
    }

    /** The constructor (itemal.py:64-71) for a valid rank. */
    constructor (rank: nat, fill: V)
      requires rank >= 1
      ensures Valid() && this.rank == rank && this.fill == fill
      ensures storage == [] && maxDimension == [] && Contents == map[]
    {
      this.rank := rank;
      this.fill := fill;
      storage := [];
      maxDimension := [];
      Contents := map[];
    }

    /** Construction with any integer rank: a rank below 1 is refused (itemal.py:65-66). */
    static method Create(rank: int, fill: V) returns (r: Result<SparseStorage<V>, StorageError>)
      ensures r.Err? <==> rank < 1
      ensures r.Err? ==> r.error == InvalidRank(rank)
      ensures r.Ok? ==> fresh(r.value) && r.value.Valid() && r.value.rank == rank
      ensures r.Ok? ==> r.value.fill == fill && r.value.Contents == map[]
    {
      if rank < 1 {
        return Err(InvalidRank(rank));
      }
      var s := new SparseStorage(rank, fill);
      return Ok(s);
    }

    /** valueAtIndex (itemal.py:97-109): a key of the wrong rank is refused; otherwise the
        walk down the nested lists reads the cell recorded in `Contents`, or the fill
        value for a cell never materialised. Reading changes nothing. */
    function ValueAtIndex(key: seq<nat>): (r: Result<V, StorageError>)
      requires Valid()
      reads this
      ensures r.Err? <==> |key| != rank
      ensures r.Err? ==> r.error == RankMismatch(|key|, rank)
      ensures r.Ok? ==> r.value == Read(Contents, fill, key)
    {
      if |key| != rank then Err(RankMismatch(|key|, rank))
      else Ok(Walk(storage, key).GetOr(fill))
    }

    /** clearAllValues (itemal.py:92-95). */
    method ClearAllValues()
      requires Valid()
      modifies this
      ensures Valid() && fill == old(fill)
      ensures storage == [] && maxDimension == [] && Contents == map[]
      ensures forall k :: |k| == rank ==> ValueAtIndex(k) == Ok(fill)
    {
      storage := [];
      maxDimension := [];
      Contents := map[];
    }

    /** setFillInValue (itemal.py:88-90). Cells already created as padding keep the fill
        value they were created with; only never-materialised cells read the new one. */
    method SetFillInValue(newFill: V)
      requires Valid()
      modifies this
      ensures Valid() && fill == newFill
      ensures storage == old(storage) && maxDimension == old(maxDimension) && Contents == old(Contents)
    {
      fill := newFill;
    }

    /** setValueAtIndex (itemal.py:111-138): a key of the wrong rank is refused; otherwise
        the walk down key[:-1] pads each list it passes and raises the high-water marks
        (Descend), the innermost list is padded with the fill value and written, and each
        changed list is written back into its parent (WriteBack), which Python gets for
        free by mutating the nested lists in place. */
    method SetValueAtIndex(key: seq<nat>, newValue: V) returns (r: Result<(), StorageError>)
      requires Valid()
      modifies this
      ensures Valid() && fill == old(fill)
      ensures r.Ok? <==> |key| == rank
      ensures r.Err? ==> r.error == RankMismatch(|key|, rank)
      ensures r.Err? ==> storage == old(storage) && maxDimension == old(maxDimension) && Contents == old(Contents)
      ensures r.Ok? ==> storage == Store(old(storage), key, newValue, fill)
      ensures r.Ok? ==> maxDimension == HighWater(old(maxDimension), key)
      ensures r.Ok? ==> Contents == Stored(old(Contents), key, newValue, fill)
      ensures r.Ok? ==> ValueAtIndex(key) == Ok(newValue)
      ensures forall k :: |k| == rank && k != key ==> ValueAtIndex(k) == old(ValueAtIndex(k))
    {
      if |key| != rank {
        return Err(RankMismatch(|key|, rank));
      }
      var path, focus, dims := Descend(storage, maxDimension, key, newValue, fill);
      focus, dims := StoreLast(maxDimension, key, newValue, fill, focus, dims);
      focus := WriteBack(path, key, focus);
      assert dims == HighWater(maxDimension, key);
      WriteFacts(key, newValue);
      storage := focus;
      maxDimension := dims;
      Contents := Stored(Contents, key, newValue, fill);
      r := Ok(());
    }

    /** What a write at `key` does to the invariant and to reads, stated on the current
        state before the write. */
    lemma WriteFacts(key: seq<nat>, v: V)
      requires Valid() && |key| == rank
      ensures Shaped(Store(storage, key, v, fill), rank)
      ensures Refines(Store(storage, key, v, fill), Stored(Contents, key, v, fill), rank)
      ensures Bounded(Store(storage, key, v, fill), HighWater(maxDimension, key))
      ensures forall k :: Read(Stored(Contents, key, v, fill), fill, k) == if k == key then v else Read(Contents, fill, k)
    {
      StoreRefines(storage, Contents, key, v, fill);
      BoundedStore(storage, maxDimension, key, v, fill);
      forall k ensures Read(Stored(Contents, key, v, fill), fill, k) == if k == key then v else Read(Contents, fill, k) {
        StoredRead(Contents, key, v, fill, k);
      }
    }
  }

  /** The second half of setValueAtIndex (itemal.py:129-138): pad the innermost list with
      the fill value up to the last index, raise the last high-water mark and write. */
  method StoreLast<V>(marks: seq<nat>, key: seq<nat>, v: V, fill: V, focus: seq<Cell<V>>, dims: seq<nat>)
    returns (focus': seq<Cell<V>>, dims': seq<nat>)
    requires |key| >= 1 && Shaped(focus, 1)
    requires marks == [] || |marks| == |key|
    requires |dims| == if marks == [] then |key| - 1 else |key|
    requires forall e :: 0 <= e < |key| - 1 ==> dims[e] == MaxNat(Mark(marks, e), key[e] + 1)
    requires marks != [] ==> dims[|key| - 1] == marks[|key| - 1] && Bounded(focus, marks[|key| - 1..])
    requires marks == [] ==> focus == []
    ensures focus' == Store(focus, key[|key| - 1..], v, fill)
    ensures dims' == HighWater(marks, key)
  {
    var d := |key| - 1;
    var idx := key[d];
    focus' := focus;
    dims' := dims;
    if idx >= |focus'| {
      if d >= |dims'| {
        dims' := dims' + [0];
      }
      if idx + 1 > dims'[d] {
        dims' := dims'[d := idx + 1];
      }
      focus' := Pad(focus', idx + 1, Leaf(fill));
    } else {
      assert marks[d..][0] == marks[d];
    }
    focus' := focus'[idx := Leaf(v)];
    assert |key[d..]| == 1 && key[d..][0] == idx;
  }

  /** The high-water mark of dimension e in `marks` (0 where there is none yet). */
  function Mark(marks: seq<nat>, e: nat): nat {
    if e < |marks| then marks[e] else 0
  }

  /** The first loop of setValueAtIndex (itemal.py:115-128): walk down key[:-1], padding
      each list with empty lists up to the key's index and raising the high-water mark
      of each dimension it grows. Returns the lists passed (padded), the innermost list
      and the marks so far. */
  method Descend<V>(storage: seq<Cell<V>>, marks: seq<nat>, key: seq<nat>, v: V, fill: V)
    returns (path: seq<seq<Cell<V>>>, focus: seq<Cell<V>>, dims: seq<nat>)
    requires |key| >= 1 && Shaped(storage, |key|) && Bounded(storage, marks)
    requires marks == [] || |marks| == |key|
    ensures |path| == |key| - 1
    ensures forall e :: 0 <= e < |path| ==> key[e] < |path[e]|
    ensures Shaped(focus, 1)
    ensures Plug(path, key, Store(focus, key[|key| - 1..], v, fill)) == Store(storage, key, v, fill)
    ensures |dims| == if marks == [] then |key| - 1 else |key|
    ensures forall e :: 0 <= e < |key| - 1 ==> dims[e] == MaxNat(Mark(marks, e), key[e] + 1)
    ensures marks != [] ==> dims[|key| - 1] == marks[|key| - 1] && Bounded(focus, marks[|key| - 1..])
    ensures marks == [] ==> focus == []
  {
    path := [];
    focus := storage;
    dims := marks;
    var d := 0;
    while d < |key| - 1
      invariant 0 <= d <= |key| - 1
      invariant DescentState(storage, marks, key, v, fill, d, path, focus, dims)
    {
      path, focus, dims := DescendOne(storage, marks, key, v, fill, d, path, focus, dims);
      d := d + 1;
    }
  }

  /** The loop invariant of Descend after d levels. */
  ghost predicate DescentState<V>(storage: seq<Cell<V>>, marks: seq<nat>, key: seq<nat>, v: V, fill: V,
                                  d: nat, path: seq<seq<Cell<V>>>, focus: seq<Cell<V>>, dims: seq<nat>)
    requires |key| >= 1 && d <= |key| - 1
  {
    PathState(storage, key, v, fill, d, path, focus) && MarkState(marks, key, d, focus, dims)
  }

  /** The lists passed so far, and the list reached, rebuild the written storage. */
  ghost predicate PathState<V>(storage: seq<Cell<V>>, key: seq<nat>, v: V, fill: V,
                               d: nat, path: seq<seq<Cell<V>>>, focus: seq<Cell<V>>)
    requires |key| >= 1 && d <= |key| - 1
  {
    && |path| == d
    && (forall e :: 0 <= e < d ==> key[e] < |path[e]|)
    && Shaped(focus, |key| - d)
    && Plug(path, key, Store(focus, key[d..], v, fill)) == Store(storage, key, v, fill)
  }

  /** The marks of the dimensions passed so far are raised to cover the key; the others
      are as before, and still bound the list reached. */
  ghost predicate MarkState<V>(marks: seq<nat>, key: seq<nat>, d: nat, focus: seq<Cell<V>>, dims: seq<nat>)
    requires |key| >= 1 && d <= |key| - 1
  {
    && |dims| == (if marks == [] then d else |key|)
    && (forall e :: 0 <= e < d ==> dims[e] == MaxNat(Mark(marks, e), key[e] + 1))
    && (marks == [] ==> focus == [])
    && (marks != [] ==> |marks| == |key| && Bounded(focus, marks[d..]))
    && (marks != [] ==> forall e :: d <= e < |key| ==> dims[e] == marks[e])
  }

  /** One iteration of Descend's loop (itemal.py:118-128): the list at this level is
      padded with empty lists up to the key's index, and the walk goes one level down. */
  method DescendOne<V>(storage: seq<Cell<V>>, marks: seq<nat>, key: seq<nat>, v: V, fill: V,
                       d: nat, path: seq<seq<Cell<V>>>, focus: seq<Cell<V>>, dims: seq<nat>)
    returns (path': seq<seq<Cell<V>>>, focus': seq<Cell<V>>, dims': seq<nat>)
    requires |key| >= 1 && d < |key| - 1
    requires DescentState(storage, marks, key, v, fill, d, path, focus, dims)
    ensures DescentState(storage, marks, key, v, fill, d + 1, path', focus', dims')
  {
    dims' := RaiseMark(marks, key, d, focus, dims);
    var padded := Pad(focus, key[d] + 1, List([]));
    PathStep(storage, key, v, fill, d, path, focus);
    path' := path + [padded];
    focus' := padded[key[d]].items;
  }

  /** The high-water mark of dimension d after the padding of DescendOne
      (itemal.py:121-124). */
  method RaiseMark<V>(marks: seq<nat>, key: seq<nat>, d: nat, focus: seq<Cell<V>>, dims: seq<nat>)
    returns (dims': seq<nat>)
    requires |key| >= 1 && d < |key| - 1
    requires Shaped(focus, |key| - d) && MarkState(marks, key, d, focus, dims)
    ensures Pad(focus, key[d] + 1, List([]))[key[d]].List?
    ensures MarkState(marks, key, d + 1, Pad(focus, key[d] + 1, List([]))[key[d]].items, dims')
  {
    dims' := dims;
    if d >= |dims'| {
      dims' := dims' + [0];
    }
    var idx := key[d];
    var padded := focus;
    if idx >= |padded| {
      if idx + 1 > dims'[d] {
        dims' := dims'[d := idx + 1];
      }
      padded := Pad(padded, idx + 1, List([]));
    } else {
      assert padded == Pad(focus, idx + 1, List([]));
      if marks != [] {
        assert marks[d..][0] == marks[d];
      }
    }
    if marks != [] {
      assert marks[d..][1..] == marks[d + 1..];
    }
  }

  /** PathState carries over one level down. */
  lemma PathStep<V>(storage: seq<Cell<V>>, key: seq<nat>, v: V, fill: V,
                    d: nat, path: seq<seq<Cell<V>>>, focus: seq<Cell<V>>)
    requires |key| >= 1 && d < |key| - 1
    requires PathState(storage, key, v, fill, d, path, focus)
    ensures var padded := Pad(focus, key[d] + 1, List([]));
      padded[key[d]].List? && PathState(storage, key, v, fill, d + 1, path + [padded], padded[key[d]].items)
  {
    var padded := Pad(focus, key[d] + 1, List([]));
    assert Shaped(padded, |key| - d);
    DescendStep(path, key, padded, d, v, fill);
    assert Store(focus, key[d..], v, fill) == Store(padded, key[d..], v, fill);
  }

  /** One step down: storing below focus[key[d]] and plugging focus into the path is
      storing at key[d..] in focus. */
  lemma DescendStep<V>(path: seq<seq<Cell<V>>>, key: seq<nat>, focus: seq<Cell<V>>, d: nat, v: V, fill: V)
    requires |path| == d && d + 1 < |key|
    requires forall e :: 0 <= e < d ==> key[e] < |path[e]|
    requires key[d] < |focus| && Shaped(focus, |key| - d)
    ensures focus[key[d]].List?
    ensures Plug(path + [focus], key, Store(focus[key[d]].items, key[d + 1..], v, fill))
         == Plug(path, key, Store(focus, key[d..], v, fill))
  {
    var idx := key[d];
    assert focus == Pad(focus, idx + 1, List([]));
    assert key[d..][1..] == key[d + 1..];
    assert (path + [focus])[..d] == path;
  }

  /** The second loop: write each changed list back into its parent, innermost first. */
  method WriteBack<V>(path: seq<seq<Cell<V>>>, key: seq<nat>, inner: seq<Cell<V>>) returns (r: seq<Cell<V>>)
    requires |path| <= |key|
    requires forall e :: 0 <= e < |path| ==> key[e] < |path[e]|
    ensures r == Plug(path, key, inner)
  {
    r := inner;
    var d := |path|;
    assert path[..d] == path;
    while d > 0
      invariant 0 <= d <= |path|
      invariant Plug(path[..d], key, r) == Plug(path, key, inner)
    {
      assert path[..d][..d - 1] == path[..d - 1];
      d := d - 1;
      r := path[d][key[d] := List(r)];
    }
  }

  /** The nested list rebuilt from the lists visited on the way down (path[d] is the
      list at depth d, already padded) once the innermost one has become `inner`. */
  function Plug<V>(path: seq<seq<Cell<V>>>, key: seq<nat>, inner: seq<Cell<V>>): seq<Cell<V>>
    requires |path| <= |key|
    requires forall d :: 0 <= d < |path| ==> key[d] < |path[d]|
    decreases |path|
  {
    if path == [] then inner
    else
      var d := |path| - 1;
      Plug(path[..d], key, path[d][key[d] := List(inner)])
  }

  /** addValueAtIndex (itemal.py:140-142) on an integer storage. */
  method AddValueAtIndex(s: SparseStorage<int>, key: seq<nat>, delta: int) returns (r: Result<(), StorageError>)
    requires s.Valid()
    modifies s
    ensures s.Valid() && s.fill == old(s.fill)
    ensures r.Ok? <==> |key| == s.rank
    ensures r.Err? ==> r.error == RankMismatch(|key|, s.rank)
    ensures r.Err? ==> s.Contents == old(s.Contents) && s.storage == old(s.storage) && s.maxDimension == old(s.maxDimension)
    ensures r.Ok? ==> s.ValueAtIndex(key) == Ok(old(s.ValueAtIndex(key)).value + delta)
    ensures forall k :: |k| == s.rank && k != key ==> s.ValueAtIndex(k) == old(s.ValueAtIndex(k))
    ensures r.Ok? ==> forall k :: |k| == s.rank ==>
      Read(s.Contents, s.fill, k) == Read(old(s.Contents), s.fill, k) + (if k == key then delta else 0)
  {
    var current := s.ValueAtIndex(key);
    if current.Err? {
      return Err(current.error);
    }
    r := s.SetValueAtIndex(key, current.value + delta);
  }

  /** scaleValueAtIndex (itemal.py:144-146) on an integer storage. */
  method ScaleValueAtIndex(s: SparseStorage<int>, key: seq<nat>, multiplier: int) returns (r: Result<(), StorageError>)
    requires s.Valid()
    modifies s
    ensures s.Valid() && s.fill == old(s.fill)
    ensures r.Ok? <==> |key| == s.rank
    ensures r.Err? ==> r.error == RankMismatch(|key|, s.rank)
    ensures r.Err? ==> s.Contents == old(s.Contents) && s.storage == old(s.storage) && s.maxDimension == old(s.maxDimension)
    ensures r.Ok? ==> s.ValueAtIndex(key) == Ok(old(s.ValueAtIndex(key)).value * multiplier)
    ensures forall k :: |k| == s.rank && k != key ==> s.ValueAtIndex(k) == old(s.ValueAtIndex(k))
  {
    var current := s.ValueAtIndex(key);
    if current.Err? {
      return Err(current.error);
    }
    r := s.SetValueAtIndex(key, current.value * multiplier);
  }
}
