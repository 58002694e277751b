/** The scheduler's in-memory queue: a list in arrival order and an index of its keys. */
module PendingQueues {
  import opened Protocol

  /** A record to be scheduled; the payload stands for the fields the queue does not look at. */
  datatype Record = Record(key: Key, batch: string, memoryLimit: nat, goos: string, goarch: string, payload: int)

  ghost predicate NoDuplicates(items: seq<Record>) {
    forall i, j :: 0 <= i < j < |items| ==> items[i].key != items[j].key
  }

  /** The index is exactly the set of the keys in the list. */
  ghost predicate Indexed(items: seq<Record>, index: set<Key>) {
    && (forall i :: 0 <= i < |items| ==> items[i].key in index)
    && (forall k :: k in index ==> exists i :: 0 <= i < |items| && items[i].key == k)
  }

  /** The list without the records of key k, in the same order. */
  function Without(items: seq<Record>, k: Key): (rest: seq<Record>)
    ensures |rest| <= |items|
  {
    if items == [] then []
    else
      var last := items[|items| - 1];
      var rest := Without(items[..|items| - 1], k);
      if last.key == k then rest else rest + [last]
  }

  lemma {:induction false} WithoutMembers(items: seq<Record>, k: Key)
    ensures forall x :: x in Without(items, k) <==> x in items && x.key != k
  {
    if items != [] {
      var n := |items| - 1;
      WithoutMembers(items[..n], k);
      assert items == items[..n] + [items[n]];
    }
  }

  lemma {:induction false} WithoutKeepsOrder(items: seq<Record>, k: Key)
    requires NoDuplicates(items)
    ensures NoDuplicates(Without(items, k))
  {
    if items != [] {
      var front := items[..|items| - 1];
      WithoutKeepsOrder(front, k);
      WithoutMembers(front, k);
      var rest := Without(front, k);
      forall i | 0 <= i < |rest|
        ensures rest[i].key != items[|items| - 1].key
      {
        assert rest[i] in front;
      }
    }
  }

  lemma {:induction false} WithoutConcat(a: seq<Record>, b: seq<Record>, k: Key)
    ensures Without(a + b, k) == Without(a, k) + Without(b, k)
  {
    if b == [] {
      assert a + b == a;
    } else {
      var n := |b| - 1;
      WithoutConcat(a, b[..n], k);
      assert (a + b)[..|a + b| - 1] == a + b[..n] && (a + b)[|a + b| - 1] == b[n];
      var wa, wb := Without(a, k), Without(b[..n], k);
      assert wa + wb + [b[n]] == wa + (wb + [b[n]]);
    }
  }

  /** In a list without duplicates the filter removes exactly one record and moves none past another. */
  lemma {:induction false} WithoutRemovesOne(items: seq<Record>, i: nat)
    requires NoDuplicates(items) && i < |items|
    ensures Without(items, items[i].key) == items[..i] + items[i + 1..]
  {
    var k := items[i].key;
    assert items == items[..i] + [items[i]] + items[i + 1..];
    WithoutConcat(items[..i] + [items[i]], items[i + 1..], k);
    WithoutConcat(items[..i], [items[i]], k);
    WithoutNothing(items[..i], k);
    WithoutNothing(items[i + 1..], k);
    assert Without([items[i]], k) == [];
  }

  lemma {:induction false} WithoutNothing(items: seq<Record>, k: Key)
    requires forall i :: 0 <= i < |items| ==> items[i].key != k
    ensures Without(items, k) == items
  {
    if items != [] {
      WithoutNothing(items[..|items| - 1], k);
      assert items == items[..|items| - 1] + [items[|items| - 1]];
    }
  }

  /** The list is a slice of a backing array: arr[lo..hi]. */
  class PendingQueue {
    var arr: array<Record>
    var lo: nat
    var hi: nat
    var index: set<Key>

    /** The records in the order in which they arrived. */
    ghost var items: seq<Record>

    ghost predicate Valid()
      reads this, arr
    {
      lo <= hi <= arr.Length && items == arr[lo..hi] && NoDuplicates(items) && Indexed(items, index)
    }

    constructor ()
      ensures Valid() && fresh(arr) && items == [] && index == {}
    {
      arr := new Record[0];
      lo, hi, index, items := 0, 0, {}, [];
    }

    method Enqueue(record: Record) returns (added: bool)
      requires Valid()
      modifies this, arr
      ensures Valid() && (arr == old(arr) || fresh(arr))
      ensures added == (record.key !in old(index))
      ensures items == if added then old(items) + [record] else old(items)
      ensures index == old(index) + {record.key}
    {
      if record.key in index {
        assert index == index + {record.key};
        return false;
      }
      EnqueueKeepsIndex(items, index, record);
      Append(record);
      index := index + {record.key};
      added := true;
    }

    /** append: in the backing array if there is room behind the slice, else in a larger copy. */
    method Append(record: Record)
      requires lo <= hi <= arr.Length && items == arr[lo..hi]
      modifies this`arr, this`lo, this`hi, this`items, arr
      ensures (arr == old(arr) || fresh(arr)) && lo <= hi <= arr.Length
      ensures items == old(items) + [record] == arr[lo..hi]
    {
      if hi == arr.Length {
        var larger := new Record[2 * (hi - lo) + 1];
        forall k | 0 <= k < hi - lo {
          larger[k] := arr[lo + k];
        }
        assert larger[..hi - lo] == arr[lo..hi];
        arr, lo, hi := larger, 0, hi - lo;
      }
      arr[hi] := record;
      hi := hi + 1;
      items := items + [record];
    }

    /** Takes the oldest record: the slice moves on, the backing array stays. */
    method PopFirst() returns (record: Record)
      requires Valid() && items != []
      modifies this`lo, this`index, this`items
      ensures Valid() && [record] + items == old(items) && index == old(index) - {record.key}
    {
      record := arr[lo];
      PopKeepsIndex(items, index);
      lo, items := lo + 1, items[1..];
      index := index - {record.key};
    }

    /** Takes the oldest records, all of them if limit is not positive or too large. */
    method PopBatch(limit: int) returns (batch: seq<Record>)
      requires Valid()
      modifies this`lo, this`index, this`items
      ensures Valid()
      ensures |batch| == if limit <= 0 || limit > |old(items)| then |old(items)| else limit
      ensures batch + items == old(items)
      ensures forall i :: 0 <= i < |batch| ==> batch[i].key !in index
    {
      var n := if limit <= 0 || limit > hi - lo then hi - lo else limit;
      batch := [];
      ghost var was := items;
      hide NoDuplicates, Indexed;
      for i := 0 to n
        invariant Valid() && |batch| == i && batch + items == was && |was| >= n
        invariant forall j :: 0 <= j < i ==> batch[j].key !in index
      {
        var record := PopFirst();
        assert batch + ([record] + items) == (batch + [record]) + items;
        batch := batch + [record];
      }
    }

    /** Filters the slice where it stands and forgets the key. */
    method Remove(k: Key) returns (removed: bool)
      requires Valid()
      modifies this`hi, this`index, this`items, arr
      ensures Valid()
      ensures removed == (k in old(index))
      ensures items == Without(old(items), k)
      ensures k !in index
    {
      if k !in index {
        WithoutNothing(items, k);
        return false;
      }
      WithoutKeepsOrder(items, k);
      WithoutKeepsIndex(items, index, k);
      hide NoDuplicates, Indexed, Without;
      hi := FilterInPlace(arr, lo, hi, k);
      items := Without(items, k);
      index := index - {k};
      removed := true;
    }
  }

  lemma WithoutNext(xs: seq<Record>, i: nat, k: Key)
    requires i < |xs|
    ensures Without(xs[..i + 1], k) == Without(xs[..i], k) + if xs[i].key == k then [] else [xs[i]]
  {
    assert xs[..i + 1][..i] == xs[..i];
  }

  /** Records that stay move down within the array; each is read before its place is overwritten. */
  method FilterInPlace(arr: array<Record>, lo: nat, hi: nat, k: Key) returns (end: nat)
    requires lo <= hi <= arr.Length
    modifies arr
    ensures lo <= end <= hi && arr[lo..end] == Without(old(arr[lo..hi]), k)
  {
    ghost var was, kept := arr[lo..hi], [];
    end := lo;
    assert was[..0] == [];
    assert Without([], k) == [];
    hide Without;
    for i := lo to hi
      invariant lo <= end <= i && |kept| == end - lo && kept == Without(was[..i - lo], k)
      invariant forall j :: i <= j < hi ==> arr[j] == was[j - lo]
      invariant forall j :: lo <= j < end ==> arr[j] == kept[j - lo]
    {
      var item := arr[i];
      WithoutNext(was, i - lo, k);
      if item.key != k {
        arr[end] := item;
        end, kept := end + 1, kept + [item];
      }
    }
    assert was[..hi - lo] == was;
    assert |arr[lo..end]| == |kept| && forall j :: 0 <= j < |kept| ==> arr[lo..end][j] == kept[j];
  }

  lemma EnqueueKeepsIndex(items: seq<Record>, index: set<Key>, record: Record)
    requires NoDuplicates(items) && Indexed(items, index) && record.key !in index
    ensures NoDuplicates(items + [record]) && Indexed(items + [record], index + {record.key})
  {
    var longer := items + [record];
    forall k | k in index + {record.key}
      ensures exists i :: 0 <= i < |longer| && longer[i].key == k
    {
      if k == record.key {
        assert longer[|items|].key == k;
      } else {
        var i :| 0 <= i < |items| && items[i].key == k;
        assert longer[i].key == k;
      }
    }
  }

  lemma PopKeepsIndex(items: seq<Record>, index: set<Key>)
    requires NoDuplicates(items) && Indexed(items, index) && items != []
    ensures NoDuplicates(items[1..]) && Indexed(items[1..], index - {items[0].key})
  {
    forall k | k in index - {items[0].key}
      ensures exists i :: 0 <= i < |items[1..]| && items[1..][i].key == k
    {
      var i :| 0 <= i < |items| && items[i].key == k;
      assert items[1..][i - 1].key == k;
    }
  }

  lemma {:induction false} WithoutKeepsIndex(items: seq<Record>, index: set<Key>, k: Key)
    requires Indexed(items, index)
    ensures Indexed(Without(items, k), index - {k})
  {
    WithoutMembers(items, k);
    var rest := Without(items, k);
    forall i | 0 <= i < |rest|
      ensures rest[i].key in index - {k}
    {
      assert rest[i] in items;
    }
    forall l | l in index - {k}
      ensures exists i :: 0 <= i < |rest| && rest[i].key == l
    {
      var j :| 0 <= j < |items| && items[j].key == l;
      assert items[j] in rest;
    }
  }

  /** Removing a queued experiment deletes that one record and keeps the others in order. */
  method RemoveQueued(q: PendingQueue, i: nat) returns (removed: bool)
    requires q.Valid() && i < |q.items|
    modifies q, q.arr
    ensures q.Valid() && removed
    ensures q.items == old(q.items)[..i] + old(q.items)[i + 1..]
  {
    WithoutRemovesOne(q.items, i);
    assert q.arr[q.lo + i] == q.items[i] && q.items[i].key in q.index;
    hide Without, NoDuplicates, Indexed;
    removed := q.Remove(q.arr[q.lo + i].key);
  }
}
