/** The queue of an emitted QUEUE block: an array whose removed entries stay as tombstones until
    they reach the front. It is proved to be a plain sequence of tickets and entities. */
module TombstoneQueues {
  import opened Options
  import opened Sums
  import opened SimModel
  import opened Semantics

  datatype Slot = Slot(ref: EntityRef, valid: bool)

  /** The live entries of an array whose first slot holds ticket first. */
  ghost function LiveFrom(arr: seq<Slot>, first: nat): (ws: seq<Waiting>)
    ensures |ws| <= |arr|
  {
    if arr == [] then []
    else (if arr[0].valid then [Waiting(first, arr[0].ref)] else []) + LiveFrom(arr[1..], first + 1)
  }

  lemma {:induction false} LiveSnoc(arr: seq<Slot>, first: nat, x: Slot)
    ensures LiveFrom(arr + [x], first) == LiveFrom(arr, first) + if x.valid then [Waiting(first + |arr|, x.ref)] else []
  {
    if arr == [] {
      assert [x][1..] == [];
    } else {
      LiveSnoc(arr[1..], first + 1, x);
      assert (arr + [x])[1..] == arr[1..] + [x];
    }
  }

  /** Tickets are positions: those that wait lie within the array. */
  lemma {:induction false} LiveTickets(arr: seq<Slot>, first: nat, i: nat)
    requires i < |LiveFrom(arr, first)|
    ensures var w := LiveFrom(arr, first)[i];
            first <= w.ticket < first + |arr| && arr[w.ticket - first] == Slot(w.ref, true)
  {
    if arr[0].valid {
      if i > 0 {
        LiveTickets(arr[1..], first + 1, i - 1);
      }
    } else {
      LiveTickets(arr[1..], first + 1, i);
    }
  }

  /** An entry with another ticket in front shifts the place where a ticket is found. */
  lemma FindBehind(w: Waiting, rest: seq<Waiting>, ticket: nat)
    requires w.ticket != ticket && Find(rest, ticket).Some?
    ensures var i := Find(rest, ticket).value;
            && Find([w] + rest, ticket) == Some(i + 1)
            && RemoveAt([w] + rest, i + 1) == [w] + RemoveAt(rest, i)
  {
    assert ([w] + rest)[1..] == rest;
    RemoveBehind(w, rest, Find(rest, ticket).value);
  }

  lemma RemoveBehind(w: Waiting, rest: seq<Waiting>, i: nat)
    requires i < |rest|
    ensures RemoveAt([w] + rest, i + 1) == [w] + RemoveAt(rest, i)
  {
    var all := [w] + rest;
    assert all[..i + 1] == [w] + rest[..i] && all[i + 2..] == rest[i + 1..];
  }

  /** The ticket is found, stands for ref, and less is ws without that entry. */
  ghost predicate TakesOut(ws: seq<Waiting>, ticket: nat, ref: EntityRef, less: seq<Waiting>) {
    var i := Find(ws, ticket);
    i.Some? && ws[i.value].ref == ref && less == RemoveAt(ws, i.value)
  }

  lemma TakesOutBehind(w: Waiting, ws: seq<Waiting>, ticket: nat, ref: EntityRef, less: seq<Waiting>)
    requires w.ticket != ticket && TakesOut(ws, ticket, ref, less)
    ensures TakesOut([w] + ws, ticket, ref, [w] + less)
  {
    hide Find, RemoveAt;
    FindBehind(w, ws, ticket);
  }

  function Buried(arr: seq<Slot>, pos: nat): (r: seq<Slot>)
    requires pos < |arr|
    ensures |r| == |arr|
  {
    arr[pos := arr[pos].(valid := false)]
  }

  lemma BuriedBehind(arr: seq<Slot>, pos: nat)
    requires 0 < pos < |arr|
    ensures Buried(arr, pos)[0] == arr[0] && Buried(arr, pos)[1..] == Buried(arr[1..], pos - 1)
    ensures arr[1..][pos - 1] == arr[pos]
  {
  }

  lemma TakesOutFirst(w: Waiting, rest: seq<Waiting>)
    ensures TakesOut([w] + rest, w.ticket, w.ref, rest)
  {
    assert RemoveAt([w] + rest, 0) == rest;
  }

  lemma BuryFirst(arr: seq<Slot>, first: nat)
    requires arr != [] && arr[0].valid
    ensures TakesOut(LiveFrom(arr, first), first, arr[0].ref, LiveFrom(Buried(arr, 0), first))
  {
    assert Buried(arr, 0)[1..] == arr[1..] && !Buried(arr, 0)[0].valid;
    hide LiveFrom, TakesOut, Buried;
    LiveStep(arr, first);
    LiveStep(Buried(arr, 0), first);
    TakesOutFirst(Waiting(first, arr[0].ref), LiveFrom(arr[1..], first + 1));
  }

  lemma {:induction false} BuryTakesOut(arr: seq<Slot>, first: nat, pos: nat)
    requires pos < |arr| && arr[pos].valid
    ensures TakesOut(LiveFrom(arr, first), first + pos, arr[pos].ref, LiveFrom(Buried(arr, pos), first))
  {
    hide LiveFrom, TakesOut, Buried;
    if pos == 0 {
      BuryFirst(arr, first);
    } else {
      BuriedBehind(arr, pos);
      BuryTakesOut(arr[1..], first + 1, pos - 1);
      LiveStep(arr, first);
      LiveStep(Buried(arr, pos), first);
      var rest, less := LiveFrom(arr[1..], first + 1), LiveFrom(Buried(arr[1..], pos - 1), first + 1);
      if arr[0].valid {
        TakesOutBehind(Waiting(first, arr[0].ref), rest, first + pos, arr[pos].ref, less);
      }
    }
  }

  /** The ticket at a live position is found, and burying it removes just that entry. */
  lemma BuryRemoves(arr: seq<Slot>, first: nat, pos: nat)
    requires pos < |arr| && arr[pos].valid
    ensures var ws := LiveFrom(arr, first);
            var i := Find(ws, first + pos);
            && i.Some? && ws[i.value].ref == arr[pos].ref
            && LiveFrom(arr[pos := arr[pos].(valid := false)], first) == RemoveAt(ws, i.value)
  {
    hide LiveFrom, Find, RemoveAt;
    BuryTakesOut(arr, first, pos);
  }

  lemma LiveStep(arr: seq<Slot>, first: nat)
    requires arr != []
    ensures arr[0].valid ==>
              LiveFrom(arr, first) == [Waiting(first, arr[0].ref)] + LiveFrom(arr[1..], first + 1)
    ensures !arr[0].valid ==> LiveFrom(arr, first) == LiveFrom(arr[1..], first + 1)
  {
  }

  lemma {:induction false} NotLive(arr: seq<Slot>, first: nat, ticket: nat)
    requires ticket < first || ticket >= first + |arr| || !arr[ticket - first].valid
    ensures Find(LiveFrom(arr, first), ticket).None?
  {
    var ws := LiveFrom(arr, first);
    var i := Find(ws, ticket);
    if i.Some? {
      LiveTickets(arr, first, i.value);
    }
  }

  lemma {:induction false} LiveIncrease(arr: seq<Slot>, first: nat, i: nat, j: nat)
    requires i < j < |LiveFrom(arr, first)|
    ensures LiveFrom(arr, first)[i].ticket < LiveFrom(arr, first)[j].ticket
  {
    if arr[0].valid {
      if i > 0 {
        LiveIncrease(arr[1..], first + 1, i - 1, j - 1);
      } else {
        LiveTickets(arr[1..], first + 1, j - 1);
      }
    } else {
      LiveIncrease(arr[1..], first + 1, i, j);
    }
  }

  class TombstoneQueue {
    var arr: seq<Slot>
    var total: nat
    var len: nat
    var maxLen: nat

    ghost predicate Valid()
      reads this
    {
      |arr| <= total && len == |Queued()|
    }

    /** The sequence this queue stands for. */
    ghost function Queued(): seq<Waiting>
      reads this
      requires |arr| <= total
    {
      LiveFrom(arr, total - |arr|)
    }

    constructor ()
      ensures Valid() && Queued() == [] && total == 0 && maxLen == 0
    {
      arr, total, len, maxLen := [], 0, 0, 0;
    }

    method Push(ref: EntityRef) returns (idx: nat)
      requires Valid()
      modifies this
      ensures Valid() && idx == old(total) && total == old(total) + 1
      ensures Queued() == old(Queued()) + [Waiting(idx, ref)]
      ensures maxLen == Max(old(|Queued()|) + 1, old(maxLen))
    {
      LiveSnoc(arr, total - |arr|, Slot(ref, true));
      idx := total;
      total := total + 1;
      arr := arr + [Slot(ref, true)];
      len := len + 1;
      if len > maxLen {
        maxLen := len;
      }
    }

    /** Drops the tombstones at the front; nothing waiting moves. */
    method Trim()
      requires Valid()
      modifies this`arr
      ensures Valid() && Queued() == old(Queued())
      ensures arr == [] || arr[0].valid
      ensures (arr == []) == (Queued() == [])
    {
      while |arr| > 0 && !arr[0].valid
        invariant Valid() && Queued() == old(Queued())
        decreases |arr|
      {
        arr := arr[1..];
      }
    }

    method Top() returns (ref: EntityRef, ok: bool)
      requires Valid()
      modifies this`arr
      ensures Valid() && Queued() == old(Queued())
      ensures ok == (Queued() != [])
      ensures ref == if ok then Queued()[0].ref else NULL_REF
    {
      Trim();
      if len == 0 || |arr| == 0 {
        return NULL_REF, false;
      }
      return arr[0].ref, true;
    }

    /** Removes the entity that has waited longest, if there is one. */
    method Delete()
      requires Valid()
      modifies this`arr, this`len
      ensures Valid() && Queued() == if old(Queued()) == [] then [] else old(Queued())[1..]
    {
      Trim();
      if |arr| == 0 {
        return;
      }
      arr := arr[1..];
      if len > 0 {
        len := len - 1;
      }
    }

    /** Removes the entity with the given ticket exactly if it is still waiting. */
    method Get(idx: nat) returns (ref: EntityRef, ok: bool)
      requires Valid()
      modifies this`arr, this`len
      ensures Valid()
      ensures ok == Find(old(Queued()), idx).Some?
      ensures ok ==> var i := Find(old(Queued()), idx).value;
              ref == old(Queued())[i].ref && Queued() == RemoveAt(old(Queued()), i)
      ensures !ok ==> ref == NULL_REF && Queued() == old(Queued())
    {
      var deleted := total - |arr|;
      if idx < deleted {
        NotLive(arr, deleted, idx);
        return NULL_REF, false;
      }
      var pos := idx - deleted;
      if pos >= |arr| {
        NotLive(arr, deleted, idx);
        return NULL_REF, false;
      }
      if !arr[pos].valid {
        NotLive(arr, deleted, idx);
        return NULL_REF, false;
      }
      BuryRemoves(arr, deleted, pos);
      ref := arr[pos].ref;
      arr := arr[pos := arr[pos].(valid := false)];
      if len > 0 {
        len := len - 1;
      }
      ok := true;
    }
  }

  /** However it is used, the live tickets of a queue increase and are all below the next one. */
  lemma TicketsIncrease(q: TombstoneQueue)
    requires q.Valid()
    ensures forall i, j :: 0 <= i < j < |q.Queued()| ==> q.Queued()[i].ticket < q.Queued()[j].ticket
    ensures forall i :: 0 <= i < |q.Queued()| ==> q.Queued()[i].ticket < q.total
  {
    var first := q.total - |q.arr|;
    forall i, j | 0 <= i < j < |q.Queued()|
      ensures q.Queued()[i].ticket < q.Queued()[j].ticket
    {
      LiveIncrease(q.arr, first, i, j);
    }
    forall i | 0 <= i < |q.Queued()|
      ensures q.Queued()[i].ticket < q.total
    {
      LiveTickets(q.arr, first, i);
    }
  }
}
