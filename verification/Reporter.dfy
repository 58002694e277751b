/** The journal of unreported results: one file per experiment, named after it. */
module Reporters {
  import opened Protocol
  import opened Delivery

  // ---------- file names ----------

  predicate Replaced(c: char) {
    c == '/' || c == ':' || c == '\\'
  }

  /** The replacer of reportFileName: slashes, colons and double dots become underscores. */
  function Clean(s: string): string {
    if s == "" then ""
    else if Replaced(s[0]) then "_" + Clean(s[1..])
    else if |s| > 1 && s[0] == '.' && s[1] == '.' then "_" + Clean(s[2..])
    else [s[0]] + Clean(s[1..])
  }

  function FileName(k: Key): string {
    Clean(k.modelHash + "__" + k.experimentId) + ".json"
  }

  /** A string that the replacer leaves alone. */
  predicate Plain(s: string) {
    && (forall i :: 0 <= i < |s| ==> !Replaced(s[i]))
    && (forall i :: 0 <= i < |s| - 1 ==> !(s[i] == '.' && s[i + 1] == '.'))
  }

  lemma {:induction false} CleanKeepsPlain(s: string)
    requires Plain(s)
    ensures Clean(s) == s
  {
    if s != "" {
      assert Plain(s[1..]) by {
        assert forall i :: 0 <= i < |s| - 1 ==> s[1..][i] == s[i + 1];
      }
      CleanKeepsPlain(s[1..]);
    }
  }

  /** Cleaning works piecewise where no double dot spans the seam. */
  lemma {:induction false} CleanConcat(a: string, b: string)
    requires a == "" || a[|a| - 1] != '.'
    ensures Clean(a + b) == Clean(a) + Clean(b)
  {
    if a == "" {
      assert a + b == b;
    } else if |a| > 1 && a[0] == '.' && a[1] == '.' {
      CleanConcat(a[2..], b);
      CleanSeam(a, b, 2, "_");
    } else {
      CleanConcat(a[1..], b);
      assert !(|a + b| > 1 && (a + b)[0] == '.' && (a + b)[1] == '.');
      CleanSeam(a, b, 1, if Replaced(a[0]) then "_" else [a[0]]);
    }
  }

  /** One step of the replacer, which turns the first n characters into head. */
  lemma CleanSeam(a: string, b: string, n: nat, head: string)
    requires n <= |a| && Clean(a) == head + Clean(a[n..]) && Clean(a + b) == head + Clean((a + b)[n..])
    requires Clean(a[n..] + b) == Clean(a[n..]) + Clean(b)
    ensures Clean(a + b) == Clean(a) + Clean(b)
  {
    hide Clean;
    DropConcat(a, b, n);
    assert head + (Clean(a[n..]) + Clean(b)) == head + Clean(a[n..]) + Clean(b);
  }

  lemma DropConcat(a: string, b: string, n: nat)
    requires n <= |a|
    ensures (a + b)[n..] == a[n..] + b
  {
  }

  /** The dispatcher accepts only model hashes of 64 hex digits. */
  predicate HashLike(h: string) {
    |h| == 64 && forall i :: 0 <= i < |h| ==> '0' <= h[i] <= '9' || 'a' <= h[i] <= 'f' || 'A' <= h[i] <= 'F'
  }

  lemma NameParts(k: Key)
    requires HashLike(k.modelHash)
    ensures FileName(k) == k.modelHash + "__" + Clean(k.experimentId) + ".json"
  {
    var head := k.modelHash + "__";
    assert Plain(head);
    CleanKeepsPlain(head);
    CleanConcat(head, k.experimentId);
  }

  lemma PrefixCancels(a: string, x: string, b: string, y: string)
    requires |a| == |b|
    ensures a + x == b + y <==> a == b && x == y
  {
    if a + x == b + y {
      assert (a + x)[..|a|] == a && (b + y)[..|a|] == b;
      assert (a + x)[|a|..] == x && (b + y)[|a|..] == y;
    }
  }

  lemma SuffixCancels(x: string, y: string, tail: string)
    ensures x + tail == y + tail <==> x == y
  {
    if x + tail == y + tail {
      assert |x| == |y|;
      PrefixCancels(x, tail, y, tail);
    }
  }

  /** Two experiments share a journal file exactly if they belong to one model and their ids differ
      only in what the replacer changes. */
  lemma SharedFile(k: Key, l: Key)
    requires HashLike(k.modelHash) && HashLike(l.modelHash)
    ensures FileName(k) == FileName(l) <==> k.modelHash == l.modelHash && Clean(k.experimentId) == Clean(l.experimentId)
  {
    hide Clean;
    NameParts(k);
    NameParts(l);
    hide FileName;
    var kHead, lHead := k.modelHash + "__", l.modelHash + "__";
    var kTail, lTail := Clean(k.experimentId) + ".json", Clean(l.experimentId) + ".json";
    assert FileName(k) == kHead + kTail && FileName(l) == lHead + lTail;
    PrefixCancels(kHead, kTail, lHead, lTail);
    SuffixCancels(k.modelHash, l.modelHash, "__");
    SuffixCancels(Clean(k.experimentId), Clean(l.experimentId), ".json");
  }

  lemma PlainNamesAreDistinct(k: Key, l: Key)
    requires HashLike(k.modelHash) && HashLike(l.modelHash) && Plain(k.experimentId) && Plain(l.experimentId)
    ensures FileName(k) == FileName(l) ==> k == l
  {
    SharedFile(k, l);
    CleanKeepsPlain(k.experimentId);
    CleanKeepsPlain(l.experimentId);
  }

  /** A user-chosen batch id can make two experiments collide. */
  lemma NamesCollide(hash: string, tail: string)
    requires HashLike(hash)
    ensures FileName(Key(hash, "a/" + tail)) == FileName(Key(hash, "a_" + tail))
  {
    CleanConcat("a/", tail);
    CleanConcat("a_", tail);
    assert "a/"[1..] == "/" && "/"[1..] == "" && "a_"[1..] == "_" && "_"[1..] == "";
    assert Clean("a/") == Clean("a_");
    SharedFile(Key(hash, "a/" + tail), Key(hash, "a_" + tail));
  }

  /** Where every experiment id is plain, the deliveries of Delivery.dfy need no further assumption. */
  lemma PlainIdsHaveDistinctNames(s: State)
    requires forall k :: k in s.db ==> HashLike(k.modelHash) && Plain(k.experimentId)
    ensures DistinctNames(s, FileName)
  {
    forall k, l | k in s.db && l in s.db && FileName(k) == FileName(l)
      ensures k == l
    {
      PlainNamesAreDistinct(k, l);
    }
  }

  // ---------- the queue key of the control plane ----------

  function QueueKey(k: Key): string {
    k.modelHash + ":" + k.experimentId
  }

  /** Joining with a colon is unambiguous because a hash has none. */
  lemma QueueKeyIsInjective(k: Key, l: Key)
    requires HashLike(k.modelHash) && HashLike(l.modelHash) && QueueKey(k) == QueueKey(l)
    ensures k == l
  {
    assert QueueKey(k)[..64] == k.modelHash && QueueKey(l)[..64] == l.modelHash;
    assert QueueKey(k)[65..] == k.experimentId && QueueKey(l)[65..] == l.experimentId;
  }

  // ---------- the reporter ----------

  /** What the outside world answers for one file: whether the control plane said it stored the
      result, and whether the file could be removed. */
  datatype Answer = Answer(stored: bool, removed: bool)

  /** flushOne: a damaged file is deleted, a readable one only after the result was stored. */
  predicate Leaves(file: JournalFile, a: Answer) {
    a.removed && (file.Corrupt? || a.stored)
  }

  predicate IsJournalName(name: string) {
    |name| >= 5 && name[|name| - 5..] == ".json"
  }

  class Reporter {
    var journal: map<string, JournalFile>
    var signal: bool

    constructor ()
      ensures journal == map[] && !signal
    {
      journal, signal := map[], false;
    }

    /** Writes the result under its name and wakes the loop; written tells whether that succeeded. */
    method Submit(r: Result, written: bool)
      modifies this
      ensures journal == if written then old(journal)[FileName(r.key) := Readable(r)] else old(journal)
      ensures signal == (written || old(signal))
    {
      if !written {
        return;
      }
      journal := journal[FileName(r.key) := Readable(r)];
      signal := true;
    }

    method FlushOne(name: string, a: Answer) returns (ok: bool)
      requires name in journal
      modifies this`journal
      ensures journal == if Leaves(old(journal)[name], a) then old(journal) - {name} else old(journal)
      ensures ok == (old(journal)[name].Corrupt? || a.stored)
    {
      if journal[name].Corrupt? {
        if a.removed {
          journal := journal - {name};
        }
        return true;
      }
      if !a.stored {
        return false;
      }
      if a.removed {
        journal := journal - {name};
      }
      ok := true;
    }

    /** Goes through the directory once; until is the number of entries seen before a shutdown. */
    method Flush(entries: seq<string>, answers: string -> Answer, until: nat)
      requires forall i :: 0 <= i < |entries| ==> entries[i] in journal
      requires forall i, j :: 0 <= i < j < |entries| ==> entries[i] != entries[j]
      modifies this`journal
      ensures var seen := set i: nat | i < |entries| && i < until && IsJournalName(entries[i])
              && Leaves(old(journal)[entries[i]], answers(entries[i])) :: entries[i];
              journal == old(journal) - seen
    {
      ghost var was := journal;
      ghost var gone: set<string> := {};
      for i := 0 to |entries|
        invariant gone == set j: nat | j < i && j < until && IsJournalName(entries[j])
                  && Leaves(was[entries[j]], answers(entries[j])) :: entries[j]
        invariant journal == was - gone
      {
        if i >= until {
          return;
        }
        assert entries[i] !in gone;
        if IsJournalName(entries[i]) {
          var ok := FlushOne(entries[i], answers(entries[i]));
          if Leaves(was[entries[i]], answers(entries[i])) {
            gone := gone + {entries[i]};
          }
        }
      }
    }
  }
}
