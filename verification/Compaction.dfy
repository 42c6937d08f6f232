/** Memory compaction and its undo, as transactions over the memories and the archive. Memories are a map
 * because of their unique index; the archive is its table in id order. */
module Compaction {
  import opened GoStrings

  datatype Scope = Scope(kind: string, key: string)

  datatype Key = Key(scope: Scope, key: string)

  datatype Memory = Memory(text: string, creator: Option<nat>, created: nat, updated: nat)

  datatype Row = Row(key: Key, mem: Memory)

  datatype Archived = Archived(compaction: nat, at: nat, row: Row)

  datatype Store = Store(memories: map<Key, Memory>, archive: seq<Archived>)

  datatype Parsed = Parsed(key: string, text: string)

  // ----- tables -----

  /** Creating rows one by one; a key that is there already breaks the unique index. */
  function InsertAll(m: map<Key, Memory>, rows: seq<Row>): Option<map<Key, Memory>>
    decreases |rows|
  {
    if rows == [] then Some(m)
    else if rows[0].key in m then None
    else InsertAll(m[rows[0].key := rows[0].mem], rows[1..])
  }

  function WithoutScope(m: map<Key, Memory>, scope: Scope): map<Key, Memory> {
    map k | k in m && k.scope != scope :: m[k]
  }

  function Fresh(scope: Scope, next: seq<Parsed>, now: nat): seq<Row> {
    seq(|next|, i requires 0 <= i < |next| => Row(Key(scope, next[i].key), Memory(next[i].text, None, now, now)))
  }

  function Stamp(replaced: seq<Row>, id: nat, now: nat): seq<Archived> {
    seq(|replaced|, i requires 0 <= i < |replaced| => Archived(id, now, replaced[i]))
  }

  function MaxCompaction(archive: seq<Archived>): (m: nat)
    ensures forall i :: 0 <= i < |archive| ==> archive[i].compaction <= m
  {
    if archive == [] then 0
    else
      var n := |archive| - 1;
      var before := MaxCompaction(archive[..n]);
      if archive[n].compaction > before then archive[n].compaction else before
  }

  /** The archived rows of a compaction, in id order. */
  function RowsOf(archive: seq<Archived>, id: nat): seq<Row> {
    if archive == [] then []
    else
      var n := |archive| - 1;
      RowsOf(archive[..n], id) + if archive[n].compaction == id then [archive[n].row] else []
  }

  function WithoutCompaction(archive: seq<Archived>, id: nat): seq<Archived> {
    if archive == [] then []
    else
      var n := |archive| - 1;
      WithoutCompaction(archive[..n], id) + if archive[n].compaction != id then [archive[n]] else []
  }

  /** The archive part of `runCleanup`: rows archived before the cutoff go. */
  function Cleanup(archive: seq<Archived>, cutoff: nat): seq<Archived> {
    if archive == [] then []
    else
      var n := |archive| - 1;
      Cleanup(archive[..n], cutoff) + if archive[n].at >= cutoff then [archive[n]] else []
  }

  function WithoutScopesOf(m: map<Key, Memory>, rows: seq<Row>): map<Key, Memory> {
    if rows == [] then m else WithoutScopesOf(WithoutScope(m, rows[0].key.scope), rows[1..])
  }

  // ----- the two transactions -----

  /** `applyCompaction`: None when an insert breaks the unique index and all is rolled back. */
  function Apply(s: Store, scope: Scope, replaced: seq<Row>, next: seq<Parsed>, now: nat): Option<(Store, nat)> {
    var id := MaxCompaction(s.archive) + 1;
    match InsertAll(WithoutScope(s.memories, scope), Fresh(scope, next, now))
    case None => None
    case Some(m) => Some((Store(m, s.archive + Stamp(replaced, id, now)), id))
  }

  /** `restoreCompaction`: None when there is no such compaction, or an insert fails. */
  function Restore(s: Store, id: nat): Option<Store> {
    var rows := RowsOf(s.archive, id);
    if rows == [] then None
    else match InsertAll(WithoutScopesOf(s.memories, rows), rows)
      case None => None
      case Some(m) => Some(Store(m, WithoutCompaction(s.archive, id)))
  }

  class MemoryStore {
    var memories: map<Key, Memory>
    var archive: seq<Archived>

    ghost function Contents(): Store
      reads this
    {
      Store(memories, archive)
    }

    /** `applyCompaction`, with the rollback of its transaction. */
    method ApplyCompaction(scope: Scope, replaced: seq<Row>, next: seq<Parsed>, now: nat) returns (r: Option<nat>)
      modifies this
      ensures match Apply(old(Contents()), scope, replaced, next, now)
              case None => r == None && Contents() == old(Contents())
              case Some(done) => r == Some(done.1) && Contents() == done.0
    {
      var before, kept := memories, archive;
      var id := MaxCompaction(archive) + 1;
      var k := 0;
      while k < |replaced|
        invariant k <= |replaced| && memories == before
        invariant archive == kept + Stamp(replaced[..k], id, now)
      {
        assert Stamp(replaced[..k + 1], id, now) == Stamp(replaced[..k], id, now) + [Archived(id, now, replaced[k])];
        archive := archive + [Archived(id, now, replaced[k])];
        k := k + 1;
      }
      assert replaced[..k] == replaced;
      memories := WithoutScope(memories, scope);
      ghost var rows := Fresh(scope, next, now);
      k := 0;
      assert rows[0..] == rows;
      while k < |next|
        invariant k <= |next| == |rows|
        invariant archive == kept + Stamp(replaced, id, now)
        invariant InsertAll(memories, rows[k..]) == InsertAll(WithoutScope(before, scope), rows)
      {
        var key := Key(scope, next[k].key);
        assert rows[k..][1..] == rows[k + 1..];
        if key in memories {
          memories, archive := before, kept;
          return None;
        }
        memories := memories[key := Memory(next[k].text, None, now, now)];
        k := k + 1;
      }
      return Some(id);
    }

    /** `restoreCompaction`. */
    method RestoreCompaction(id: nat) returns (ok: bool)
      modifies this
      ensures match Restore(old(Contents()), id)
              case None => !ok && Contents() == old(Contents())
              case Some(s) => ok && Contents() == s
    {
      var rows := RowsOf(archive, id);
      if rows == [] {
        return false;
      }
      var before := memories;
      var k := 0;
      assert rows[0..] == rows;
      while k < |rows|
        invariant k <= |rows|
        invariant WithoutScopesOf(memories, rows[k..]) == WithoutScopesOf(before, rows)
        invariant archive == old(archive)
      {
        assert rows[k..][1..] == rows[k + 1..];
        memories := WithoutScope(memories, rows[k].key.scope);
        k := k + 1;
      }
      assert rows[k..] == [];
      k := 0;
      while k < |rows|
        invariant k <= |rows|
        invariant InsertAll(memories, rows[k..]) == InsertAll(WithoutScopesOf(before, rows), rows)
        invariant archive == old(archive)
      {
        assert rows[k..][1..] == rows[k + 1..];
        if rows[k].key in memories {
          memories := before;
          return false;
        }
        memories := memories[rows[k].key := rows[k].mem];
        k := k + 1;
      }
      archive := WithoutCompaction(archive, id);
      return true;
    }
  }

  // ----- facts about the tables -----

  ghost predicate DistinctKeys(rows: seq<Row>) {
    forall i, j :: 0 <= i < j < |rows| ==> rows[i].key != rows[j].key
  }

  ghost predicate Holds(m: map<Key, Memory>, row: Row) {
    row.key in m && m[row.key] == row.mem
  }

  /** Inserting succeeds exactly when no key repeats or is there already, and then adds the rows. */
  lemma {:induction false} InsertAllFacts(m: map<Key, Memory>, rows: seq<Row>)
    ensures InsertAll(m, rows).Some? <==> DistinctKeys(rows) && forall i :: 0 <= i < |rows| ==> rows[i].key !in m
    ensures InsertAll(m, rows).None? || (var r := InsertAll(m, rows).value;
              && (forall i :: 0 <= i < |rows| ==> Holds(r, rows[i]))
              && (forall k :: k in m ==> k in r && r[k] == m[k])
              && (forall k :: k in r && k !in m ==> exists i :: 0 <= i < |rows| && rows[i].key == k))
    decreases |rows|
  {
    if rows != [] {
      var m', tl := m[rows[0].key := rows[0].mem], rows[1..];
      InsertAllFacts(m', tl);
      assert forall i :: 0 <= i < |tl| ==> tl[i] == rows[i + 1];
      if rows[0].key !in m {
        InsertStep(m, rows);
      }
    }
  }

  lemma InsertStep(m: map<Key, Memory>, rows: seq<Row>)
    requires rows != [] && rows[0].key !in m
    ensures var m', tl := m[rows[0].key := rows[0].mem], rows[1..];
            (DistinctKeys(tl) && forall i :: 0 <= i < |tl| ==> tl[i].key !in m')
            <==> (DistinctKeys(rows) && forall i :: 0 <= i < |rows| ==> rows[i].key !in m)
  {
    var m', tl := m[rows[0].key := rows[0].mem], rows[1..];
    if DistinctKeys(tl) && forall i :: 0 <= i < |tl| ==> tl[i].key !in m' {
      forall i, j | 0 <= i < j < |rows| ensures rows[i].key != rows[j].key {
        assert rows[j] == tl[j - 1];
        if i > 0 {
          assert rows[i] == tl[i - 1];
        }
      }
      forall i | 0 <= i < |rows| ensures rows[i].key !in m {
        if i > 0 {
          assert rows[i] == tl[i - 1];
        }
      }
    }
    if DistinctKeys(rows) && forall i :: 0 <= i < |rows| ==> rows[i].key !in m {
      forall i | 0 <= i < |tl| ensures tl[i].key !in m' {
        assert tl[i] == rows[i + 1];
      }
    }
  }

  lemma {:induction false} ArchiveConcat(a: seq<Archived>, b: seq<Archived>, id: nat)
    ensures RowsOf(a + b, id) == RowsOf(a, id) + RowsOf(b, id)
    decreases |b|
  {
    if b == [] {
      assert a + b == a;
    } else {
      var n := |b| - 1;
      assert (a + b)[..|a| + n] == a + b[..n];
      ArchiveConcat(a, b[..n], id);
    }
  }

  lemma {:induction false} WithoutConcat(a: seq<Archived>, b: seq<Archived>, id: nat)
    ensures WithoutCompaction(a + b, id) == WithoutCompaction(a, id) + WithoutCompaction(b, id)
    decreases |b|
  {
    if b == [] {
      assert a + b == a;
    } else {
      var n := |b| - 1;
      assert (a + b)[..|a| + n] == a + b[..n];
      WithoutConcat(a, b[..n], id);
    }
  }

  lemma {:induction false} NothingOf(a: seq<Archived>, id: nat)
    requires forall i :: 0 <= i < |a| ==> a[i].compaction != id
    ensures RowsOf(a, id) == [] && WithoutCompaction(a, id) == a
  {
    if a != [] {
      var front, last := a[..|a| - 1], a[|a| - 1];
      NothingOf(front, id);
      assert last.compaction != id && a == front + [last];
    }
  }

  lemma {:induction false} AllOf(replaced: seq<Row>, id: nat, now: nat)
    ensures RowsOf(Stamp(replaced, id, now), id) == replaced && WithoutCompaction(Stamp(replaced, id, now), id) == []
  {
    if replaced != [] {
      var n := |replaced| - 1;
      assert Stamp(replaced, id, now)[..n] == Stamp(replaced[..n], id, now);
      AllOf(replaced[..n], id, now);
      assert replaced[..n] + [replaced[n]] == replaced;
    }
  }

  /** Right after a compaction its rows are exactly the replaced ones, and the rest is the archive from
      before. */
  lemma ArchiveAfterApply(archive: seq<Archived>, replaced: seq<Row>, now: nat)
    ensures var id := MaxCompaction(archive) + 1; var a := archive + Stamp(replaced, id, now);
            RowsOf(a, id) == replaced && WithoutCompaction(a, id) == archive
  {
    var id := MaxCompaction(archive) + 1;
    ArchiveConcat(archive, Stamp(replaced, id, now), id);
    WithoutConcat(archive, Stamp(replaced, id, now), id);
    NothingOf(archive, id);
    AllOf(replaced, id, now);
  }

  ghost predicate OfScope(rows: seq<Row>, scope: Scope) {
    forall i :: 0 <= i < |rows| ==> rows[i].key.scope == scope
  }

  lemma {:induction false} OneScope(m: map<Key, Memory>, rows: seq<Row>, scope: Scope)
    requires OfScope(rows, scope)
    ensures WithoutScopesOf(m, rows) == if rows == [] then m else WithoutScope(m, scope)
    decreases |rows|
  {
    if rows != [] {
      var w := WithoutScope(m, scope);
      OneScope(w, rows[1..], scope);
      assert WithoutScope(w, scope) == w;
    }
  }

  // ----- compaction and restore are inverse -----

  /** `rows` lists the memories of `scope`, each once. */
  ghost predicate Lists(m: map<Key, Memory>, scope: Scope, rows: seq<Row>) {
    && OfScope(rows, scope) && DistinctKeys(rows)
    && (forall i :: 0 <= i < |rows| ==> Holds(m, rows[i]))
    && (forall k :: k in m && k.scope == scope ==> exists i :: 0 <= i < |rows| && rows[i].key == k)
  }

  ghost predicate DistinctParsed(next: seq<Parsed>) {
    forall i, j :: 0 <= i < j < |next| ==> next[i].key != next[j].key
  }

  /** A compaction succeeds exactly when its list has no key twice. */
  lemma ApplyIff(s: Store, scope: Scope, replaced: seq<Row>, next: seq<Parsed>, now: nat)
    ensures Apply(s, scope, replaced, next, now).Some? <==> DistinctParsed(next)
  {
    var rows := Fresh(scope, next, now);
    InsertAllFacts(WithoutScope(s.memories, scope), rows);
    if DistinctParsed(next) {
      assert DistinctKeys(rows);
    }
    if DistinctKeys(rows) {
      forall i, j | 0 <= i < j < |next| ensures next[i].key != next[j].key {
        assert rows[i].key != rows[j].key;
      }
    }
  }

  /** What restoring archived rows of one scope leaves, whatever the memories are by then: that scope is
      as it was archived, every other scope as it is. */
  lemma RestoreGives(s: Store, id: nat, scope: Scope)
    requires RowsOf(s.archive, id) != [] && OfScope(RowsOf(s.archive, id), scope) && DistinctKeys(RowsOf(s.archive, id))
    ensures var r := Restore(s, id);
            && r.Some?
            && Lists(r.value.memories, scope, RowsOf(s.archive, id))
            && WithoutScope(r.value.memories, scope) == WithoutScope(s.memories, scope)
            && r.value.archive == WithoutCompaction(s.archive, id)
  {
    var rows := RowsOf(s.archive, id);
    var rest := WithoutScope(s.memories, scope);
    OneScope(s.memories, rows, scope);
    InsertAllFacts(rest, rows);
    var m := InsertAll(rest, rows).value;
    forall k | k in m && k.scope != scope ensures k in rest && m[k] == rest[k] {
    }
    assert WithoutScope(m, scope) == rest;
    forall k | k in m && k.scope == scope ensures exists i :: 0 <= i < |rows| && rows[i].key == k {
      assert k !in rest;
    }
  }

  /** Compaction then restore is the identity on memories and archive, unless the scope held nothing:
      then nothing was archived and there is no compaction to restore. */
  lemma RestoreUndoesApply(s: Store, scope: Scope, replaced: seq<Row>, next: seq<Parsed>, now: nat)
    requires Lists(s.memories, scope, replaced) && DistinctParsed(next)
    ensures var done := Apply(s, scope, replaced, next, now);
            && done.Some?
            && Restore(done.value.0, done.value.1) == if replaced == [] then None else Some(s)
  {
    ApplyIff(s, scope, replaced, next, now);
    var (mid, id) := Apply(s, scope, replaced, next, now).value;
    ArchiveAfterApply(s.archive, replaced, now);
    if replaced != [] {
      ApplyLeavesOthers(s, scope, replaced, next, now);
      RestoreGives(mid, id, scope);
      hide Apply;
      SameMemories(s.memories, Restore(mid, id).value.memories, scope, replaced);
    }
  }

  lemma ApplyLeavesOthers(s: Store, scope: Scope, replaced: seq<Row>, next: seq<Parsed>, now: nat)
    requires Apply(s, scope, replaced, next, now).Some?
    ensures WithoutScope(Apply(s, scope, replaced, next, now).value.0.memories, scope) == WithoutScope(s.memories, scope)
  {
    var m := Apply(s, scope, replaced, next, now).value.0.memories;
    InsertAllFacts(WithoutScope(s.memories, scope), Fresh(scope, next, now));
    forall k | k in m && k.scope != scope ensures k in s.memories && m[k] == s.memories[k] {
    }
  }

  /** After a compaction its scope holds the new memories and no others: each listed key with its text, no
      creator, and the time of the compaction. The rows it replaced are archived in order, under an id no
      earlier compaction in the archive has. */
  lemma ApplyStores(s: Store, scope: Scope, replaced: seq<Row>, next: seq<Parsed>, now: nat)
    requires Apply(s, scope, replaced, next, now).Some?
    ensures var (r, id) := Apply(s, scope, replaced, next, now).value;
            && (forall i :: 0 <= i < |next| ==>
                  var key := Key(scope, next[i].key);
                  && key in r.memories && r.memories[key].text == next[i].text && r.memories[key].creator == None
                  && r.memories[key].created == now && r.memories[key].updated == now)
            && (forall key :: key in r.memories && key.scope == scope ==> exists i :: 0 <= i < |next| && next[i].key == key.key)
            && |r.archive| == |s.archive| + |replaced| && r.archive[..|s.archive|] == s.archive
            && (forall i :: 0 <= i < |replaced| ==>
                  var a := r.archive[|s.archive| + i]; a.row == replaced[i] && a.at == now && a.compaction == id)
            && (forall i :: 0 <= i < |s.archive| ==> s.archive[i].compaction != id)
  {
    var rest, rows := WithoutScope(s.memories, scope), Fresh(scope, next, now);
    InsertAllFacts(rest, rows);
    var m := InsertAll(rest, rows).value;
    hide InsertAll;
    forall i | 0 <= i < |next| ensures Key(scope, next[i].key) in m
        && m[Key(scope, next[i].key)] == Memory(next[i].text, None, now, now) {
      assert Holds(m, rows[i]);
    }
    forall key | key in m && key.scope == scope ensures exists i :: 0 <= i < |next| && next[i].key == key.key {
      var i :| 0 <= i < |rows| && rows[i].key == key;
    }
  }

  lemma SameMemories(a: map<Key, Memory>, b: map<Key, Memory>, scope: Scope, rows: seq<Row>)
    requires Lists(a, scope, rows) && Lists(b, scope, rows) && WithoutScope(a, scope) == WithoutScope(b, scope)
    ensures a == b
  {
    forall k ensures (k in a <==> k in b) && (k in a ==> a[k] == b[k]) {
      if k.scope == scope {
        if k in a {
          var i :| 0 <= i < |rows| && rows[i].key == k;
          assert Holds(a, rows[i]) && Holds(b, rows[i]);
        }
      } else {
        assert k in a <==> k in WithoutScope(a, scope);
        assert k in b <==> k in WithoutScope(b, scope);
      }
    }
  }

  // ----- over whole runs -----

  /** A compaction as it was applied: its scope, its time and the rows it replaced. */
  datatype Record = Record(scope: Scope, at: nat, replaced: seq<Row>)

  /** The store, and for each id the compaction that took it last. */
  datatype History = History(store: Store, applied: map<nat, Record>)

  datatype Step =
    | DoRemember(key: Key, mem: Memory)
    | DoForget(key: Key)
    | DoApply(scope: Scope, replaced: seq<Row>, next: seq<Parsed>, now: nat)
    | DoRestore(id: nat)
    | DoCleanup(cutoff: nat)

  /** The rows a compaction replaces were read from its scope, perhaps long before; a failed
      transaction changes nothing. */
  ghost function Next(h: History, step: Step): History {
    var s := h.store;
    match step
    case DoRemember(key, mem) => h.(store := s.(memories := s.memories[key := mem]))
    case DoForget(key) => h.(store := s.(memories := s.memories - {key}))
    case DoApply(scope, replaced, next, now) =>
      (match if OfScope(replaced, scope) && DistinctKeys(replaced) then Apply(s, scope, replaced, next, now) else None
       case None => h
       case Some(done) => History(done.0, h.applied[done.1 := Record(scope, now, replaced)]))
    case DoRestore(id) =>
      (match Restore(s, id)
       case None => h
       case Some(r) => h.(store := r))
    case DoCleanup(cutoff) => h.(store := s.(archive := Cleanup(s.archive, cutoff)))
  }

  ghost function Run(steps: seq<Step>): History {
    if steps == [] then History(Store(map[], []), map[]) else Next(Run(steps[..|steps| - 1]), steps[|steps| - 1])
  }

  /** The archive holds all the rows of a compaction or none, under its scope and time. */
  ghost predicate Whole(h: History, id: nat) {
    RowsOf(h.store.archive, id) == []
    || (&& id in h.applied
        && RowsOf(h.store.archive, id) == h.applied[id].replaced
        && OfScope(h.applied[id].replaced, h.applied[id].scope) && DistinctKeys(h.applied[id].replaced)
        && forall i :: 0 <= i < |h.store.archive| && h.store.archive[i].compaction == id ==>
             h.store.archive[i].at == h.applied[id].at)
  }

  ghost predicate Inv(h: History) {
    forall id :: Whole(h, id)
  }

  /** A cleanup takes the rows of a compaction that is all of one age together, or leaves them. */
  lemma {:induction false} CleanupOf(a: seq<Archived>, id: nat, at: nat, cutoff: nat)
    requires forall i :: 0 <= i < |a| && a[i].compaction == id ==> a[i].at == at
    ensures RowsOf(Cleanup(a, cutoff), id) == if at >= cutoff then RowsOf(a, id) else []
    ensures forall i :: 0 <= i < |Cleanup(a, cutoff)| ==> Cleanup(a, cutoff)[i] in a
  {
    if a != [] {
      var n := |a| - 1;
      CleanupOf(a[..n], id, at, cutoff);
      ArchiveConcat(Cleanup(a[..n], cutoff), if a[n].at >= cutoff then [a[n]] else [], id);
      assert RowsOf([a[n]], id) == if a[n].compaction == id then [a[n].row] else [];
    }
  }

  /** A cleanup keeps exactly the rows archived since the cutoff, each as often as it is there, in order. */
  lemma CleanupKeeps(a: seq<Archived>, cutoff: nat)
    ensures forall row :: multiset(Cleanup(a, cutoff))[row] == if row.at >= cutoff then multiset(a)[row] else 0
    ensures Subsequence(Cleanup(a, cutoff), a)
  {
    hide Cleanup, Subsequence;
    forall row ensures multiset(Cleanup(a, cutoff))[row] == if row.at >= cutoff then multiset(a)[row] else 0 {
      KeptCount(a, cutoff, row);
    }
    KeptInOrder(a, cutoff);
  }

  lemma CleanupStep(a: seq<Archived>, cutoff: nat)
    requires a != []
    ensures var front, last := a[..|a| - 1], a[|a| - 1];
            a == front + [last] && Cleanup(a, cutoff) == Cleanup(front, cutoff) + if last.at >= cutoff then [last] else []
  {
  }

  lemma {:induction false} KeptCount(a: seq<Archived>, cutoff: nat, row: Archived)
    ensures multiset(Cleanup(a, cutoff))[row] == if row.at >= cutoff then multiset(a)[row] else 0
  {
    if a != [] {
      KeptCount(a[..|a| - 1], cutoff, row);
      CleanupStep(a, cutoff);
      hide Cleanup;
    }
  }

  lemma {:induction false} KeptInOrder(a: seq<Archived>, cutoff: nat)
    ensures Subsequence(Cleanup(a, cutoff), a)
  {
    if a != [] {
      var front, last := a[..|a| - 1], a[|a| - 1];
      KeptInOrder(front, cutoff);
      CleanupStep(a, cutoff);
      hide Cleanup, Subsequence;
      OneMore(Cleanup(front, cutoff), front, last);
      assert Cleanup(front, cutoff) + [] == Cleanup(front, cutoff);
    }
  }

  lemma {:induction false} OneMore(a: seq<Archived>, b: seq<Archived>, row: Archived)
    requires Subsequence(a, b)
    ensures Subsequence(a, b + [row]) && Subsequence(a + [row], b + [row])
    decreases |b|
  {
    if b != [] {
      assert (b + [row])[1..] == b[1..] + [row];
      if a == [] {
        OneMore([], b[1..], row);
      } else if Subsequence(a, b[1..]) {
        OneMore(a, b[1..], row);
      } else {
        assert (a + [row])[1..] == a[1..] + [row];
        OneMore(a[1..], b[1..], row);
      }
    }
  }

  lemma {:induction false} WithoutOther(a: seq<Archived>, id: nat, other: nat)
    ensures RowsOf(WithoutCompaction(a, other), id) == if id == other then [] else RowsOf(a, id)
    ensures forall i :: 0 <= i < |WithoutCompaction(a, other)| ==> WithoutCompaction(a, other)[i] in a
  {
    if a != [] {
      var n := |a| - 1;
      WithoutOther(a[..n], id, other);
      ArchiveConcat(WithoutCompaction(a[..n], other), if a[n].compaction != other then [a[n]] else [], id);
      assert RowsOf([a[n]], id) == if a[n].compaction == id then [a[n].row] else [];
    }
  }

  lemma ApplyWhole(h: History, scope: Scope, replaced: seq<Row>, next: seq<Parsed>, now: nat, id: nat)
    requires Inv(h)
    ensures Whole(Next(h, DoApply(scope, replaced, next, now)), id)
  {
    hide InsertAll, WithoutScope, Fresh, RowsOf, WithoutCompaction;
    var r := Next(h, DoApply(scope, replaced, next, now));
    var a, latest := h.store.archive, MaxCompaction(h.store.archive) + 1;
    assert Whole(h, id);
    if r != h {
      var b := Stamp(replaced, latest, now);
      assert r.store.archive == a + b;
      ArchiveConcat(a, b, id);
      if id == latest {
        ArchiveAfterApply(a, replaced, now);
      } else {
        NothingOf(b, id);
        assert RowsOf(a + b, id) == RowsOf(a, id) + [];
      }
    }
  }

  lemma StepWhole(h: History, step: Step, id: nat)
    requires Inv(h)
    ensures Whole(Next(h, step), id)
  {
    var a := h.store.archive;
    assert Whole(h, id);
    match step
    case DoRemember(key, mem) =>
    case DoForget(key) =>
    case DoApply(scope, replaced, next, now) => ApplyWhole(h, scope, replaced, next, now, id);
    case DoRestore(other) => WithoutOther(a, id, other);
    case DoCleanup(cutoff) =>
      if RowsOf(a, id) == [] {
        NoRowsNoneOf(a, id);
        CleanupOf(a, id, 0, cutoff);
      } else {
        CleanupOf(a, id, h.applied[id].at, cutoff);
      }
  }

  lemma {:induction false} NoRowsNoneOf(a: seq<Archived>, id: nat)
    requires RowsOf(a, id) == []
    ensures forall i :: 0 <= i < |a| ==> a[i].compaction != id
  {
    if a != [] {
      NoRowsNoneOf(a[..|a| - 1], id);
    }
  }

  lemma {:induction false} RunWhole(steps: seq<Step>)
    ensures Inv(Run(steps))
  {
    if steps != [] {
      RunWhole(steps[..|steps| - 1]);
      forall id ensures Whole(Run(steps), id) {
        StepWhole(Run(steps[..|steps| - 1]), steps[|steps| - 1], id);
      }
    }
  }

  /** In every run a compaction id that has rows in the archive belongs to one compaction, all of whose
      rows are there; so restoring it succeeds and is never partial: its scope then lists exactly the
      rows that compaction replaced, and other scopes are untouched. */
  lemma RestoreIsNeverPartial(steps: seq<Step>, id: nat)
    ensures var h := Run(steps);
            RowsOf(h.store.archive, id) != [] ==>
              && id in h.applied
              && var c := h.applied[id];
              && RowsOf(h.store.archive, id) == c.replaced
              && Restore(h.store, id).Some?
              && Lists(Restore(h.store, id).value.memories, c.scope, c.replaced)
              && WithoutScope(Restore(h.store, id).value.memories, c.scope) == WithoutScope(h.store.memories, c.scope)
  {
    RunWhole(steps);
    var h := Run(steps);
    assert Whole(h, id);
    if RowsOf(h.store.archive, id) != [] {
      RestoreGives(h.store, id, h.applied[id].scope);
    }
  }

  /** The cleanup removes the rows of a compaction all together or not at all. */
  lemma CleanupAllOrNothing(steps: seq<Step>, id: nat, cutoff: nat)
    ensures var a := Run(steps).store.archive;
            RowsOf(Cleanup(a, cutoff), id) == RowsOf(a, id) || RowsOf(Cleanup(a, cutoff), id) == []
  {
    RunWhole(steps);
    var h := Run(steps);
    assert Whole(h, id);
    if RowsOf(h.store.archive, id) == [] {
      NoRowsNoneOf(h.store.archive, id);
      CleanupOf(h.store.archive, id, 0, cutoff);
    } else {
      CleanupOf(h.store.archive, id, h.applied[id].at, cutoff);
    }
  }
}
