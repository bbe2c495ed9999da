// grok-mobile-belmont-pwa/src/entries.ts: transcript entries and their reconciliation.

module Entries {
  import opened Common

  const MATCH_WINDOW_MS := 300_000

  datatype Role = User | Assistant
  datatype Kind = Text | AgentActivity | Approval | LocalPermission | Widget | Attachment

  /** One transcript entry. An absent or empty client nonce is "" (the source tests it for truth);
      `content` stands for whatever else the entry of its kind carries. */
  datatype Message = Message(
    id: string,
    kind: Kind,
    role: Role,
    timestampMs: int,
    content: string,
    replyToId: Option<string>,
    optimistic: bool,
    clientNonce: string)

  predicate IsOptimistic(m: Message) {
    m.kind.Text? && m.optimistic
  }

  predicate IsConfirmed(m: Message) {
    m.kind.Text? && m.role.User? && !m.optimistic
  }

  function Distance(a: int, b: int): nat {
    if a < b then b - a else a - b
  }

  /** The confirmed entry `other` is the desktop's copy of the optimistic `entry`. */
  predicate Retires(other: Message, entry: Message) {
    || (entry.clientNonce != "" && other.clientNonce == entry.clientNonce)
    || (&& (entry.clientNonce == "" || other.clientNonce == "")
        && entry.replyToId == other.replyToId
        && other.content == entry.content
        && Distance(other.timestampMs, entry.timestampMs) <= MATCH_WINDOW_MS)
  }

  // ----- the steps of reconcileEntries -----

  /** Map.set: an existing key keeps its place and takes the new value. */
  function Put(table: seq<Message>, m: Message): seq<Message> {
    if table == [] then [m]
    else if table[0].id == m.id then [m] + table[1..]
    else [table[0]] + Put(table[1..], m)
  }

  function Unique(entries: seq<Message>): seq<Message> {
    if entries == [] then []
    else Put(Unique(entries[..|entries| - 1]), entries[|entries| - 1])
  }

  predicate Survives(unique: seq<Message>, m: Message) {
    IsOptimistic(m) ==> !exists other | other in unique :: IsConfirmed(other) && Retires(other, m)
  }

  function KeepSurvivors(unique: seq<Message>, entries: seq<Message>): seq<Message> {
    if entries == [] then []
    else
      var kept := KeepSurvivors(unique, entries[..|entries| - 1]);
      var last := entries[|entries| - 1];
      if Survives(unique, last) then kept + [last] else kept
  }

  /** Insertion after every entry that is not later: the stable order of Array.sort. */
  function Insert(sorted: seq<Message>, m: Message): seq<Message> {
    if sorted == [] || sorted[|sorted| - 1].timestampMs <= m.timestampMs then sorted + [m]
    else Insert(sorted[..|sorted| - 1], m) + [sorted[|sorted| - 1]]
  }

  function StableSort(entries: seq<Message>): seq<Message> {
    if entries == [] then []
    else Insert(StableSort(entries[..|entries| - 1]), entries[|entries| - 1])
  }

  function Reconcile(entries: seq<Message>): seq<Message> {
    var unique := Unique(entries);
    StableSort(KeepSurvivors(unique, unique))
  }

  // ----- what the result is, without the steps -----

  function Ids(entries: seq<Message>): set<string> {
    set m | m in entries :: m.id
  }

  /** Ids of the entries that came from the server. */
  function KnownIds(entries: seq<Message>): set<string> {
    set m | m in entries && !IsOptimistic(m) :: m.id
  }

  ghost predicate LastCopy(entries: seq<Message>, m: Message) {
    exists k :: 0 <= k < |entries| && entries[k] == m && forall j :: k < j < |entries| ==> entries[j].id != m.id
  }

  function FirstIndex(entries: seq<Message>, id: string): nat {
    if entries == [] then 0
    else
      var before := FirstIndex(entries[..|entries| - 1], id);
      if before < |entries| - 1 then before
      else if entries[|entries| - 1].id == id then |entries| - 1
      else |entries|
  }

  /** The only entries that stay: the last copy under each id, minus optimistic entries whose
      confirmed copy is there too. */
  ghost predicate Stays(entries: seq<Message>, m: Message) {
    && LastCopy(entries, m)
    && (IsOptimistic(m) ==> !exists other :: LastCopy(entries, other) && IsConfirmed(other) && Retires(other, m))
  }

  /** Earlier in time, or at the same time and first seen earlier. */
  predicate Earlier(entries: seq<Message>, a: Message, b: Message) {
    || a.timestampMs < b.timestampMs
    || (a.timestampMs == b.timestampMs && FirstIndex(entries, a.id) < FirstIndex(entries, b.id))
  }

  ghost predicate InOrder(entries: seq<Message>, s: seq<Message>) {
    forall i, j :: 0 <= i < j < |s| ==> Earlier(entries, s[i], s[j])
  }

  ghost predicate IsReconciled(entries: seq<Message>, r: seq<Message>) {
    && InOrder(entries, r)
    && forall m :: m in r <==> Stays(entries, m)
  }

  // ----- proofs -----

  lemma {:induction false} FirstIndexMeaning(entries: seq<Message>, id: string)
    ensures FirstIndex(entries, id) <= |entries|
    ensures FirstIndex(entries, id) < |entries| ==> entries[FirstIndex(entries, id)].id == id
    ensures forall k :: 0 <= k < FirstIndex(entries, id) ==> entries[k].id != id
  {
    if entries != [] {
      FirstIndexMeaning(entries[..|entries| - 1], id);
    }
  }

  lemma {:induction false} PutMeaning(table: seq<Message>, m: Message)
    requires forall i, j :: 0 <= i < j < |table| ==> table[i].id != table[j].id
    ensures m.id in Ids(table) ==> |Put(table, m)| == |table|
    ensures m.id !in Ids(table) ==> |Put(table, m)| == |table| + 1 && Put(table, m)[|table|] == m
    ensures forall k :: 0 <= k < |table| ==>
              Put(table, m)[k] == if table[k].id == m.id then m else table[k]
  {
    if table != [] {
      assert table == [table[0]] + table[1..];
      assert Ids(table) == {table[0].id} + Ids(table[1..]);
      if table[0].id != m.id {
        PutMeaning(table[1..], m);
        forall k | 0 <= k < |table|
          ensures Put(table, m)[k] == if table[k].id == m.id then m else table[k]
        {
          if k > 0 { assert table[k] == table[1..][k - 1]; }
        }
      }
    }
  }

  /** `table` lists each id of `entries` once, in order of first appearance, with its last copy. */
  ghost predicate ListsOnce(entries: seq<Message>, table: seq<Message>) {
    && (forall m :: m in table <==> LastCopy(entries, m))
    && (forall m :: m in table ==> FirstIndex(entries, m.id) < |entries|)
    && ByFirstIndex(entries, table)
  }

  ghost predicate ByFirstIndex(entries: seq<Message>, s: seq<Message>) {
    forall i, j :: 0 <= i < j < |s| ==> FirstIndex(entries, s[i].id) < FirstIndex(entries, s[j].id)
  }

  lemma {:induction false} UniqueMeaning(entries: seq<Message>)
    ensures ListsOnce(entries, Unique(entries))
  {
    if entries != [] {
      var init, m := entries[..|entries| - 1], entries[|entries| - 1];
      UniqueMeaning(init);
      assert entries == init + [m];
      PutListsOnce(init, Unique(init), m);
    }
  }

  lemma PutListsOnce(init: seq<Message>, table: seq<Message>, m: Message)
    requires ListsOnce(init, table)
    ensures ListsOnce(init + [m], Put(table, m))
  {
    var entries, u := init + [m], Put(table, m);
    PutMeaning(table, m);
    LastCopyStep(init, m);
    assert entries[..|entries| - 1] == init;
    assert m.id in Ids(table) <==> FirstIndex(init, m.id) < |init| by {
      if FirstIndex(init, m.id) < |init| {
        var c := LastCopyExists(init, m.id);
        assert c in table;
      }
    }
    forall k | 0 <= k < |u|
      ensures LastCopy(entries, u[k])
      ensures FirstIndex(entries, u[k].id) < |entries|
      ensures k < |table| ==> FirstIndex(entries, u[k].id) == FirstIndex(init, table[k].id)
      ensures k == |table| ==> FirstIndex(entries, u[k].id) == |init|
    {
      if k < |table| {
        assert table[k] in table;
        FirstIndexMeaning(init, table[k].id);
      } else {
        FirstIndexMeaning(init, m.id);
      }
    }
    forall x | LastCopy(entries, x) ensures x in u {
      if x == m {
        if m.id in Ids(table) {
          var k :| 0 <= k < |table| && table[k].id == m.id;
          assert u[k] == m;
        }
      } else {
        var k :| 0 <= k < |table| && table[k] == x;
        assert u[k] == x;
      }
    }
  }

  lemma LastCopyStep(init: seq<Message>, m: Message)
    ensures forall x :: LastCopy(init + [m], x) <==> x == m || (x.id != m.id && LastCopy(init, x))
  {
    var entries := init + [m];
    forall x ensures LastCopy(entries, x) <==> x == m || (x.id != m.id && LastCopy(init, x)) {
      if x == m { assert entries[|init|] == m; }
      if LastCopy(entries, x) && x != m {
        var k :| 0 <= k < |entries| && entries[k] == x && forall j :: k < j < |entries| ==> entries[j].id != x.id;
        assert entries[|init|].id != x.id;
        assert init[k] == x;
        assert forall j :: k < j < |init| ==> init[j] == entries[j];
      }
      if x.id != m.id && LastCopy(init, x) {
        var k :| 0 <= k < |init| && init[k] == x && forall j :: k < j < |init| ==> init[j].id != x.id;
        assert entries[k] == x;
      }
    }
  }

  lemma {:induction false} LastCopyExists(entries: seq<Message>, id: string) returns (m: Message)
    requires id in Ids(entries) || FirstIndex(entries, id) < |entries|
    ensures m.id == id && LastCopy(entries, m) && m in entries
  {
    var init, last := entries[..|entries| - 1], entries[|entries| - 1];
    assert entries == init + [last];
    LastCopyStep(init, last);
    if last.id == id {
      m := last;
    } else {
      m := LastCopyExists(init, id);
    }
  }

  lemma {:induction false} KeepMeaning(unique: seq<Message>, entries: seq<Message>)
    ensures forall m :: m in KeepSurvivors(unique, entries) <==> m in entries && Survives(unique, m)
  {
    if entries != [] {
      KeepMeaning(unique, entries[..|entries| - 1]);
      assert entries == entries[..|entries| - 1] + [entries[|entries| - 1]];
    }
  }

  lemma {:induction false} KeepOrder(entries: seq<Message>, unique: seq<Message>, s: seq<Message>)
    requires ByFirstIndex(entries, s)
    ensures ByFirstIndex(entries, KeepSurvivors(unique, s))
  {
    if s != [] {
      var init := s[..|s| - 1];
      KeepOrder(entries, unique, init);
      KeepMeaning(unique, init);
      var kept := KeepSurvivors(unique, init);
      forall i | 0 <= i < |kept| ensures FirstIndex(entries, kept[i].id) < FirstIndex(entries, s[|s| - 1].id) {
        assert kept[i] in init;
      }
    }
  }

  lemma AppendInOrder(entries: seq<Message>, s: seq<Message>, m: Message)
    requires InOrder(entries, s)
    requires forall k :: 0 <= k < |s| ==> Earlier(entries, s[k], m)
    ensures InOrder(entries, s + [m])
  {
  }

  lemma {:induction false} InsertMeaning(entries: seq<Message>, sorted: seq<Message>, m: Message)
    requires InOrder(entries, sorted)
    requires forall x :: x in sorted ==> FirstIndex(entries, x.id) < FirstIndex(entries, m.id)
    ensures InOrder(entries, Insert(sorted, m))
    ensures forall x :: x in Insert(sorted, m) <==> x in sorted || x == m
  {
    if sorted == [] || sorted[|sorted| - 1].timestampMs <= m.timestampMs {
      forall k | 0 <= k < |sorted| ensures Earlier(entries, sorted[k], m) {
        assert sorted[k] in sorted;
        assert k < |sorted| - 1 ==> Earlier(entries, sorted[k], sorted[|sorted| - 1]);
      }
      AppendInOrder(entries, sorted, m);
    } else {
      var init, last := sorted[..|sorted| - 1], sorted[|sorted| - 1];
      assert sorted == init + [last];
      InsertMeaning(entries, init, m);
      var r := Insert(init, m);
      forall k | 0 <= k < |r| ensures Earlier(entries, r[k], last) {
        assert r[k] in r;
        if r[k] != m {
          var j :| 0 <= j < |init| && init[j] == r[k];
          assert Earlier(entries, sorted[j], sorted[|sorted| - 1]);
        }
      }
      AppendInOrder(entries, r, last);
    }
  }

  lemma {:induction false} SortMeaning(entries: seq<Message>, s: seq<Message>)
    requires ByFirstIndex(entries, s)
    ensures InOrder(entries, StableSort(s))
    ensures forall x :: x in StableSort(s) <==> x in s
  {
    if s != [] {
      var init, last := s[..|s| - 1], s[|s| - 1];
      SortMeaning(entries, init);
      assert s == init + [last];
      InsertMeaning(entries, StableSort(init), last);
    }
  }

  /** What reconcileEntries returns: exactly the entries that stay, sorted by time and, at one
      time, by first appearance. */
  lemma ReconcileMeaning(entries: seq<Message>)
    ensures IsReconciled(entries, Reconcile(entries))
  {
    var unique := Unique(entries);
    UniqueMeaning(entries);
    KeepMeaning(unique, unique);
    KeepOrder(entries, unique, unique);
    SortMeaning(entries, KeepSurvivors(unique, unique));
    forall m ensures m in Reconcile(entries) <==> Stays(entries, m) {
      assert Survives(unique, m) <==>
        (IsOptimistic(m) ==> !exists other :: LastCopy(entries, other) && IsConfirmed(other) && Retires(other, m));
    }
  }

  lemma HeadIsFirst(entries: seq<Message>, s: seq<Message>, m: Message)
    requires InOrder(entries, s) && m in s
    ensures m == s[0] || Earlier(entries, s[0], m)
  {
    var k :| 0 <= k < |s| && s[k] == m;
    assert k > 0 ==> Earlier(entries, s[0], s[k]);
  }

  lemma {:induction false} OrderDetermines(entries: seq<Message>, a: seq<Message>, b: seq<Message>)
    requires InOrder(entries, a) && InOrder(entries, b)
    requires forall m :: m in a <==> m in b
    ensures a == b
  {
    if a == [] {
      assert forall k :: 0 <= k < |b| ==> b[k] in b;
    } else {
      assert a[0] in b;
      assert b[0] in a;
      HeadIsFirst(entries, a, b[0]);
      HeadIsFirst(entries, b, a[0]);
      NotRepeated(entries, a);
      NotRepeated(entries, b);
      assert a == [a[0]] + a[1..] && b == [b[0]] + b[1..];
      forall m ensures m in a[1..] <==> m in b[1..] {
        assert m in a <==> m == a[0] || m in a[1..];
        assert m in b <==> m == b[0] || m in b[1..];
      }
      OrderDetermines(entries, a[1..], b[1..]);
    }
  }

  lemma NotRepeated(entries: seq<Message>, s: seq<Message>)
    requires InOrder(entries, s) && s != []
    ensures s[0] !in s[1..]
  {
    forall k | 0 <= k < |s[1..]| ensures s[1..][k] != s[0] {
      assert Earlier(entries, s[0], s[k + 1]);
    }
  }

  /** The description leaves no freedom: any sequence that satisfies it is the result. */
  lemma ReconcileIsTheOnlyOne(entries: seq<Message>, r: seq<Message>)
    requires IsReconciled(entries, r)
    ensures r == Reconcile(entries)
  {
    ReconcileMeaning(entries);
    OrderDetermines(entries, r, Reconcile(entries));
  }

  /** No id appears twice and times never fall. */
  lemma DistinctIds(entries: seq<Message>, i: nat, j: nat)
    requires i < j < |Reconcile(entries)|
    ensures Reconcile(entries)[i].id != Reconcile(entries)[j].id
    ensures Reconcile(entries)[i].timestampMs <= Reconcile(entries)[j].timestampMs
  {
    ReconcileMeaning(entries);
    var a, b := Reconcile(entries)[i], Reconcile(entries)[j];
    assert Stays(entries, a) && Stays(entries, b);
    assert Earlier(entries, a, b);
    OneLastCopy(entries, a, b);
  }

  lemma OneLastCopy(entries: seq<Message>, a: Message, b: Message)
    requires LastCopy(entries, a) && LastCopy(entries, b)
    ensures a.id == b.id ==> a == b
  {
  }

  /** Reconciling again changes nothing. */
  lemma ReconcileIdempotent(entries: seq<Message>)
    ensures Reconcile(Reconcile(entries)) == Reconcile(entries)
  {
    var r := Reconcile(entries);
    ReconcileMeaning(entries);
    forall i, j | 0 <= i < j < |r| ensures r[i].id != r[j].id && r[i].timestampMs <= r[j].timestampMs {
      DistinctIds(entries, i, j);
    }
    forall m ensures m in r <==> LastCopy(r, m) {
      if m in r {
        var k :| 0 <= k < |r| && r[k] == m;
        assert forall j :: k < j < |r| ==> r[j].id != r[k].id;
      }
    }
    forall m | m in r ensures Stays(r, m) {
      assert Stays(entries, m);
      forall other | LastCopy(r, other) ensures LastCopy(entries, other) {
        assert Stays(entries, other);
      }
    }
    forall i, j | 0 <= i < j < |r| ensures Earlier(r, r[i], r[j]) {
      FirstIndexMeaning(r, r[i].id);
      FirstIndexMeaning(r, r[j].id);
    }
    ReconcileIsTheOnlyOne(r, r);
  }

  /** Ids that only locally echoed entries use; the server never gives them out. */
  predicate LocalId(id: string) {
    "optimistic-" <= id
  }

  /** Only local echoes are optimistic, and only they have local ids. */
  ghost predicate Hygienic(entries: seq<Message>) {
    forall m :: m in entries ==> (IsOptimistic(m) <==> LocalId(m.id))
  }

  /** Reconciliation never loses a server entry, and invents none. */
  lemma ReconcileKeepsKnown(entries: seq<Message>)
    requires Hygienic(entries)
    ensures Hygienic(Reconcile(entries))
    ensures KnownIds(Reconcile(entries)) == KnownIds(entries)
  {
    var r := Reconcile(entries);
    ReconcileMeaning(entries);
    forall m | m in r ensures m in entries {
      assert LastCopy(entries, m);
    }
    forall id | id in KnownIds(entries) ensures id in KnownIds(r) {
      var m := LastCopyExists(entries, id);
      assert Stays(entries, m);
      assert m in r && !IsOptimistic(m);
    }
  }

  /** A local echo is shown until the desktop's copy of the message is: if both carry a nonce it has to be
      the same one, whatever the texts; otherwise the texts and what they reply to have to be the same,
      within five minutes either way. */
  lemma EchoShowsUntilConfirmed(entries: seq<Message>, m: Message)
    requires LastCopy(entries, m) && m.kind.Text? && m.optimistic
    ensures m !in Reconcile(entries) <==>
              exists other ::
                && other in Reconcile(entries) && other.kind.Text? && other.role.User? && !other.optimistic
                && if m.clientNonce != "" && other.clientNonce != "" then other.clientNonce == m.clientNonce
                   else && other.content == m.content && other.replyToId == m.replyToId
                        && m.timestampMs - 5 * 60 * 1000 <= other.timestampMs <= m.timestampMs + 5 * 60 * 1000
  {
    ReconcileMeaning(entries);
    if m !in Reconcile(entries) {
      var other :| LastCopy(entries, other) && IsConfirmed(other) && Retires(other, m);
      assert Stays(entries, other);
    }
    forall other | other in Reconcile(entries) && IsConfirmed(other) && Retires(other, m) ensures !Stays(entries, m) {
      assert Stays(entries, other);
    }
  }

  /** Of two echoes of one text, sent under two nonces, the desktop's copy of the first takes away the first
      and leaves the second, however close in time they are. */
  lemma SameTextTwice(entries: seq<Message>, first: Message, second: Message, copy: Message)
    requires LastCopy(entries, first) && LastCopy(entries, second) && LastCopy(entries, copy)
    requires first.kind.Text? && first.optimistic && second == first.(id := second.id, clientNonce := second.clientNonce)
    requires copy.kind.Text? && copy.role.User? && !copy.optimistic && copy.clientNonce == first.clientNonce != ""
    requires second.clientNonce !in {"", first.clientNonce}
    requires forall m | LastCopy(entries, m) && m.kind.Text? && m.role.User? && !m.optimistic :: m == copy
    ensures first !in Reconcile(entries) && second in Reconcile(entries) && copy in Reconcile(entries)
  {
    ReconcileMeaning(entries);
    EchoShowsUntilConfirmed(entries, first);
    EchoShowsUntilConfirmed(entries, second);
    assert Stays(entries, copy);
    assert forall m :: m in Reconcile(entries) ==> Stays(entries, m);
  }
}
