/**
 * The thread comparison of the rebuild audit: raw keys are grouped by thread, each group is printed
 * as its sorted keys joined by '|', and the two sets of printed groups are compared one way
 * together with the number of groups.
 */
module Threads {
  import opened Text

  datatype Entry = Entry(thread: string, key: string)

  type Groups = map<string, seq<string>>

  // ---------------------------------------------------------------- what the groups mean

  function Members(entries: seq<Entry>, thread: string): seq<string> {
    if entries == [] then []
    else
      (if entries[0].thread == thread then [entries[0].key] else []) + Members(entries[1..], thread)
  }

  function ThreadsOf(entries: seq<Entry>): set<string> {
    set e | e in entries :: e.thread
  }

  function Keys(members: seq<string>): set<string> {
    set k | k in members
  }

  /** The key sets of the given threads. */
  ghost function Blocks(entries: seq<Entry>, threads: set<string>): set<set<string>> {
    set t | t in threads :: Keys(Members(entries, t))
  }

  /** The partition of the raw keys into threads, thread names forgotten. */
  ghost function Partition(entries: seq<Entry>): set<set<string>> {
    Blocks(entries, ThreadsOf(entries))
  }

  ghost predicate KeysOnce(entries: seq<Entry>) {
    forall i, j | 0 <= i < j < |entries| :: entries[i].key != entries[j].key
  }

  ghost predicate BarFree(entries: seq<Entry>) {
    forall i | 0 <= i < |entries| :: '|' !in entries[i].key
  }

  function Shape(members: seq<string>): string {
    Join(Sort(members), '|')
  }

  ghost function Shapes(entries: seq<Entry>): set<string> {
    set t | t in ThreadsOf(entries) :: Shape(Members(entries, t))
  }

  // ---------------------------------------------------------------- the script's loops

  lemma {:induction false} MembersSnoc(entries: seq<Entry>, e: Entry, thread: string)
    ensures Members(entries + [e], thread) ==
            Members(entries, thread) + (if e.thread == thread then [e.key] else [])
  {
    if entries == [] {
      assert entries + [e] == [e];
    } else {
      assert (entries + [e])[1..] == entries[1..] + [e];
      MembersSnoc(entries[1..], e, thread);
    }
  }

  lemma {:induction false} MembersIn(entries: seq<Entry>, thread: string)
    ensures forall k :: k in Members(entries, thread) <==> Entry(thread, k) in entries
    ensures thread in ThreadsOf(entries) <==> Members(entries, thread) != []
  {
    if entries != [] {
      MembersIn(entries[1..], thread);
      assert entries == [entries[0]] + entries[1..];
      if Members(entries, thread) != [] {
        var k := Members(entries, thread)[0];
        assert k in Members(entries, thread);
      }
    }
  }

  ghost predicate GroupsOf(groups: Groups, entries: seq<Entry>) {
    && groups.Keys == ThreadsOf(entries)
    && forall t | t in groups :: groups[t] == Members(entries, t)
  }

  function Joined(groups: Groups, e: Entry): Groups {
    groups[e.thread := (if e.thread in groups then groups[e.thread] else []) + [e.key]]
  }

  lemma EntryGrouped(groups: Groups, entries: seq<Entry>, e: Entry)
    requires GroupsOf(groups, entries)
    ensures GroupsOf(Joined(groups, e), entries + [e])
  {
    var after := Joined(groups, e);
    MembersIn(entries, e.thread);
    assert ThreadsOf(entries + [e]) == ThreadsOf(entries) + {e.thread};
    forall t | t in after ensures after[t] == Members(entries + [e], t) {
      MembersSnoc(entries, e, t);
    }
  }

  method Groupings(entries: seq<Entry>) returns (groups: Groups)
    ensures groups.Keys == ThreadsOf(entries)
    ensures forall t | t in groups :: groups[t] == Members(entries, t)
  {
    groups := map[];
    for i := 0 to |entries|
      invariant GroupsOf(groups, entries[..i])
    {
      EntryGrouped(groups, entries[..i], entries[i]);
      assert entries[..i + 1] == entries[..i] + [entries[i]];
      groups := Joined(groups, entries[i]);
    }
    assert entries[..|entries|] == entries;
  }

  method CanonicalShapes(groups: Groups) returns (shapes: set<string>)
    ensures shapes == set t | t in groups :: Shape(groups[t])
  {
    shapes := {};
    var todo := groups.Keys;
    while todo != {}
      invariant todo <= groups.Keys
      invariant shapes == set t | t in groups && t !in todo :: Shape(groups[t])
    {
      var t :| t in todo;
      shapes := shapes + {Shape(groups[t])};
      todo := todo - {t};
    }
  }

  /** The shapes the rebuild has and the source had not, and whether the number of threads changed. */
  method Compare(before: seq<Entry>, after: seq<Entry>)
    returns (regrouped: set<string>, recounted: bool)
    ensures regrouped == Shapes(after) - Shapes(before)
    ensures recounted == (|ThreadsOf(before)| != |ThreadsOf(after)|)
  {
    var beforeGroups := Groupings(before);
    var afterGroups := Groupings(after);
    var beforeShapes := CanonicalShapes(beforeGroups);
    var afterShapes := CanonicalShapes(afterGroups);
    regrouped := set s | s in afterShapes && s !in beforeShapes;
    recounted := |beforeGroups.Keys| != |afterGroups.Keys|;
  }

  // ---------------------------------------------------------------- exactness

  lemma {:induction false} MembersOnce(entries: seq<Entry>, thread: string)
    requires KeysOnce(entries)
    ensures var m := Members(entries, thread); forall i, j | 0 <= i < j < |m| :: m[i] != m[j]
  {
    if entries != [] {
      MembersOnce(entries[1..], thread);
      MembersIn(entries[1..], thread);
      var rest := Members(entries[1..], thread);
      forall i | 0 <= i < |rest| ensures rest[i] != entries[0].key {
        assert rest[i] in rest;
        assert Entry(thread, rest[i]) in entries[1..];
      }
    }
  }

  lemma {:induction false} OnceIsSet(m: seq<string>)
    requires forall i, j | 0 <= i < j < |m| :: m[i] != m[j]
    ensures multiset(m) == multiset(Keys(m))
  {
    if m != [] {
      OnceIsSet(m[1..]);
      assert m == [m[0]] + m[1..];
      assert m[0] !in Keys(m[1..]);
      assert Keys(m) == Keys(m[1..]) + {m[0]};
    }
  }

  lemma SortPermutes(a: seq<string>)
    ensures Sorted(Sort(a)) && multiset(Sort(a)) == multiset(a) && |Sort(a)| == |a|
    ensures forall i | 0 <= i < |a| :: Sort(a)[i] in a
  {
    SortSorts(a);
    assert |multiset(a)| == |a| && |multiset(Sort(a))| == |Sort(a)|;
    forall i | 0 <= i < |a| ensures Sort(a)[i] in a {
      assert Sort(a)[i] in multiset(Sort(a));
    }
  }

  /** A printed group determines its keys, when none contains the separator. */
  lemma ShapeInjective(a: seq<string>, b: seq<string>)
    requires a != [] && b != []
    requires forall k | k in a || k in b :: '|' !in k
    ensures Shape(a) == Shape(b) <==> multiset(a) == multiset(b)
  {
    var sa, sb := Sort(a), Sort(b);
    SortPermutes(a);
    SortPermutes(b);
    if Join(sa, '|') == Join(sb, '|') {
      SplitJoin(sa, '|');
      SplitJoin(sb, '|');
      assert sa == sb;
    }
    if multiset(a) == multiset(b) { SortedUnique(sa, sb); }
  }

  lemma ShapeOfKeys(a: seq<Entry>, t: string, b: seq<Entry>, u: string)
    requires KeysOnce(a) && KeysOnce(b) && BarFree(a) && BarFree(b)
    requires t in ThreadsOf(a) && u in ThreadsOf(b)
    ensures Shape(Members(a, t)) == Shape(Members(b, u)) <==>
            Keys(Members(a, t)) == Keys(Members(b, u))
  {
    MembersIn(a, t);
    MembersIn(b, u);
    MembersOnce(a, t);
    MembersOnce(b, u);
    ShapeOfSets(Members(a, t), Members(b, u));
  }

  lemma ShapeOfSets(a: seq<string>, b: seq<string>)
    requires a != [] && b != [] && forall k | k in a || k in b :: '|' !in k
    requires forall i, j | 0 <= i < j < |a| :: a[i] != a[j]
    requires forall i, j | 0 <= i < j < |b| :: b[i] != b[j]
    ensures Shape(a) == Shape(b) <==> Keys(a) == Keys(b)
  {
    OnceIsSet(a);
    OnceIsSet(b);
    ShapeInjective(a, b);
    if multiset(Keys(a)) == multiset(Keys(b)) { SameSet(Keys(a), Keys(b)); }
  }

  lemma SameSet<T>(a: set<T>, b: set<T>)
    requires multiset(a) == multiset(b)
    ensures a == b
  {
    forall x ensures x in a <==> x in b { assert x in multiset(a) <==> x in multiset(b); }
  }

  lemma DistinctThreads(entries: seq<Entry>, t: string, u: string)
    requires KeysOnce(entries) && t in ThreadsOf(entries) && u in ThreadsOf(entries)
    requires Keys(Members(entries, t)) == Keys(Members(entries, u))
    ensures t == u
  {
    MembersIn(entries, t);
    MembersIn(entries, u);
    var k := Members(entries, t)[0];
    assert k in Keys(Members(entries, u));
    assert Entry(t, k) in entries && Entry(u, k) in entries;
  }

  /** As many groups as threads: no two threads hold the same keys. */
  lemma {:induction false} PartitionSize(entries: seq<Entry>, ts: set<string>)
    requires KeysOnce(entries) && ts <= ThreadsOf(entries)
    ensures |Blocks(entries, ts)| == |ts|
    decreases |ts|
  {
    if ts == {} {
      assert Blocks(entries, ts) == {};
    } else {
      var t :| t in ts;
      var rest := ts - {t};
      PartitionSize(entries, rest);
      var block := Keys(Members(entries, t));
      if block in Blocks(entries, rest) {
        var u :| u in rest && Keys(Members(entries, u)) == block;
        DistinctThreads(entries, t, u);
      }
      assert Blocks(entries, ts) == Blocks(entries, rest) + {block};
    }
  }

  lemma SubsetOfSameSize<T>(a: set<T>, b: set<T>)
    requires a <= b && |a| == |b|
    ensures a == b
  {
    assert b == a + (b - a);
    assert |b - a| == 0;
  }

  lemma NothingLeft<T>(a: set<T>, b: set<T>)
    ensures a - b == {} <==> a <= b
  {
    if a - b == {} {
      forall x | x in a ensures x in b { assert x !in a - b; }
    }
  }

  lemma ShapesFollowPartition(before: seq<Entry>, after: seq<Entry>)
    requires KeysOnce(before) && KeysOnce(after) && BarFree(before) && BarFree(after)
    ensures Shapes(after) <= Shapes(before) <==> Partition(after) <= Partition(before)
  {
    forall t, u | t in ThreadsOf(after) && u in ThreadsOf(before)
      ensures Shape(Members(after, t)) == Shape(Members(before, u)) <==>
              Keys(Members(after, t)) == Keys(Members(before, u))
    {
      ShapeOfKeys(after, t, before, u);
    }
    if Shapes(after) <= Shapes(before) {
      forall t | t in ThreadsOf(after) ensures Keys(Members(after, t)) in Partition(before) {
        assert Shape(Members(after, t)) in Shapes(before);
      }
    }
    if Partition(after) <= Partition(before) {
      forall t | t in ThreadsOf(after) ensures Shape(Members(after, t)) in Shapes(before) {
        assert Keys(Members(after, t)) in Partition(before);
      }
    }
  }

  /** The comparison is silent exactly when the rebuild groups the keys as the source did. */
  lemma SilentIffSamePartition(before: seq<Entry>, after: seq<Entry>)
    requires KeysOnce(before) && KeysOnce(after) && BarFree(before) && BarFree(after)
    ensures (Shapes(after) - Shapes(before) == {} && |ThreadsOf(before)| == |ThreadsOf(after)|)
            <==> Partition(before) == Partition(after)
  {
    ShapesFollowPartition(before, after);
    PartitionSize(before, ThreadsOf(before));
    PartitionSize(after, ThreadsOf(after));
    if Partition(after) <= Partition(before) && |ThreadsOf(before)| == |ThreadsOf(after)| {
      SubsetOfSameSize(Partition(after), Partition(before));
    }
    NothingLeft(Shapes(after), Shapes(before));
  }

  /** With the same keys on both sides the one-way comparison of shapes already decides it. */
  lemma CountIsImplied(before: seq<Entry>, after: seq<Entry>)
    requires KeysOnce(before) && KeysOnce(after) && BarFree(before) && BarFree(after)
    requires forall e | e in before :: exists t :: Entry(t, e.key) in after
    ensures Shapes(after) - Shapes(before) == {} <==> Partition(before) == Partition(after)
  {
    ShapesFollowPartition(before, after);
    NothingLeft(Shapes(after), Shapes(before));
    if Partition(after) <= Partition(before) {
      forall t | t in ThreadsOf(before) ensures Keys(Members(before, t)) in Partition(after) {
        BlockKept(before, after, t);
      }
    }
  }

  /** Two keys share a thread before exactly when they share one after. */
  ghost predicate GroupedAlike(before: seq<Entry>, after: seq<Entry>) {
    forall i, j, k, l | Matched(before, after, i, k) && Matched(before, after, j, l) ::
      before[i].thread == before[j].thread <==> after[k].thread == after[l].thread
  }

  /** The two entries are of one key. */
  ghost predicate Matched(before: seq<Entry>, after: seq<Entry>, i: int, k: int) {
    0 <= i < |before| && 0 <= k < |after| && before[i].key == after[k].key
  }

  ghost predicate SameKeys(before: seq<Entry>, after: seq<Entry>) {
    && (forall i | 0 <= i < |before| :: HasKey(after, before[i].key))
    && (forall k | 0 <= k < |after| :: HasKey(before, after[k].key))
  }

  ghost predicate HasKey(entries: seq<Entry>, key: string) {
    exists i :: 0 <= i < |entries| && entries[i].key == key
  }

  lemma AlikeBlock(before: seq<Entry>, after: seq<Entry>, i: int, k: int)
    requires KeysOnce(before) && KeysOnce(after) && SameKeys(before, after) && GroupedAlike(before, after)
    requires Matched(before, after, i, k)
    ensures Keys(Members(before, before[i].thread)) <= Keys(Members(after, after[k].thread))
  {
    MembersIn(before, before[i].thread);
    MembersIn(after, after[k].thread);
    forall x | x in Keys(Members(before, before[i].thread)) ensures x in Keys(Members(after, after[k].thread)) {
      var j :| 0 <= j < |before| && before[j] == Entry(before[i].thread, x);
      var l := Counterpart(before, after, j);
      assert after[l] == Entry(after[k].thread, x);
    }
  }

  lemma Counterpart(before: seq<Entry>, after: seq<Entry>, i: int) returns (k: int)
    requires SameKeys(before, after) && 0 <= i < |before|
    ensures Matched(before, after, i, k)
  {
    assert HasKey(after, before[i].key);
    k :| 0 <= k < |after| && after[k].key == before[i].key;
  }

  lemma AlikeFlip(before: seq<Entry>, after: seq<Entry>)
    requires GroupedAlike(before, after)
    ensures GroupedAlike(after, before)
  {
    forall i, j, k, l | Matched(after, before, k, i) && Matched(after, before, l, j)
      ensures after[k].thread == after[l].thread <==> before[i].thread == before[j].thread
    {
      assert Matched(before, after, i, k) && Matched(before, after, j, l);
    }
  }

  lemma EntryBlock(entries: seq<Entry>, i: int)
    requires 0 <= i < |entries|
    ensures Keys(Members(entries, entries[i].thread)) in Partition(entries)
    ensures entries[i].key in Keys(Members(entries, entries[i].thread))
  {
    assert entries[i] in entries;
    MembersIn(entries, entries[i].thread);
  }

  lemma AlikeEqual(before: seq<Entry>, after: seq<Entry>, i: int, k: int)
    requires KeysOnce(before) && KeysOnce(after) && SameKeys(before, after) && GroupedAlike(before, after)
    requires Matched(before, after, i, k)
    ensures Keys(Members(before, before[i].thread)) == Keys(Members(after, after[k].thread))
  {
    AlikeBlock(before, after, i, k);
    AlikeFlip(before, after);
    AlikeBlock(after, before, k, i);
  }

  lemma AlikeKept(before: seq<Entry>, after: seq<Entry>, i: int)
    requires KeysOnce(before) && KeysOnce(after) && SameKeys(before, after) && GroupedAlike(before, after)
    requires 0 <= i < |before|
    ensures Keys(Members(before, before[i].thread)) in Partition(after)
  {
    var k := Counterpart(before, after, i);
    AlikeEqual(before, after, i, k);
    EntryBlock(after, k);
  }

  lemma AlikeBlocks(before: seq<Entry>, after: seq<Entry>)
    requires KeysOnce(before) && KeysOnce(after) && SameKeys(before, after) && GroupedAlike(before, after)
    ensures Partition(before) <= Partition(after)
  {
    forall t | t in ThreadsOf(before) ensures Keys(Members(before, t)) in Partition(after) {
      var i :| 0 <= i < |before| && before[i].thread == t;
      AlikeKept(before, after, i);
    }
  }

  lemma SharedBlock(entries: seq<Entry>, block: set<string>, i: int, j: int)
    requires KeysOnce(entries) && block in Partition(entries)
    requires 0 <= i < |entries| && 0 <= j < |entries| && entries[i].key in block
    ensures entries[i].thread == entries[j].thread <==> entries[j].key in block
  {
    var t :| t in ThreadsOf(entries) && Keys(Members(entries, t)) == block;
    MembersIn(entries, t);
    assert Entry(t, entries[i].key) in entries;
    if entries[j].key in block { assert Entry(t, entries[j].key) in entries; }
    if entries[i].thread == entries[j].thread { assert entries[j] in entries; }
  }

  /** Equal partitions of the same keys, said of the entries two by two. */
  lemma PartitionByPairs(before: seq<Entry>, after: seq<Entry>)
    requires KeysOnce(before) && KeysOnce(after) && SameKeys(before, after)
    ensures Partition(before) == Partition(after) <==> GroupedAlike(before, after)
  {
    if Partition(before) == Partition(after) {
      forall i, j, k, l | Matched(before, after, i, k) && Matched(before, after, j, l)
        ensures before[i].thread == before[j].thread <==> after[k].thread == after[l].thread
      {
        var block := Keys(Members(before, before[i].thread));
        EntryBlock(before, i);
        SharedBlock(before, block, i, j);
        SharedBlock(after, block, k, l);
      }
    }
    if GroupedAlike(before, after) {
      AlikeBlocks(before, after);
      AlikeFlip(before, after);
      AlikeBlocks(after, before);
    }
  }

  lemma OneThread(entries: seq<Entry>, k: string, t: string, u: string)
    requires KeysOnce(entries) && Entry(t, k) in entries && Entry(u, k) in entries
    ensures t == u
  {}

  lemma BlockKept(before: seq<Entry>, after: seq<Entry>, t: string)
    requires KeysOnce(before) && Partition(after) <= Partition(before) && t in ThreadsOf(before)
    requires forall e | e in before :: exists t :: Entry(t, e.key) in after
    ensures Keys(Members(before, t)) in Partition(after)
  {
    MembersIn(before, t);
    var k := Members(before, t)[0];
    assert Entry(t, k) in before;
    var u :| Entry(u, k) in after;
    var block := Keys(Members(after, u));
    assert k in block && block in Partition(after) by { MembersIn(after, u); }
    assert block in Partition(before);
    var v :| v in ThreadsOf(before) && Keys(Members(before, v)) == block;
    assert Entry(v, k) in before by { MembersIn(before, v); }
    OneThread(before, k, t, v);
  }

  // ---------------------------------------------------------------- why the keys must be bar-free

  /** First letters climb through the list. */
  predicate InOrder(m: seq<string>) {
    forall i, j | 0 <= i < j < |m| :: m[i] != "" && m[j] != "" && m[i][0] < m[j][0]
  }

  /** A list in order prints as it stands. */
  lemma ShapeInOrder(m: seq<string>)
    requires InOrder(m)
    ensures Shape(m) == Join(m, '|')
  {
    assert Sorted(m);
    SortPermutes(m);
    SortedUnique(Sort(m), m);
  }

  function Grouped(thread: string, keys: seq<string>): seq<Entry> {
    seq(|keys|, i requires 0 <= i < |keys| => Entry(thread, keys[i]))
  }

  lemma {:induction false} MembersOfTwo(t: string, a: seq<string>, u: string, b: seq<string>)
    requires t != u && a != [] && b != []
    ensures var e := Grouped(t, a) + Grouped(u, b);
            ThreadsOf(e) == {t, u} && Members(e, t) == a && Members(e, u) == b
  {
    var e := Grouped(t, a) + Grouped(u, b);
    assert e[0] == Entry(t, a[0]) && e[|a|] == Entry(u, b[0]);
    MembersRuns(t, a, u, b);
  }

  lemma {:induction false} MembersRuns(t: string, a: seq<string>, u: string, b: seq<string>)
    requires t != u
    ensures var e := Grouped(t, a) + Grouped(u, b);
            Members(e, t) == a && Members(e, u) == b
    decreases |a| + |b|
  {
    var e := Grouped(t, a) + Grouped(u, b);
    if a != [] {
      assert e[1..] == Grouped(t, a[1..]) + Grouped(u, b);
      MembersRuns(t, a[1..], u, b);
      assert a == [a[0]] + a[1..];
    } else if b != [] {
      assert e[0] == Entry(u, b[0]);
      assert e[1..] == Grouped(t, []) + Grouped(u, b[1..]);
      MembersRuns(t, [], u, b[1..]);
      assert b == [b[0]] + b[1..];
    }
  }

  lemma ShapesOf(e: seq<Entry>, t: string, u: string, shape: string)
    requires ThreadsOf(e) == {t, u} && Shape(Members(e, t)) == shape && Shape(Members(e, u)) == shape
    ensures Shapes(e) == {shape}
  {}

  lemma BlocksOf(e: seq<Entry>, t: string, u: string)
    requires t != u && ThreadsOf(e) == {t, u}
    ensures |ThreadsOf(e)| == 2 && Partition(e) == {Keys(Members(e, t)), Keys(Members(e, u))}
  {}

  lemma ShapesOfTwo(t: string, x: seq<string>, u: string, y: seq<string>, shape: string)
    requires t != u && x != [] && y != [] && InOrder(x) && InOrder(y)
    requires Join(x, '|') == shape && Join(y, '|') == shape
    ensures var e := Grouped(t, x) + Grouped(u, y);
            Shapes(e) == {shape} && |ThreadsOf(e)| == 2 && Partition(e) == {Keys(x), Keys(y)}
  {
    var e := Grouped(t, x) + Grouped(u, y);
    MembersOfTwo(t, x, u, y);
    ShapeInOrder(x);
    ShapeInOrder(y);
    ShapesOf(e, t, u, shape);
    BlocksOf(e, t, u);
  }

  /** Two threads, each printed as 1|2|3|4. */
  lemma TwoAlike(x: seq<string>, y: seq<string>)
    requires x in Tilings() && y in Tilings()
    ensures var e := Grouped("x", x) + Grouped("y", y);
            && Shapes(e) == {"1|2|3|4"} && |ThreadsOf(e)| == 2
            && Partition(e) == {Keys(x), Keys(y)}
  {
    JoinsAlike(x);
    JoinsAlike(y);
    TilingsInOrder(x);
    TilingsInOrder(y);
    ShapesOfTwo("x", x, "y", y, "1|2|3|4");
  }

  lemma TilingsInOrder(m: seq<string>)
    requires m in Tilings()
    ensures InOrder(m) && m != []
  {}

  function Tilings(): set<seq<string>> {
    {["1", "2", "3", "4"], ["1|2", "3|4"], ["1", "2", "3|4"], ["1|2", "3", "4"]}
  }

  lemma JoinsAlike(m: seq<string>)
    requires m in Tilings()
    ensures Join(m, '|') == "1|2|3|4"
  {
    assert Join(["4"], '|') == "4" && Join(["3|4"], '|') == "3|4";
    assert ["3", "4"][1..] == ["4"] && ["1|2", "3|4"][1..] == ["3|4"] && ["2", "3|4"][1..] == ["3|4"];
    assert Join(["3", "4"], '|') == "3|4";
    assert ["2", "3", "4"][1..] == ["3", "4"] && ["1|2", "3", "4"][1..] == ["3", "4"];
    assert Join(["2", "3", "4"], '|') == "2|3|4" && Join(["2", "3|4"], '|') == "2|3|4";
    assert ["1", "2", "3", "4"][1..] == ["2", "3", "4"] && ["1", "2", "3|4"][1..] == ["2", "3|4"];
  }

  function KeyList(entries: seq<Entry>): seq<string> {
    seq(|entries|, i requires 0 <= i < |entries| => entries[i].key)
  }

  lemma KeyListOfTwo(x: seq<string>, y: seq<string>)
    requires InOrder(x) && InOrder(y) && Keys(x) !! Keys(y)
    ensures var e := Grouped("x", x) + Grouped("y", y); KeyList(e) == x + y && KeysOnce(e)
  {
    var e := Grouped("x", x) + Grouped("y", y);
    assert KeyList(e) == x + y;
    forall i, j | 0 <= i < j < |e| ensures e[i].key != e[j].key {
      if i < |x| <= j { assert x[i] in Keys(x) && y[j - |x|] in Keys(y); }
    }
  }

  lemma SwapTails(l1: seq<string>, r1: seq<string>, l2: seq<string>, r2: seq<string>)
    ensures multiset((l1 + r1) + (l2 + r2)) == multiset((l1 + r2) + (l2 + r1))
  {}

  lemma RegroupedAlike(l1: seq<string>, r1: seq<string>, l2: seq<string>, r2: seq<string>)
    returns (before: seq<Entry>, after: seq<Entry>)
    requires {l1 + r1, l2 + r2, l1 + r2, l2 + r1} <= Tilings()
    requires Keys(l1 + r1) !! Keys(l2 + r2) && Keys(l1 + r2) !! Keys(l2 + r1)
    requires Keys(l1 + r2) !in {Keys(l1 + r1), Keys(l2 + r2)}
    ensures KeysOnce(before) && KeysOnce(after)
    ensures multiset(KeyList(before)) == multiset(KeyList(after))
    ensures Shapes(after) == Shapes(before) && |ThreadsOf(before)| == |ThreadsOf(after)|
    ensures Partition(before) != Partition(after)
  {
    before := Grouped("x", l1 + r1) + Grouped("y", l2 + r2);
    after := Grouped("x", l1 + r2) + Grouped("y", l2 + r1);
    TwoAlike(l1 + r1, l2 + r2);
    TwoAlike(l1 + r2, l2 + r1);
    TilingsInOrder(l1 + r1);
    TilingsInOrder(l2 + r2);
    TilingsInOrder(l1 + r2);
    TilingsInOrder(l2 + r1);
    KeyListOfTwo(l1 + r1, l2 + r2);
    KeyListOfTwo(l1 + r2, l2 + r1);
    SwapTails(l1, r1, l2, r2);
    assert Keys(l1 + r2) in Partition(after) && Keys(l1 + r2) !in Partition(before);
  }

  /** The same keys, regrouped, and the comparison is silent: a key contains the separator. */
  lemma BarHidesRegrouping() returns (before: seq<Entry>, after: seq<Entry>)
    ensures KeysOnce(before) && KeysOnce(after)
    ensures multiset(KeyList(before)) == multiset(KeyList(after))
    ensures Shapes(after) == Shapes(before) && |ThreadsOf(before)| == |ThreadsOf(after)|
    ensures Partition(before) != Partition(after)
  {
    var l1, r1, l2, r2 := ["1", "2"], ["3", "4"], ["1|2"], ["3|4"];
    DifferentBlocks();
    assert l1 + r1 == ["1", "2", "3", "4"] && l2 + r2 == ["1|2", "3|4"];
    assert l1 + r2 == ["1", "2", "3|4"] && l2 + r1 == ["1|2", "3", "4"];
    before, after := RegroupedAlike(l1, r1, l2, r2);
  }

  lemma DifferentBlocks()
    ensures Keys(["1", "2", "3|4"]) != Keys(["1", "2", "3", "4"])
    ensures Keys(["1", "2", "3|4"]) != Keys(["1|2", "3|4"])
    ensures Keys(["1", "2", "3", "4"]) !! Keys(["1|2", "3|4"])
    ensures Keys(["1", "2", "3|4"]) !! Keys(["1|2", "3", "4"])
  {
    assert "3|4" in Keys(["1", "2", "3|4"]) && "3|4" !in Keys(["1", "2", "3", "4"]);
    assert "1" in Keys(["1", "2", "3|4"]) && "1" !in Keys(["1|2", "3|4"]);
  }
}
