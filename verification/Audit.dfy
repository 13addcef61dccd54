/**
 * scripts/verify-mailbox-rebuild.ts: whether a rebuilt mailbox holds what it is supposed to hold.
 * The script's loops are proved to find exactly the findings that a declarative account calls for,
 * and that account is proved sound and complete for a correct rebuild.
 */
module Audit {
  import T = Threads

  // ---------------------------------------------------------------- what the script reads

  /** A `message_index` row of the source database. */
  datatype Row = Row(id: string, thread: string, state: string, labels: string, rawKey: string, sha: string)

  /** A message the Durable Object reports. */
  datatype Stored = Stored(
    id: string, thread: string, state: string, rawKey: string, sha: string, parsed: bool)

  /** What the target index says of a message. */
  datatype Placement = Placement(state: string, labels: string)

  datatype Search = SearchSkipped | Searched(missed: seq<string>)

  datatype Inputs = Inputs(
    rows: seq<Row>, r2: set<string>, messages: seq<Stored>, reported: int,
    target: map<string, Placement>, expectLost: seq<string>)

  datatype Finding =
    | TwoRows(rawKey: string, firstId: string, id: string)
    | HashDiffers(rawKey: string, rebuilt: string, indexed: string)
    | Unparsed(rawKey: string)
    | Missing(id: string, rawKey: string)
    | Doubled(rawKey: string, ids: seq<string>)
    | Unindexed(id: string)
    | NotRestored(id: string, now: Placement, was: Placement)
    | StateDiffers(id: string, doState: string, oldState: string)
    | LostButPresent(id: string)
    | LostUnexplained(id: string, state: string, rawKey: string)
    | PinNotLost(id: string)
    | LostNotPinned(id: string)
    | Unaccounted(id: string, rawKey: string)
    | RowsUnclassified(classified: int, kept: int)
    | CountDiffers(reported: int, returned: int)
    | CountNotRebuildable(reported: int, rebuildable: int)
    | Regrouped(shape: string)
    | ThreadsRecounted(before: int, after: int)

  predicate IsWarning(f: Finding) {
    f.TwoRows? || f.StateDiffers? || f.Regrouped? || f.ThreadsRecounted?
  }

  predicate Clean(found: seq<Finding>) {
    forall i | 0 <= i < |found| :: IsWarning(found[i])
  }

  datatype Verdict = Passed | Failed | Incomplete

  // ---------------------------------------------------------------- what it should find

  predicate Listed(rows: seq<Row>, rawKey: string) {
    exists i | 0 <= i < |rows| :: rows[i].rawKey == rawKey
  }

  predicate First(rows: seq<Row>, i: int) {
    0 <= i < |rows| && !Listed(rows[..i], rows[i].rawKey)
  }

  /** The first row of each raw key, in order. */
  function Kept(rows: seq<Row>): seq<Row> {
    if rows == [] then []
    else
      var n := |rows| - 1;
      Kept(rows[..n]) + (if First(rows, n) then [rows[n]] else [])
  }

  /** The rows whose raw object the Worker can see. */
  function Rebuildable(rows: seq<Row>, r2: set<string>): seq<Row> {
    if rows == [] then []
    else
      var n := |rows| - 1;
      Rebuildable(rows[..n], r2) + (if rows[n].rawKey in r2 then [rows[n]] else [])
  }

  function Lost(rows: seq<Row>, r2: set<string>): seq<Row> {
    if rows == [] then []
    else
      var n := |rows| - 1;
      Lost(rows[..n], r2) + (if rows[n].rawKey in r2 then [] else [rows[n]])
  }

  predicate Outbound(row: Row) {
    row.state == "sent" || "sent/" <= row.rawKey
  }

  /** The reported messages stored from a raw key, in order. */
  function Holders(messages: seq<Stored>, rawKey: string): seq<Stored> {
    if messages == [] then []
    else
      var n := |messages| - 1;
      Holders(messages[..n], rawKey) + (if messages[n].rawKey == rawKey then [messages[n]] else [])
  }

  function Ids(messages: seq<Stored>): seq<string> {
    seq(|messages|, i requires 0 <= i < |messages| => messages[i].id)
  }

  /** Among the first n rows, a later one with the raw key of a first one. */
  ghost predicate DuplicateFinding(rows: seq<Row>, n: int, f: Finding) {
    exists i, j | 0 <= i < j < n <= |rows| ::
      First(rows, i) && rows[j].rawKey == rows[i].rawKey
      && f == TwoRows(rows[i].rawKey, rows[i].id, rows[j].id)
  }

  predicate PresenceFinding(row: Row, holders: seq<Stored>, f: Finding) {
    match f
    case Missing(id, rawKey) => id == row.id && rawKey == row.rawKey && holders == []
    case Doubled(rawKey, ids) => rawKey == row.rawKey && |holders| >= 2 && ids == Ids(holders)
    case HashDiffers(rawKey, rebuilt, indexed) =>
      rawKey == row.rawKey && |holders| == 1 && rebuilt == holders[0].sha && indexed == row.sha
      && rebuilt != indexed
    case Unparsed(rawKey) => rawKey == row.rawKey && |holders| == 1 && !holders[0].parsed
    case _ => false
  }

  predicate RestoreFinding(row: Row, holders: seq<Stored>, target: map<string, Placement>, f: Finding) {
    |holders| == 1 &&
    var m := holders[0];
    match f
    case Unindexed(id) => id == m.id && id !in target
    case NotRestored(id, now, was) =>
      id == m.id && id in target && now == target[id] && was == Placement(row.state, row.labels)
      && now != was
    case StateDiffers(id, now, was) =>
      id == m.id && id in target && now == m.state && was == row.state && now != was
    case _ => false
  }

  predicate LostFinding(row: Row, holders: seq<Stored>, f: Finding) {
    match f
    case LostButPresent(id) => id == row.id && holders != []
    case LostUnexplained(id, state, rawKey) =>
      id == row.id && state == row.state && rawKey == row.rawKey && !Outbound(row)
    case _ => false
  }

  ghost predicate PinFinding(lost: seq<Row>, expectLost: seq<string>, f: Finding) {
    expectLost != [] &&
    match f
    case PinNotLost(id) => id in expectLost && forall i | 0 <= i < |lost| :: lost[i].id != id
    case LostNotPinned(id) => id !in expectLost && exists i | 0 <= i < |lost| :: lost[i].id == id
    case _ => false
  }

  predicate CountFinding(kept: int, rebuildable: int, lost: int, reported: int, returned: int, f: Finding) {
    match f
    case RowsUnclassified(a, b) => a == rebuildable + lost && b == kept && a != b
    case CountDiffers(a, b) => a == reported && b == returned && a != b
    case CountNotRebuildable(a, b) => a == reported && b == rebuildable && a != b
    case _ => false
  }

  function RowEntries(rows: seq<Row>): seq<T.Entry> {
    seq(|rows|, i requires 0 <= i < |rows| => T.Entry(rows[i].thread, rows[i].rawKey))
  }

  function MessageEntries(messages: seq<Stored>): seq<T.Entry> {
    seq(|messages|, i requires 0 <= i < |messages| => T.Entry(messages[i].thread, messages[i].rawKey))
  }

  ghost predicate ThreadFinding(before: seq<T.Entry>, after: seq<T.Entry>, f: Finding) {
    match f
    case Regrouped(shape) => shape in T.Shapes(after) && shape !in T.Shapes(before)
    case ThreadsRecounted(a, b) =>
      a == |T.ThreadsOf(before)| && b == |T.ThreadsOf(after)| && a != b
    case _ => false
  }

  /** What is wrong with some classified row. */
  ghost predicate RowFinding(q: Inputs, rebuildable: seq<Row>, lost: seq<Row>, f: Finding) {
    || (exists r | r in rebuildable :: PresenceFinding(r, Holders(q.messages, r.rawKey), f))
    || (exists r | r in rebuildable :: RestoreFinding(r, Holders(q.messages, r.rawKey), q.target, f))
    || (exists r | r in lost :: LostFinding(r, Holders(q.messages, r.rawKey), f))
  }

  /** What is wrong with the mailbox as a whole. */
  ghost predicate WholeFinding(q: Inputs, kept: seq<Row>, rebuildable: seq<Row>, lost: seq<Row>,
                               f: Finding)
  {
    || PinFinding(lost, q.expectLost, f)
    || (exists m | m in q.messages :: !Listed(kept, m.rawKey) && f == Unaccounted(m.id, m.rawKey))
    || CountFinding(|kept|, |rebuildable|, |lost|, q.reported, |q.messages|, f)
    || ThreadFinding(RowEntries(rebuildable), MessageEntries(q.messages), f)
  }

  /** The findings these inputs call for, each with its reason. */
  ghost predicate Justified(q: Inputs, f: Finding) {
    var kept := Kept(q.rows);
    var rebuildable, lost := Rebuildable(kept, q.r2), Lost(kept, q.r2);
    || DuplicateFinding(q.rows, |q.rows|, f)
    || RowFinding(q, rebuildable, lost, f)
    || WholeFinding(q, kept, rebuildable, lost, f)
  }

  // ---------------------------------------------------------------- facts about the specification

  lemma KeptGrows(rows: seq<Row>, r: Row)
    requires rows != []
    requires var before := rows[..|rows| - 1];
             (forall i | 0 <= i < |before| :: First(rows, i) <==> First(before, i))
             && (r in Kept(before) <==> exists i :: First(before, i) && before[i] == r)
    ensures r in Kept(rows) <==> exists i :: First(rows, i) && rows[i] == r
  {
    var n := |rows| - 1;
    if i :| First(rows, i) && rows[i] == r && i < n { assert First(rows[..n], i); }
    if r in Kept(rows[..n]) {
      var i :| First(rows[..n], i) && rows[..n][i] == r;
      assert First(rows, i);
    }
  }

  lemma {:induction false} KeptFirsts(rows: seq<Row>)
    ensures forall r :: r in Kept(rows) <==> exists i :: First(rows, i) && rows[i] == r
  {
    if rows != [] {
      var n := |rows| - 1;
      KeptFirsts(rows[..n]);
      forall i | 0 <= i < n ensures First(rows, i) <==> First(rows[..n], i) {
        assert rows[..n][..i] == rows[..i];
      }
      forall r ensures r in Kept(rows) <==> exists i :: First(rows, i) && rows[i] == r {
        KeptGrows(rows, r);
      }
    }
  }

  lemma {:induction false} KeptCovers(rows: seq<Row>)
    ensures forall k :: Listed(Kept(rows), k) <==> Listed(rows, k)
    ensures forall i, j | 0 <= i < j < |Kept(rows)| :: Kept(rows)[i].rawKey != Kept(rows)[j].rawKey
  {
    if rows != [] {
      var n := |rows| - 1;
      var before := rows[..n];
      KeptCovers(before);
      ListedSnoc(before, rows[n]);
      ListedSnoc(Kept(before), rows[n]);
      assert rows == before + [rows[n]];
      assert Kept(rows) == if First(rows, n) then Kept(before) + [rows[n]] else Kept(before);
      forall k ensures Listed(Kept(rows), k) <==> Listed(rows, k) {
        assert Listed(before + [rows[n]], k) <==> Listed(before, k) || k == rows[n].rawKey;
        if !First(rows, n) { assert Listed(before, rows[n].rawKey); }
      }
      if First(rows, n) {
        forall i | 0 <= i < |Kept(before)| ensures Kept(before)[i].rawKey != rows[n].rawKey {
          assert !Listed(Kept(before), rows[n].rawKey);
        }
      }
    }
  }

  lemma ListedSnoc(rows: seq<Row>, r: Row)
    ensures forall k :: Listed(rows + [r], k) <==> Listed(rows, k) || k == r.rawKey
  {
    var all := rows + [r];
    forall k ensures Listed(all, k) <==> Listed(rows, k) || k == r.rawKey {
      if Listed(rows, k) {
        var i :| 0 <= i < |rows| && rows[i].rawKey == k;
        assert all[i].rawKey == k;
      }
      assert all[|rows|] == r;
    }
  }

  /** Nothing is dropped when no raw key repeats. */
  lemma {:induction false} KeptAll(rows: seq<Row>)
    requires forall i, j | 0 <= i < j < |rows| :: rows[i].rawKey != rows[j].rawKey
    ensures Kept(rows) == rows
  {
    if rows != [] {
      var n := |rows| - 1;
      KeptAll(rows[..n]);
      assert First(rows, n);
    }
  }

  lemma {:induction false} SplitRows(rows: seq<Row>, r2: set<string>)
    ensures forall r :: r in Rebuildable(rows, r2) <==> r in rows && r.rawKey in r2
    ensures forall r :: r in Lost(rows, r2) <==> r in rows && r.rawKey !in r2
    ensures |Rebuildable(rows, r2)| + |Lost(rows, r2)| == |rows|
  {
    if rows != [] {
      var n := |rows| - 1;
      SplitRows(rows[..n], r2);
      assert rows == rows[..n] + [rows[n]];
    }
  }

  lemma {:induction false} RebuildableOnce(rows: seq<Row>, r2: set<string>)
    requires forall i, j | 0 <= i < j < |rows| :: rows[i].rawKey != rows[j].rawKey
    ensures forall i, j | 0 <= i < j < |Rebuildable(rows, r2)| ::
              Rebuildable(rows, r2)[i].rawKey != Rebuildable(rows, r2)[j].rawKey
  {
    if rows != [] {
      var n := |rows| - 1;
      RebuildableOnce(rows[..n], r2);
      SplitRows(rows[..n], r2);
      var s := Rebuildable(rows[..n], r2);
      forall i | 0 <= i < |s| ensures s[i].rawKey != rows[n].rawKey { assert s[i] in s; }
    }
  }

  lemma {:induction false} HoldersIn(messages: seq<Stored>, rawKey: string)
    ensures forall m :: m in Holders(messages, rawKey) <==> m in messages && m.rawKey == rawKey
  {
    if messages != [] {
      var n := |messages| - 1;
      HoldersIn(messages[..n], rawKey);
      assert messages == messages[..n] + [messages[n]];
    }
  }

  predicate OnlyAt(messages: seq<Stored>, rawKey: string, i: int) {
    0 <= i < |messages| && forall j | 0 <= j < |messages| :: messages[j].rawKey == rawKey <==> j == i
  }

  lemma {:induction false} NoHolder(messages: seq<Stored>, rawKey: string)
    requires forall j | 0 <= j < |messages| :: messages[j].rawKey != rawKey
    ensures Holders(messages, rawKey) == []
  {
    if messages != [] { NoHolder(messages[..|messages| - 1], rawKey); }
  }

  lemma {:induction false} SoleHolder(messages: seq<Stored>, rawKey: string, i: int)
    requires OnlyAt(messages, rawKey, i)
    ensures Holders(messages, rawKey) == [messages[i]]
  {
    var n := |messages| - 1;
    var before := messages[..n];
    if i < n {
      assert OnlyAt(before, rawKey, i);
      SoleHolder(before, rawKey, i);
    } else {
      NoHolder(before, rawKey);
    }
  }

  /** One holder: the key occurs at exactly one position. */
  lemma {:induction false} HolderPlace(messages: seq<Stored>, rawKey: string) returns (i: int)
    requires |Holders(messages, rawKey)| == 1
    ensures OnlyAt(messages, rawKey, i)
  {
    var n := |messages| - 1;
    var before := messages[..n];
    if messages[n].rawKey == rawKey {
      HoldersIn(before, rawKey);
      forall j | 0 <= j < n ensures messages[j].rawKey != rawKey { assert before[j] in before; }
      i := n;
    } else {
      i := HolderPlace(before, rawKey);
    }
  }

  // ---------------------------------------------------------------- the script's loops

  /** The rows already seen, by raw key. */
  ghost predicate SeenOf(seen: map<string, Row>, rows: seq<Row>, n: int)
    requires 0 <= n <= |rows|
  {
    && (forall k :: k in seen <==> Listed(rows[..n], k))
    && (forall k | k in seen :: exists i | 0 <= i < n ::
          First(rows, i) && rows[i] == seen[k] && seen[k].rawKey == k)
  }

  lemma FirstUnique(rows: seq<Row>, i: int, j: int)
    requires First(rows, i) && First(rows, j) && rows[i].rawKey == rows[j].rawKey
    ensures i == j
  {
    assert forall k | 0 <= k < j :: rows[..j][k] == rows[k];
    assert forall k | 0 <= k < i :: rows[..i][k] == rows[k];
  }

  lemma NextSeen(seen: map<string, Row>, rows: seq<Row>, n: int)
    requires 0 <= n < |rows| && SeenOf(seen, rows, n)
    ensures First(rows, n) <==> rows[n].rawKey !in seen
    ensures rows[n].rawKey !in seen ==> SeenOf(seen[rows[n].rawKey := rows[n]], rows, n + 1)
    ensures rows[n].rawKey in seen ==> SeenOf(seen, rows, n + 1)
  {
    assert rows[..n + 1] == rows[..n] + [rows[n]];
    ListedSnoc(rows[..n], rows[n]);
  }

  lemma SeenFirst(seen: map<string, Row>, rows: seq<Row>, n: int, k: string)
    requires 0 <= n < |rows| && SeenOf(seen, rows, n) && k in seen
    ensures exists i :: 0 <= i < n && First(rows, i) && rows[i] == seen[k] && seen[k].rawKey == k
    ensures forall j | First(rows, j) && rows[j].rawKey == k :: j < n && rows[j] == seen[k]
  {
    var i :| 0 <= i < n && First(rows, i) && rows[i] == seen[k] && seen[k].rawKey == k;
    forall j | First(rows, j) && rows[j].rawKey == k ensures j == i { FirstUnique(rows, i, j); }
  }

  lemma NextDuplicate(seen: map<string, Row>, rows: seq<Row>, n: int, f: Finding)
    requires 0 <= n < |rows| && SeenOf(seen, rows, n)
    ensures DuplicateFinding(rows, n + 1, f) <==>
              DuplicateFinding(rows, n, f)
              || (rows[n].rawKey in seen
                  && f == TwoRows(rows[n].rawKey, seen[rows[n].rawKey].id, rows[n].id))
  {
    var k := rows[n].rawKey;
    if k in seen {
      SeenFirst(seen, rows, n, k);
    } else {
      forall i | 0 <= i < n ensures rows[i].rawKey != k {
        assert rows[..n][i] == rows[i];
      }
    }
  }

  method Deduplicate(rows: seq<Row>) returns (kept: seq<Row>, found: seq<Finding>)
    ensures kept == Kept(rows)
    ensures forall f :: f in found <==> DuplicateFinding(rows, |rows|, f)
  {
    kept, found := [], [];
    var seen: map<string, Row> := map[];
    for i := 0 to |rows|
      invariant kept == Kept(rows[..i]) && SeenOf(seen, rows, i)
      invariant forall f :: f in found <==> DuplicateFinding(rows, i, f)
    {
      var row := rows[i];
      NextSeen(seen, rows, i);
      forall f { NextDuplicate(seen, rows, i, f); }
      assert rows[..i + 1][..i] == rows[..i] && First(rows[..i + 1], i) == First(rows, i) by {
        assert rows[..i + 1][..i] == rows[..i];
      }
      if row.rawKey in seen {
        found := found + [TwoRows(row.rawKey, seen[row.rawKey].id, row.id)];
      } else {
        seen := seen[row.rawKey := row];
        kept := kept + [row];
      }
    }
    assert rows[..|rows|] == rows;
  }

  method Classify(rows: seq<Row>, r2: set<string>) returns (rebuildable: seq<Row>, lost: seq<Row>)
    ensures rebuildable == Rebuildable(rows, r2) && lost == Lost(rows, r2)
  {
    rebuildable, lost := [], [];
    for i := 0 to |rows|
      invariant rebuildable == Rebuildable(rows[..i], r2) && lost == Lost(rows[..i], r2)
    {
      assert rows[..i + 1][..i] == rows[..i];
      if rows[i].rawKey in r2 {
        rebuildable := rebuildable + [rows[i]];
      } else {
        lost := lost + [rows[i]];
      }
    }
    assert rows[..|rows|] == rows;
  }

  type Buckets = map<string, seq<Stored>>

  function Lookup(buckets: Buckets, rawKey: string): seq<Stored> {
    if rawKey in buckets then buckets[rawKey] else []
  }

  ghost predicate BucketsOf(buckets: Buckets, messages: seq<Stored>) {
    forall k :: Lookup(buckets, k) == Holders(messages, k)
  }

  lemma NextBucket(buckets: Buckets, messages: seq<Stored>, m: Stored)
    requires BucketsOf(buckets, messages)
    ensures BucketsOf(buckets[m.rawKey := Lookup(buckets, m.rawKey) + [m]], messages + [m])
  {
    var after := buckets[m.rawKey := Lookup(buckets, m.rawKey) + [m]];
    forall k ensures Lookup(after, k) == Holders(messages + [m], k) {
      assert (messages + [m])[..|messages|] == messages;
      assert Lookup(buckets, k) == Holders(messages, k);
    }
  }

  method Bucket(messages: seq<Stored>) returns (buckets: Buckets)
    ensures BucketsOf(buckets, messages)
  {
    buckets := map[];
    for i := 0 to |messages|
      invariant BucketsOf(buckets, messages[..i])
    {
      NextBucket(buckets, messages[..i], messages[i]);
      assert messages[..i + 1] == messages[..i] + [messages[i]];
      buckets := buckets[messages[i].rawKey := Lookup(buckets, messages[i].rawKey) + [messages[i]]];
    }
    assert messages[..|messages|] == messages;
  }

  /** The messages found for exactly one of the rows each. */
  ghost predicate PresentOf(present: map<string, Stored>, rows: seq<Row>, buckets: Buckets) {
    && (forall k :: k in present <==> Listed(rows, k) && |Lookup(buckets, k)| == 1)
    && (forall k | k in present :: Lookup(buckets, k) == [present[k]])
  }

  method CheckPresence(rows: seq<Row>, buckets: Buckets)
    returns (present: map<string, Stored>, found: seq<Finding>)
    ensures PresentOf(present, rows, buckets)
    ensures forall f :: f in found <==>
              exists r | r in rows :: PresenceFinding(r, Lookup(buckets, r.rawKey), f)
  {
    present, found := map[], [];
    for i := 0 to |rows|
      invariant PresentOf(present, rows[..i], buckets)
      invariant forall f :: f in found <==>
                  exists r | r in rows[..i] :: PresenceFinding(r, Lookup(buckets, r.rawKey), f)
    {
      var row := rows[i];
      var matches := Lookup(buckets, row.rawKey);
      var one := PresenceOf(row, matches);
      if |matches| == 1 { present := present[row.rawKey := matches[0]]; }
      ListedSnoc(rows[..i], row);
      assert rows[..i + 1] == rows[..i] + [row];
      found := found + one;
    }
    assert rows[..|rows|] == rows;
  }

  method PresenceOf(row: Row, matches: seq<Stored>) returns (found: seq<Finding>)
    ensures forall f :: f in found <==> PresenceFinding(row, matches, f)
  {
    found := [];
    if |matches| == 1 {
      if matches[0].sha != row.sha {
        found := found + [HashDiffers(row.rawKey, matches[0].sha, row.sha)];
      }
      if !matches[0].parsed { found := found + [Unparsed(row.rawKey)]; }
    } else if matches == [] {
      found := [Missing(row.id, row.rawKey)];
    } else {
      found := [Doubled(row.rawKey, Ids(matches))];
    }
  }

  method RestoreOf(row: Row, m: Stored, target: map<string, Placement>) returns (found: seq<Finding>)
    ensures forall f :: f in found <==> RestoreFinding(row, [m], target, f)
  {
    found := [];
    if m.id !in target {
      found := [Unindexed(m.id)];
      return;
    }
    var indexed := target[m.id];
    if indexed.state != row.state || indexed.labels != row.labels {
      found := found + [NotRestored(m.id, indexed, Placement(row.state, row.labels))];
    }
    if m.state != row.state { found := found + [StateDiffers(m.id, m.state, row.state)]; }
  }

  method CheckRestored(rows: seq<Row>, present: map<string, Stored>, buckets: Buckets,
                       target: map<string, Placement>)
    returns (found: seq<Finding>)
    requires PresentOf(present, rows, buckets)
    ensures forall f :: f in found <==>
              exists r | r in rows :: RestoreFinding(r, Lookup(buckets, r.rawKey), target, f)
  {
    found := [];
    for i := 0 to |rows|
      invariant forall f :: f in found <==>
                  exists r | r in rows[..i] :: RestoreFinding(r, Lookup(buckets, r.rawKey), target, f)
    {
      assert rows[..i + 1] == rows[..i] + [rows[i]];
      assert Listed(rows, rows[i].rawKey);
      if rows[i].rawKey in present {
        var one := RestoreOf(rows[i], present[rows[i].rawKey], target);
        found := found + one;
      }
    }
    assert rows[..|rows|] == rows;
  }

  method CheckLost(rows: seq<Row>, buckets: Buckets) returns (found: seq<Finding>)
    ensures forall f :: f in found <==>
              exists r | r in rows :: LostFinding(r, Lookup(buckets, r.rawKey), f)
  {
    found := [];
    for i := 0 to |rows|
      invariant forall f :: f in found <==>
                  exists r | r in rows[..i] :: LostFinding(r, Lookup(buckets, r.rawKey), f)
    {
      var row := rows[i];
      assert rows[..i + 1] == rows[..i] + [row];
      if Lookup(buckets, row.rawKey) != [] { found := found + [LostButPresent(row.id)]; }
      if !Outbound(row) { found := found + [LostUnexplained(row.id, row.state, row.rawKey)]; }
    }
    assert rows[..|rows|] == rows;
  }

  method CheckPins(lost: seq<Row>, expectLost: seq<string>) returns (found: seq<Finding>)
    ensures forall f :: f in found <==> PinFinding(lost, expectLost, f)
  {
    found := [];
    if expectLost == [] { return; }
    var derived := set r | r in lost :: r.id;
    for i := 0 to |expectLost|
      invariant forall f :: f in found <==>
                  f.PinNotLost? && f.id in expectLost[..i] && f.id !in derived
    {
      if expectLost[i] !in derived { found := found + [PinNotLost(expectLost[i])]; }
    }
    var todo := derived;
    while todo != {}
      invariant todo <= derived
      invariant forall f :: f in found <==>
                  || (f.PinNotLost? && f.id in expectLost && f.id !in derived)
                  || (f.LostNotPinned? && f.id in derived - todo && f.id !in expectLost)
    {
      var id :| id in todo;
      todo := todo - {id};
      if id !in expectLost { found := found + [LostNotPinned(id)]; }
    }
  }

  method CheckAccounted(messages: seq<Stored>, accounted: set<string>) returns (found: seq<Finding>)
    ensures forall f :: f in found <==>
              exists m | m in messages :: m.rawKey !in accounted && f == Unaccounted(m.id, m.rawKey)
  {
    found := [];
    for i := 0 to |messages|
      invariant forall f :: f in found <==> exists m | m in messages[..i] ::
                  m.rawKey !in accounted && f == Unaccounted(m.id, m.rawKey)
    {
      var m := messages[i];
      assert messages[..i + 1] == messages[..i] + [m];
      if m.rawKey !in accounted { found := found + [Unaccounted(m.id, m.rawKey)]; }
    }
    assert messages[..|messages|] == messages;
  }

  method CheckCounts(kept: int, rebuildable: int, lost: int, reported: int, returned: int)
    returns (found: seq<Finding>)
    ensures forall f :: f in found <==>
              CountFinding(kept, rebuildable, lost, reported, returned, f)
  {
    found := [];
    if rebuildable + lost != kept {
      found := found + [RowsUnclassified(rebuildable + lost, kept)];
    }
    if reported != returned { found := found + [CountDiffers(reported, returned)]; }
    if reported != rebuildable { found := found + [CountNotRebuildable(reported, rebuildable)]; }
  }

  method CheckThreads(before: seq<T.Entry>, after: seq<T.Entry>) returns (found: seq<Finding>)
    ensures forall f :: f in found <==> ThreadFinding(before, after, f)
  {
    found := [];
    var regrouped, recounted := T.Compare(before, after);
    var todo := regrouped;
    while todo != {}
      invariant todo <= regrouped
      invariant forall f :: f in found <==> f.Regrouped? && f.shape in regrouped - todo
    {
      var shape :| shape in todo;
      todo := todo - {shape};
      found := found + [Regrouped(shape)];
    }
    if recounted {
      found := found + [ThreadsRecounted(|T.ThreadsOf(before)|, |T.ThreadsOf(after)|)];
    }
  }

  method CheckRows(q: Inputs, rebuildable: seq<Row>, lost: seq<Row>) returns (found: seq<Finding>)
    ensures forall f :: f in found <==> RowFinding(q, rebuildable, lost, f)
  {
    var buckets := Bucket(q.messages);
    var present, presence := CheckPresence(rebuildable, buckets);
    var restored := CheckRestored(rebuildable, present, buckets, q.target);
    var losses := CheckLost(lost, buckets);
    found := presence + restored + losses;
    assert forall k :: Lookup(buckets, k) == Holders(q.messages, k);
  }

  method CheckWhole(q: Inputs, kept: seq<Row>, rebuildable: seq<Row>, lost: seq<Row>)
    returns (found: seq<Finding>)
    requires rebuildable == Rebuildable(kept, q.r2) && lost == Lost(kept, q.r2)
    ensures forall f :: f in found <==> WholeFinding(q, kept, rebuildable, lost, f)
  {
    var pins := CheckPins(lost, q.expectLost);
    var accounted := (set r | r in rebuildable :: r.rawKey) + (set r | r in lost :: r.rawKey);
    KeysAccounted(kept, q.r2);
    var unaccounted := CheckAccounted(q.messages, accounted);
    var counts := CheckCounts(|kept|, |rebuildable|, |lost|, q.reported, |q.messages|);
    var threads := CheckThreads(RowEntries(rebuildable), MessageEntries(q.messages));
    found := pins + unaccounted + counts + threads;
  }

  /** What the exit code says: 1 for a failure, 2 for a question not answered, 0 otherwise. */
  function VerdictOf(rows: seq<Row>, found: seq<Finding>, search: Search): Verdict {
    if rows == [] then Incomplete
    else if !Clean(found) || (search.Searched? && search.missed != []) then Failed
    else if search.SearchSkipped? then Incomplete
    else Passed
  }

  lemma KeysAccounted(rows: seq<Row>, r2: set<string>)
    ensures forall k :: Listed(rows, k) <==>
              k in (set r | r in Rebuildable(rows, r2) :: r.rawKey)
                   + (set r | r in Lost(rows, r2) :: r.rawKey)
  {
    SplitRows(rows, r2);
    forall k | Listed(rows, k)
      ensures k in (set r | r in Rebuildable(rows, r2) :: r.rawKey)
                   + (set r | r in Lost(rows, r2) :: r.rawKey)
    {
      var i :| 0 <= i < |rows| && rows[i].rawKey == k;
      assert rows[i] in rows;
    }
  }

  // ---------------------------------------------------------------- soundness and completeness

  /** The message is the row's, with its bytes, its body and its old folder and labels. */
  predicate Restores(r: Row, m: Stored, target: map<string, Placement>) {
    && m.rawKey == r.rawKey && m.sha == r.sha && m.parsed
    && m.id in target && target[m.id] == Placement(r.state, r.labels)
  }

  ghost predicate Hit<K(!new)>(pair: map<K, int>, i: int) {
    exists k :: k in pair && pair[k] == i
  }

  /** A bijection between the rebuildable rows and the positions of the reported messages. */
  ghost predicate Pairs(rebuildable: seq<Row>, messages: seq<Stored>, target: map<string, Placement>,
                        pair: map<Row, int>)
  {
    && (forall r :: r in pair <==> r in rebuildable)
    && (forall r | r in pair ::
          0 <= pair[r] < |messages| && Restores(r, messages[pair[r]], target))
    && (forall r, r' | r in pair && r' in pair && pair[r] == pair[r'] :: r == r')
    && (forall i | 0 <= i < |messages| :: Hit(pair, i))
  }

  ghost predicate Paired(q: Inputs) {
    exists pair :: Pairs(Rebuildable(Kept(q.rows), q.r2), q.messages, q.target, pair)
  }

  /** The pinned losses, when any are pinned, are the derived ones. */
  ghost predicate PinsAgree(q: Inputs) {
    var lost := Lost(Kept(q.rows), q.r2);
    q.expectLost != [] ==> forall id ::
      id in q.expectLost <==> exists i | 0 <= i < |lost| :: lost[i].id == id
  }

  /** What a correct rebuild is, with no mention of how the script looks for mistakes. */
  ghost predicate RebuildCorrect(q: Inputs) {
    var lost := Lost(Kept(q.rows), q.r2);
    && Paired(q)
    && (forall r | r in lost :: Outbound(r))
    && q.reported == |q.messages|
    && PinsAgree(q)
  }

  ghost predicate Faultless(q: Inputs) {
    forall f | Justified(q, f) :: IsWarning(f)
  }

  lemma QuietAbout(q: Inputs, f: Finding)
    requires Faultless(q) && !IsWarning(f)
    ensures var kept := Kept(q.rows);
            var rebuildable, lost := Rebuildable(kept, q.r2), Lost(kept, q.r2);
            !RowFinding(q, rebuildable, lost, f) && !WholeFinding(q, kept, rebuildable, lost, f)
  {
    assert !Justified(q, f);
  }

  lemma QuietRow(q: Inputs, r: Row) returns (i: int)
    requires Faultless(q) && r in Rebuildable(Kept(q.rows), q.r2)
    ensures OnlyAt(q.messages, r.rawKey, i) && Restores(r, q.messages[i], q.target)
  {
    var h := Holders(q.messages, r.rawKey);
    QuietAbout(q, Missing(r.id, r.rawKey));
    QuietAbout(q, Doubled(r.rawKey, Ids(h)));
    assert !PresenceFinding(r, h, Missing(r.id, r.rawKey));
    assert !PresenceFinding(r, h, Doubled(r.rawKey, Ids(h)));
    i := HolderPlace(q.messages, r.rawKey);
    SoleHolder(q.messages, r.rawKey, i);
    QuietMatch(q, r, h[0]);
  }

  lemma QuietMatch(q: Inputs, r: Row, m: Stored)
    requires Faultless(q) && r in Rebuildable(Kept(q.rows), q.r2)
    requires Holders(q.messages, r.rawKey) == [m]
    ensures m.rawKey == r.rawKey ==> Restores(r, m, q.target)
  {
    var h := Holders(q.messages, r.rawKey);
    QuietAbout(q, HashDiffers(r.rawKey, m.sha, r.sha));
    QuietAbout(q, Unparsed(r.rawKey));
    QuietAbout(q, Unindexed(m.id));
    assert !PresenceFinding(r, h, HashDiffers(r.rawKey, m.sha, r.sha));
    assert !PresenceFinding(r, h, Unparsed(r.rawKey));
    assert !RestoreFinding(r, h, q.target, Unindexed(m.id));
    var was := Placement(r.state, r.labels);
    QuietAbout(q, NotRestored(m.id, q.target[m.id], was));
    assert !RestoreFinding(r, h, q.target, NotRestored(m.id, q.target[m.id], was));
  }

  lemma NotLost(q: Inputs, r: Row, f: Finding)
    requires Faultless(q) && r in Lost(Kept(q.rows), q.r2) && !IsWarning(f)
    ensures !LostFinding(r, Holders(q.messages, r.rawKey), f)
  {
    QuietAbout(q, f);
  }

  lemma QuietLoss(q: Inputs, r: Row)
    requires Faultless(q) && r in Lost(Kept(q.rows), q.r2)
    ensures Outbound(r) && Holders(q.messages, r.rawKey) == []
  {
    NotLost(q, r, LostButPresent(r.id));
    NotLost(q, r, LostUnexplained(r.id, r.state, r.rawKey));
  }

  /** Every reported message is some rebuildable row's. */
  lemma QuietMessage(q: Inputs, m: Stored) returns (r: Row)
    requires Faultless(q) && m in q.messages
    ensures r in Rebuildable(Kept(q.rows), q.r2) && r.rawKey == m.rawKey
  {
    var kept := Kept(q.rows);
    QuietAbout(q, Unaccounted(m.id, m.rawKey));
    assert Listed(kept, m.rawKey);
    var i :| 0 <= i < |kept| && kept[i].rawKey == m.rawKey;
    r := kept[i];
    assert r in kept;
    SplitRows(kept, q.r2);
    HoldersIn(q.messages, m.rawKey);
    if r.rawKey !in q.r2 {
      QuietLoss(q, r);
      assert false;
    }
  }

  lemma QuietWhole(q: Inputs)
    requires Faultless(q)
    ensures q.reported == |q.messages| && PinsAgree(q)
  {
    var lost := Lost(Kept(q.rows), q.r2);
    QuietAbout(q, CountDiffers(q.reported, |q.messages|));
    forall id ensures q.expectLost != [] ==>
        (id in q.expectLost <==> exists i | 0 <= i < |lost| :: lost[i].id == id)
    {
      QuietPin(q, id);
    }
  }

  lemma QuietPin(q: Inputs, id: string)
    requires Faultless(q)
    ensures var lost := Lost(Kept(q.rows), q.r2);
            q.expectLost != [] ==>
              (id in q.expectLost <==> exists i | 0 <= i < |lost| :: lost[i].id == id)
  {
    var lost := Lost(Kept(q.rows), q.r2);
    QuietAbout(q, PinNotLost(id));
    QuietAbout(q, LostNotPinned(id));
    assert !PinFinding(lost, q.expectLost, PinNotLost(id));
    assert !PinFinding(lost, q.expectLost, LostNotPinned(id));
  }

  /** The position a rebuildable row's key is found at. */
  ghost function Place(messages: seq<Stored>, rawKey: string): int {
    if i :| OnlyAt(messages, rawKey, i) then i else -1
  }

  lemma FaultlessPaired(q: Inputs)
    requires Faultless(q)
    ensures Paired(q)
  {
    var kept := Kept(q.rows);
    var rebuildable := Rebuildable(kept, q.r2);
    var pair := map r | r in rebuildable :: Place(q.messages, r.rawKey);
    forall r | r in rebuildable
      ensures OnlyAt(q.messages, r.rawKey, pair[r])
      ensures Restores(r, q.messages[pair[r]], q.target)
    {
      var i := QuietRow(q, r);
    }
    forall i | 0 <= i < |q.messages| ensures Hit(pair, i) {
      var r := QuietMessage(q, q.messages[i]);
      assert OnlyAt(q.messages, r.rawKey, pair[r]);
    }
    forall r, r' | r in pair && r' in pair && pair[r] == pair[r'] ensures r == r' {
      OneRowPerKey(q, r, r');
    }
    assert Pairs(rebuildable, q.messages, q.target, pair);
  }

  lemma OneRowPerKey(q: Inputs, r: Row, r': Row)
    requires r in Rebuildable(Kept(q.rows), q.r2) && r' in Rebuildable(Kept(q.rows), q.r2)
    requires r.rawKey == r'.rawKey
    ensures r == r'
  {
    KeptCovers(q.rows);
    RebuildableOnce(Kept(q.rows), q.r2);
  }

  lemma FaultlessCorrect(q: Inputs)
    requires Faultless(q)
    ensures RebuildCorrect(q)
  {
    FaultlessPaired(q);
    QuietWhole(q);
    forall r | r in Lost(Kept(q.rows), q.r2) ensures Outbound(r) { QuietLoss(q, r); }
  }

  // The converse: nothing but warnings can be called for when the rebuild is correct.

  lemma PairedAlone(q: Inputs, pair: map<Row, int>, r: Row)
    requires Pairs(Rebuildable(Kept(q.rows), q.r2), q.messages, q.target, pair) && r in pair
    ensures Holders(q.messages, r.rawKey) == [q.messages[pair[r]]]
  {
    forall j | 0 <= j < |q.messages| && q.messages[j].rawKey == r.rawKey ensures j == pair[r] {
      assert Hit(pair, j);
      var r': Row :| r' in pair && pair[r'] == j;
      OneRowPerKey(q, r, r');
    }
    assert OnlyAt(q.messages, r.rawKey, pair[r]);
    SoleHolder(q.messages, r.rawKey, pair[r]);
  }

  lemma LostAlone(q: Inputs, pair: map<Row, int>, r: Row)
    requires Pairs(Rebuildable(Kept(q.rows), q.r2), q.messages, q.target, pair)
    requires r in Lost(Kept(q.rows), q.r2)
    ensures Holders(q.messages, r.rawKey) == []
  {
    SplitRows(Kept(q.rows), q.r2);
    forall j | 0 <= j < |q.messages| ensures q.messages[j].rawKey != r.rawKey {
      assert Hit(pair, j);
      var r': Row :| r' in pair && pair[r'] == j;
      assert r' in Rebuildable(Kept(q.rows), q.r2);
    }
    NoHolder(q.messages, r.rawKey);
  }

  lemma {:induction false} BijectionSize<K(!new)>(pair: map<K, int>, n: nat)
    requires forall k | k in pair :: 0 <= pair[k] < n
    requires forall k, k' | k in pair && k' in pair && pair[k] == pair[k'] :: k == k'
    requires forall i | 0 <= i < n :: Hit(pair, i)
    ensures |pair.Keys| == n
  {
    if n == 0 {
      assert pair.Keys == {};
    } else {
      assert Hit(pair, n - 1);
      var k :| k in pair && pair[k] == n - 1;
      var rest := pair - {k};
      assert rest.Keys == pair.Keys - {k};
      forall i | 0 <= i < n - 1 ensures Hit(rest, i) {
        assert Hit(pair, i);
        var j :| j in pair && pair[j] == i;
        assert j in rest;
      }
      BijectionSize(rest, n - 1);
    }
  }

  lemma {:induction false} OnceSize<X>(s: seq<X>)
    requires forall i, j | 0 <= i < j < |s| :: s[i] != s[j]
    ensures |set x | x in s| == |s|
  {
    if s == [] {
      assert (set x | x in s) == {};
    } else {
      OnceSize(s[1..]);
      assert s[0] !in s[1..];
      assert (set x | x in s) == (set x | x in s[1..]) + {s[0]};
    }
  }

  lemma PairedCount(q: Inputs, pair: map<Row, int>)
    requires Pairs(Rebuildable(Kept(q.rows), q.r2), q.messages, q.target, pair)
    ensures |q.messages| == |Rebuildable(Kept(q.rows), q.r2)|
  {
    var rebuildable := Rebuildable(Kept(q.rows), q.r2);
    KeptCovers(q.rows);
    RebuildableOnce(Kept(q.rows), q.r2);
    assert forall i, j | 0 <= i < j < |rebuildable| :: rebuildable[i].rawKey != rebuildable[j].rawKey;
    OnceSize(rebuildable);
    BijectionSize(pair, |q.messages|);
    assert pair.Keys == set r | r in rebuildable;
  }

  lemma QuietPaired(q: Inputs, pair: map<Row, int>, r: Row, f: Finding)
    requires Pairs(Rebuildable(Kept(q.rows), q.r2), q.messages, q.target, pair) && r in pair && !IsWarning(f)
    ensures !PresenceFinding(r, Holders(q.messages, r.rawKey), f)
    ensures !RestoreFinding(r, Holders(q.messages, r.rawKey), q.target, f)
  {
    PairedAlone(q, pair, r);
  }

  lemma QuietLost(q: Inputs, pair: map<Row, int>, r: Row, f: Finding)
    requires RebuildCorrect(q) && Pairs(Rebuildable(Kept(q.rows), q.r2), q.messages, q.target, pair)
    requires r in Lost(Kept(q.rows), q.r2) && !IsWarning(f)
    ensures !LostFinding(r, Holders(q.messages, r.rawKey), f)
  {
    LostAlone(q, pair, r);
  }

  lemma CorrectQuietRows(q: Inputs, f: Finding)
    requires RebuildCorrect(q) && !IsWarning(f)
    ensures !RowFinding(q, Rebuildable(Kept(q.rows), q.r2), Lost(Kept(q.rows), q.r2), f)
  {
    var rebuildable, lost := Rebuildable(Kept(q.rows), q.r2), Lost(Kept(q.rows), q.r2);
    var pair :| Pairs(rebuildable, q.messages, q.target, pair);
    forall r | r in rebuildable
      ensures !PresenceFinding(r, Holders(q.messages, r.rawKey), f)
      ensures !RestoreFinding(r, Holders(q.messages, r.rawKey), q.target, f)
    {
      QuietPaired(q, pair, r, f);
    }
    forall r | r in lost ensures !LostFinding(r, Holders(q.messages, r.rawKey), f) {
      QuietLost(q, pair, r, f);
    }
  }

  lemma PairedAccounted(q: Inputs, pair: map<Row, int>)
    requires Pairs(Rebuildable(Kept(q.rows), q.r2), q.messages, q.target, pair)
    ensures forall m | m in q.messages :: Listed(Kept(q.rows), m.rawKey)
  {
    SplitRows(Kept(q.rows), q.r2);
    forall m | m in q.messages ensures Listed(Kept(q.rows), m.rawKey) {
      var i :| 0 <= i < |q.messages| && q.messages[i] == m;
      assert Hit(pair, i);
      var r: Row :| r in pair && pair[r] == i;
      assert r in Kept(q.rows);
    }
  }

  lemma CorrectQuietWhole(q: Inputs, f: Finding)
    requires RebuildCorrect(q) && !IsWarning(f)
    ensures var kept := Kept(q.rows);
            !WholeFinding(q, kept, Rebuildable(kept, q.r2), Lost(kept, q.r2), f)
  {
    var kept := Kept(q.rows);
    var pair :| Pairs(Rebuildable(kept, q.r2), q.messages, q.target, pair);
    PairedCount(q, pair);
    PairedAccounted(q, pair);
    SplitRows(kept, q.r2);
  }

  /**
   * The audit is sound and complete: it calls for no failure exactly when the reported messages
   * and the rebuildable rows are in bijection, each message carrying its row's bytes, body, folder
   * and labels, and the losses are the accepted ones.
   */
  lemma FaultlessIffCorrect(q: Inputs)
    ensures Faultless(q) <==> RebuildCorrect(q)
  {
    if Faultless(q) { FaultlessCorrect(q); }
    if RebuildCorrect(q) {
      forall f | Justified(q, f) ensures IsWarning(f) {
        if !IsWarning(f) {
          CorrectQuietRows(q, f);
          CorrectQuietWhole(q, f);
        }
      }
    }
  }

  /** Exit code 0 says the rebuild is correct and the search probe found every message it tried. */
  lemma PassedIffCorrect(q: Inputs, found: seq<Finding>, search: Search)
    requires q.rows != [] ==> forall f :: f in found <==> Justified(q, f)
    ensures VerdictOf(q.rows, found, search) == Passed <==>
            q.rows != [] && RebuildCorrect(q) && search == Searched([])
  {
    FaultlessIffCorrect(q);
    if q.rows != [] { CleanIffFaultless(q, found); }
  }

  lemma CorrectKeysOnce(q: Inputs)
    requires RebuildCorrect(q)
    ensures T.KeysOnce(RowEntries(Rebuildable(Kept(q.rows), q.r2)))
    ensures T.KeysOnce(MessageEntries(q.messages))
  {
    var rebuildable := Rebuildable(Kept(q.rows), q.r2);
    KeptCovers(q.rows);
    RebuildableOnce(Kept(q.rows), q.r2);
    var pair :| Pairs(rebuildable, q.messages, q.target, pair);
    forall i, j | 0 <= i < j < |q.messages| ensures q.messages[i].rawKey != q.messages[j].rawKey {
      assert Hit(pair, i) && Hit(pair, j);
      var r: Row :| r in pair && pair[r] == i;
      var r': Row :| r' in pair && pair[r'] == j;
      if r.rawKey == r'.rawKey { OneRowPerKey(q, r, r'); }
    }
  }

  // ---------------------------------------------------------------- the verdict, over the inputs alone

  /** No earlier row has this raw key: a later one is a repeat and is not looked at again. */
  ghost predicate Leads(rows: seq<Row>, i: int) {
    0 <= i < |rows| && forall j | 0 <= j < i :: rows[j].rawKey != rows[i].rawKey
  }

  /** A message with the row's raw key, its hash, a parsed body, and its folder and labels in the index. */
  ghost predicate Rebuilt(q: Inputs, row: Row, k: int) {
    && 0 <= k < |q.messages|
    && q.messages[k].rawKey == row.rawKey && q.messages[k].sha == row.sha && q.messages[k].parsed
    && q.messages[k].id in q.target
    && q.target[q.messages[k].id].state == row.state && q.target[q.messages[k].id].labels == row.labels
    && forall l | 0 <= l < |q.messages| && l != k :: q.messages[l].rawKey != row.rawKey
  }

  /** The row is of an outgoing message: in the sent folder, or its raw key begins with `sent/`. */
  ghost predicate WasSent(row: Row) {
    row.state == "sent" || (|row.rawKey| >= 5 && row.rawKey[..5] == "sent/")
  }

  ghost predicate RowsRebuilt(q: Inputs) {
    forall i | Leads(q.rows, i) && q.rows[i].rawKey in q.r2 :: exists k :: Rebuilt(q, q.rows[i], k)
  }

  ghost predicate LossesSent(q: Inputs) {
    forall i | Leads(q.rows, i) && q.rows[i].rawKey !in q.r2 :: WasSent(q.rows[i])
  }

  /** Some row with a raw object has this key. */
  ghost predicate Expected(q: Inputs, rawKey: string) {
    rawKey in q.r2 && exists i :: Leads(q.rows, i) && q.rows[i].rawKey == rawKey
  }

  ghost predicate LostId(q: Inputs, id: string) {
    exists i :: Leads(q.rows, i) && q.rows[i].rawKey !in q.r2 && q.rows[i].id == id
  }

  /** What has to hold of what the script reads, field by field. */
  ghost predicate Sound(q: Inputs) {
    && RowsRebuilt(q) && LossesSent(q)
    && (forall k | 0 <= k < |q.messages| :: Expected(q, q.messages[k].rawKey))
    && q.reported == |q.messages|
    && (q.expectLost != [] ==> forall id :: id in q.expectLost <==> LostId(q, id))
  }

  lemma LeadsFirst(rows: seq<Row>)
    ensures forall i :: Leads(rows, i) <==> First(rows, i)
  {
    forall i ensures Leads(rows, i) <==> First(rows, i) {
      if 0 <= i < |rows| {
        if Listed(rows[..i], rows[i].rawKey) {
          var j :| 0 <= j < i && rows[..i][j].rawKey == rows[i].rawKey;
          assert rows[j].rawKey == rows[i].rawKey;
        }
        if j :| 0 <= j < i && rows[j].rawKey == rows[i].rawKey { assert rows[..i][j] == rows[j]; }
      }
    }
  }

  lemma ClassesByField(rows: seq<Row>, r2: set<string>)
    ensures forall r :: r in Rebuildable(Kept(rows), r2) <==>
              exists i :: Leads(rows, i) && rows[i].rawKey in r2 && rows[i] == r
    ensures forall r :: r in Lost(Kept(rows), r2) <==>
              exists i :: Leads(rows, i) && rows[i].rawKey !in r2 && rows[i] == r
  {
    LeadsFirst(rows);
    KeptFirsts(rows);
    SplitRows(Kept(rows), r2);
  }

  lemma PairedRow(q: Inputs, r: Row) returns (k: int)
    requires RebuildCorrect(q) && r in Rebuildable(Kept(q.rows), q.r2)
    ensures Rebuilt(q, r, k)
  {
    var pair :| Pairs(Rebuildable(Kept(q.rows), q.r2), q.messages, q.target, pair);
    k := pair[r];
    CorrectKeysOnce(q);
    var entries := MessageEntries(q.messages);
    forall l | 0 <= l < |q.messages| && l != k ensures q.messages[l].rawKey != r.rawKey {
      assert entries[l].key == q.messages[l].rawKey && entries[k].key == q.messages[k].rawKey;
    }
  }

  lemma PairedMessage(q: Inputs, k: int) returns (r: Row)
    requires RebuildCorrect(q) && 0 <= k < |q.messages|
    ensures r in Rebuildable(Kept(q.rows), q.r2) && r.rawKey == q.messages[k].rawKey
  {
    var pair :| Pairs(Rebuildable(Kept(q.rows), q.r2), q.messages, q.target, pair);
    assert Hit(pair, k);
    r :| r in pair && pair[r] == k;
  }

  lemma LostIdListed(q: Inputs, id: string)
    requires LostId(q, id)
    ensures exists j | 0 <= j < |Lost(Kept(q.rows), q.r2)| :: Lost(Kept(q.rows), q.r2)[j].id == id
  {
    var lost := Lost(Kept(q.rows), q.r2);
    var i :| Leads(q.rows, i) && q.rows[i].rawKey !in q.r2 && q.rows[i].id == id;
    assert q.rows[i] in lost by { ClassesByField(q.rows, q.r2); }
    var j :| 0 <= j < |lost| && lost[j] == q.rows[i];
  }

  lemma ListedLost(q: Inputs, j: int)
    requires 0 <= j < |Lost(Kept(q.rows), q.r2)|
    ensures LostId(q, Lost(Kept(q.rows), q.r2)[j].id)
  {
    var r := Lost(Kept(q.rows), q.r2)[j];
    assert r in Lost(Kept(q.rows), q.r2);
    ClassesByField(q.rows, q.r2);
  }

  lemma PinsByField(q: Inputs)
    ensures PinsAgree(q) <==> (q.expectLost != [] ==> forall id :: id in q.expectLost <==> LostId(q, id))
  {
    var lost := Lost(Kept(q.rows), q.r2);
    forall id ensures LostId(q, id) <==> exists j | 0 <= j < |lost| :: lost[j].id == id {
      if LostId(q, id) { LostIdListed(q, id); }
      if j :| 0 <= j < |lost| && lost[j].id == id { ListedLost(q, j); }
    }
  }

  lemma SentByField(row: Row)
    ensures WasSent(row) <==> Outbound(row)
  {}

  lemma LossesByField(q: Inputs)
    ensures LossesSent(q) <==> forall r | r in Lost(Kept(q.rows), q.r2) :: Outbound(r)
  {
    ClassesByField(q.rows, q.r2);
    forall r ensures WasSent(r) <==> Outbound(r) { SentByField(r); }
  }

  lemma CorrectRows(q: Inputs)
    requires RebuildCorrect(q)
    ensures RowsRebuilt(q)
  {
    ClassesByField(q.rows, q.r2);
    forall i | Leads(q.rows, i) && q.rows[i].rawKey in q.r2 ensures exists k :: Rebuilt(q, q.rows[i], k) {
      var k := PairedRow(q, q.rows[i]);
    }
  }

  lemma CorrectMessage(q: Inputs, k: int)
    requires RebuildCorrect(q) && 0 <= k < |q.messages|
    ensures Expected(q, q.messages[k].rawKey)
  {
    ClassesByField(q.rows, q.r2);
    var r := PairedMessage(q, k);
  }

  lemma CorrectSound(q: Inputs)
    requires RebuildCorrect(q)
    ensures Sound(q)
  {
    CorrectRows(q);
    LossesByField(q);
    PinsByField(q);
    forall k | 0 <= k < |q.messages| ensures Expected(q, q.messages[k].rawKey) { CorrectMessage(q, k); }
  }

  /** The row's own message, wherever it is listed. */
  ghost function MessageOf(q: Inputs, r: Row): int {
    if k :| Rebuilt(q, r, k) then k else -1
  }

  lemma RowHasMessage(q: Inputs, r: Row)
    requires RowsRebuilt(q) && r in Rebuildable(Kept(q.rows), q.r2)
    ensures Rebuilt(q, r, MessageOf(q, r))
  {
    ClassesByField(q.rows, q.r2);
  }

  lemma MessageHasRow(q: Inputs, k: int) returns (r: Row)
    requires RowsRebuilt(q) && 0 <= k < |q.messages| && Expected(q, q.messages[k].rawKey)
    ensures r in Rebuildable(Kept(q.rows), q.r2) && MessageOf(q, r) == k
  {
    ClassesByField(q.rows, q.r2);
    var i :| Leads(q.rows, i) && q.rows[i].rawKey == q.messages[k].rawKey;
    r := q.rows[i];
    RowHasMessage(q, r);
  }

  lemma SoundPaired(q: Inputs)
    requires RowsRebuilt(q) && forall k | 0 <= k < |q.messages| :: Expected(q, q.messages[k].rawKey)
    ensures Paired(q)
  {
    var rebuildable := Rebuildable(Kept(q.rows), q.r2);
    var pair := map r | r in rebuildable :: MessageOf(q, r);
    forall r | r in pair ensures 0 <= pair[r] < |q.messages| && Restores(r, q.messages[pair[r]], q.target) {
      RowHasMessage(q, r);
    }
    forall r, r' | r in pair && r' in pair && pair[r] == pair[r'] ensures r == r' {
      OneRowPerKey(q, r, r');
    }
    forall k | 0 <= k < |q.messages| ensures Hit(pair, k) {
      var r := MessageHasRow(q, k);
      assert pair[r] == k;
    }
    assert Pairs(rebuildable, q.messages, q.target, pair);
  }

  /** The correct rebuild, said of the inputs alone. */
  lemma CorrectIffSound(q: Inputs)
    ensures RebuildCorrect(q) <==> Sound(q)
  {
    if RebuildCorrect(q) { CorrectSound(q); }
    LossesByField(q);
    PinsByField(q);
    if Sound(q) { SoundPaired(q); }
  }

  /** The whole check and its exit code: 0 exactly for a sound rebuild and a search that found everything. */
  method Verify(q: Inputs, search: Search) returns (verdict: Verdict, found: seq<Finding>)
    ensures q.rows != [] ==> forall f :: f in found <==> Justified(q, f)
    ensures q.rows == [] ==> verdict.Incomplete? && found == []
    ensures verdict.Passed? <==> q.rows != [] && Sound(q) && search == Searched([])
    ensures verdict.Failed? <==> q.rows != [] && (!Sound(q) || (search.Searched? && search.missed != []))
  {
    if q.rows == [] { return Incomplete, []; }
    var kept, duplicates := Deduplicate(q.rows);
    var rebuildable, lost := Classify(kept, q.r2);
    var byRow := CheckRows(q, rebuildable, lost);
    var whole := CheckWhole(q, kept, rebuildable, lost);
    found := duplicates + byRow + whole;
    verdict := VerdictOf(q.rows, found, search);
    CleanIffFaultless(q, found);
    FaultlessIffCorrect(q);
    CorrectIffSound(q);
  }

  lemma CleanIffFaultless(q: Inputs, found: seq<Finding>)
    requires forall f :: f in found <==> Justified(q, f)
    ensures Clean(found) <==> Faultless(q)
  {
    if Faultless(q) {
      forall i | 0 <= i < |found| ensures IsWarning(found[i]) { assert found[i] in found; }
    }
    if Clean(found) {
      forall f | Justified(q, f) ensures IsWarning(f) { assert f in found; }
    }
  }

  // ---------------------------------------------------------------- threading

  /** The row is looked at, and message k is stored from its raw key. */
  ghost predicate Counterparts(q: Inputs, i: int, k: int) {
    && Leads(q.rows, i) && q.rows[i].rawKey in q.r2
    && 0 <= k < |q.messages| && q.messages[k].rawKey == q.rows[i].rawKey
  }

  /** Two rows share a thread exactly when the messages with their raw keys do. */
  ghost predicate SameThreads(q: Inputs) {
    forall i, j, k, l | Counterparts(q, i, k) && Counterparts(q, j, l) ::
      q.rows[i].thread == q.rows[j].thread <==> q.messages[k].thread == q.messages[l].thread
  }

  lemma RowOfEntry(q: Inputs, n: int) returns (i: int)
    requires 0 <= n < |Rebuildable(Kept(q.rows), q.r2)|
    ensures Leads(q.rows, i) && q.rows[i].rawKey in q.r2 && q.rows[i] == Rebuildable(Kept(q.rows), q.r2)[n]
  {
    var r := Rebuildable(Kept(q.rows), q.r2)[n];
    assert r in Rebuildable(Kept(q.rows), q.r2);
    ClassesByField(q.rows, q.r2);
    i :| Leads(q.rows, i) && q.rows[i].rawKey in q.r2 && q.rows[i] == r;
  }

  lemma AlikeOfRows(q: Inputs)
    requires SameThreads(q)
    ensures T.GroupedAlike(RowEntries(Rebuildable(Kept(q.rows), q.r2)), MessageEntries(q.messages))
  {
    var before := RowEntries(Rebuildable(Kept(q.rows), q.r2));
    var after := MessageEntries(q.messages);
    forall i, j, k, l | T.Matched(before, after, i, k) && T.Matched(before, after, j, l)
      ensures before[i].thread == before[j].thread <==> after[k].thread == after[l].thread
    {
      var i' := RowOfEntry(q, i);
      var j' := RowOfEntry(q, j);
      assert Counterparts(q, i', k) && Counterparts(q, j', l);
    }
  }

  lemma RowsOfAlike(q: Inputs)
    requires T.GroupedAlike(RowEntries(Rebuildable(Kept(q.rows), q.r2)), MessageEntries(q.messages))
    ensures SameThreads(q)
  {
    var before := RowEntries(Rebuildable(Kept(q.rows), q.r2));
    var after := MessageEntries(q.messages);
    forall i, j, k, l | Counterparts(q, i, k) && Counterparts(q, j, l)
      ensures q.rows[i].thread == q.rows[j].thread <==> q.messages[k].thread == q.messages[l].thread
    {
      var i' := RowListed(q, i);
      var j' := RowListed(q, j);
      assert T.Matched(before, after, i', k) && T.Matched(before, after, j', l);
    }
  }

  lemma RowListed(q: Inputs, i: int) returns (n: int)
    requires Leads(q.rows, i) && q.rows[i].rawKey in q.r2
    ensures 0 <= n < |Rebuildable(Kept(q.rows), q.r2)| && Rebuildable(Kept(q.rows), q.r2)[n] == q.rows[i]
  {
    ClassesByField(q.rows, q.r2);
    assert q.rows[i] in Rebuildable(Kept(q.rows), q.r2);
    n :| 0 <= n < |Rebuildable(Kept(q.rows), q.r2)| && Rebuildable(Kept(q.rows), q.r2)[n] == q.rows[i];
  }

  lemma CorrectSameKeys(q: Inputs)
    requires RebuildCorrect(q)
    ensures T.SameKeys(RowEntries(Rebuildable(Kept(q.rows), q.r2)), MessageEntries(q.messages))
  {
    var rows := Rebuildable(Kept(q.rows), q.r2);
    var before, after := RowEntries(rows), MessageEntries(q.messages);
    forall i | 0 <= i < |rows| ensures T.HasKey(after, before[i].key) {
      var k := PairedRow(q, rows[i]);
      assert after[k].key == before[i].key;
    }
    forall k | 0 <= k < |q.messages| ensures T.HasKey(before, after[k].key) {
      var r := PairedMessage(q, k);
      var i :| 0 <= i < |rows| && rows[i] == r;
      assert before[i].key == after[k].key;
    }
  }

  /** On a sound rebuild no threading warning is called for exactly when threads are shared as they were. */
  lemma ThreadsSilentIffSame(q: Inputs)
    requires Sound(q)
    requires forall i | 0 <= i < |q.rows| :: '|' !in q.rows[i].rawKey
    ensures (forall f | Justified(q, f) :: !f.Regrouped? && !f.ThreadsRecounted?) <==> SameThreads(q)
  {
    CorrectIffSound(q);
    GroupedIffSame(q);
    ThreadFindingsAlone(q);
  }

  lemma GroupedIffSame(q: Inputs)
    requires RebuildCorrect(q)
    requires forall i | 0 <= i < |q.rows| :: '|' !in q.rows[i].rawKey
    ensures NoThreadWarning(q) <==> SameThreads(q)
  {
    var before := RowEntries(Rebuildable(Kept(q.rows), q.r2));
    var after := MessageEntries(q.messages);
    CorrectKeysOnce(q);
    CorrectBarFree(q);
    CorrectSameKeys(q);
    T.SilentIffSamePartition(before, after);
    T.PartitionByPairs(before, after);
    NoThreadFinding(before, after);
    if SameThreads(q) { AlikeOfRows(q); }
    if T.GroupedAlike(before, after) { RowsOfAlike(q); }
  }

  ghost predicate NoThreadWarning(q: Inputs) {
    forall f :: !ThreadFinding(RowEntries(Rebuildable(Kept(q.rows), q.r2)), MessageEntries(q.messages), f)
  }

  lemma OnlyThreadFinding(q: Inputs, f: Finding)
    requires f.Regrouped? || f.ThreadsRecounted?
    ensures Justified(q, f) <==>
            ThreadFinding(RowEntries(Rebuildable(Kept(q.rows), q.r2)), MessageEntries(q.messages), f)
  {}

  lemma ThreadFindingsAlone(q: Inputs)
    ensures (forall f | Justified(q, f) :: !f.Regrouped? && !f.ThreadsRecounted?) <==> NoThreadWarning(q)
  {
    forall f: Finding | f.Regrouped? || f.ThreadsRecounted?
      ensures Justified(q, f) <==>
              ThreadFinding(RowEntries(Rebuildable(Kept(q.rows), q.r2)), MessageEntries(q.messages), f)
    {
      OnlyThreadFinding(q, f);
    }
  }

  lemma NoThreadFinding(before: seq<T.Entry>, after: seq<T.Entry>)
    ensures (forall f :: !ThreadFinding(before, after, f)) <==>
            T.Shapes(after) - T.Shapes(before) == {} && |T.ThreadsOf(before)| == |T.ThreadsOf(after)|
  {
    T.NothingLeft(T.Shapes(after), T.Shapes(before));
    if forall f :: !ThreadFinding(before, after, f) {
      forall s | s in T.Shapes(after) ensures s in T.Shapes(before) {
        assert !ThreadFinding(before, after, Regrouped(s));
      }
      assert !ThreadFinding(before, after,
                            ThreadsRecounted(|T.ThreadsOf(before)|, |T.ThreadsOf(after)|));
    }
  }

  lemma CorrectBarFree(q: Inputs)
    requires RebuildCorrect(q)
    requires forall i | 0 <= i < |q.rows| :: '|' !in q.rows[i].rawKey
    ensures T.BarFree(RowEntries(Rebuildable(Kept(q.rows), q.r2)))
    ensures T.BarFree(MessageEntries(q.messages))
  {
    var rebuildable := Rebuildable(Kept(q.rows), q.r2);
    KeptFirsts(q.rows);
    SplitRows(Kept(q.rows), q.r2);
    forall i | 0 <= i < |rebuildable| ensures '|' !in rebuildable[i].rawKey {
      assert rebuildable[i] in rebuildable;
      assert rebuildable[i] in Kept(q.rows);
    }
    var pair :| Pairs(rebuildable, q.messages, q.target, pair);
    forall i | 0 <= i < |q.messages| ensures '|' !in q.messages[i].rawKey {
      assert Hit(pair, i);
      var r: Row :| r in pair && pair[r] == i;
      assert r in rebuildable;
    }
  }
}
