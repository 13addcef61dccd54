/**
 * What the two D1 projections hold, said of the history that led to them: the ingest log is its last
 * writes, the index is its writes as long as no reindex clears it, and a reindex that others
 * interleave with leaves the rows it exported and those written after its delete.
 */
module History {
  import opened Common
  import opened Pipeline
  import opened PipelineSafety

  lemma ActionSettled(d: nat, dv: Delivery, box: Mailbox, stored: bool, action: Action, c: Change)
    requires Perform(d, dv, box, stored, action) == Some(c) && DeliveryHolds(box, dv)
    ensures c.dv.p == dv.p && (dv.answer.Some? ==> c.dv.answer == dv.answer)
  {}

  /** A delivery keeps its payload and, once given, its answer. */
  ghost predicate Settled(before: World, after: World) {
    forall d | d in before.deliveries ::
      d in after.deliveries && after.deliveries[d].p == before.deliveries[d].p
      && (before.deliveries[d].answer.Some? ==> after.deliveries[d].answer == before.deliveries[d].answer)
  }

  lemma StepSettled(w: World, s: Step, w': World)
    requires AnswersConsistent(w) && Apply(w, s) == Some(w')
    ensures Settled(w, w')
  {
    if s.Act? {
      var dv := w.deliveries[s.d];
      var c := Performed(w, s.d, s.action).value;
      ActionSettled(s.d, dv, BoxOf(w.mailboxes, dv.p.mailbox), dv.p.rawKey in w.r2, s.action, c);
      assert w'.deliveries == w.deliveries[s.d := c.dv];
    } else {
      assert forall d | d in w.deliveries :: d in w'.deliveries && w'.deliveries[d] == w.deliveries[d];
    }
  }

  lemma {:induction false} RunSettled(w: World, steps: seq<Step>)
    requires Inv(w) && Run(w, steps).Some?
    ensures Settled(w, Run(w, steps).value)
    decreases |steps|
  {
    if steps != [] {
      StepKept(w, steps[0], Apply(w, steps[0]).value);
      StepSettled(w, steps[0], Apply(w, steps[0]).value);
      RunSettled(Apply(w, steps[0]).value, steps[1..]);
    }
  }

  // ---------------------------------------------------------------- the ingest log

  /** The row last written under a key. */
  function LastEvent(log: seq<Effect>, k: string): Option<EventRow> {
    if log == [] then None
    else
      var e := log[|log| - 1];
      if e.EventWritten? && e.idem == k then Some(e.event) else LastEvent(log[..|log| - 1], k)
  }

  ghost predicate EventsLogged(w: World) {
    forall k :: LastEvent(w.log, k) == if k in w.events then Some(w.events[k]) else None
  }

  /** Every ingest row was written by a delivery of its key, as the delivery's answer calls for. */
  ghost predicate WritersKnown(w: World) {
    forall i | 0 <= i < |w.log| && w.log[i].EventWritten? :: WriterKnown(w, w.log[i])
  }

  ghost predicate WriterKnown(w: World, e: Effect)
    requires e.EventWritten?
  {
    e.d in w.deliveries && w.deliveries[e.d].answer.Some? && w.deliveries[e.d].p.idem == e.idem
    && e.event == EventFor(w.deliveries[e.d].p, w.deliveries[e.d].answer.value)
  }

  lemma ActionEvents(d: nat, dv: Delivery, box: Mailbox, stored: bool, action: Action, c: Change)
    requires Perform(d, dv, box, stored, action) == Some(c)
    ensures |c.log| <= 1
    ensures forall k :: LastEvent(c.log, k) == if k in c.events then Some(c.events[k]) else None
    ensures forall e | e in c.log && e.EventWritten? ::
              e.d == d && c.dv.answer.Some? && c.dv.p.idem == e.idem && e.event == EventFor(c.dv.p, c.dv.answer.value)
  {}

  lemma LastOfOne(log: seq<Effect>, more: seq<Effect>, k: string)
    requires |more| <= 1
    ensures LastEvent(log + more, k) == if LastEvent(more, k).Some? then LastEvent(more, k) else LastEvent(log, k)
  {
    if more == [] {
      assert log + more == log;
    } else {
      assert (log + more)[..|log|] == log;
    }
  }

  lemma StepEvents(w: World, s: Step, w': World)
    requires AnswersConsistent(w) && EventsLogged(w) && WritersKnown(w) && Apply(w, s) == Some(w')
    ensures EventsLogged(w') && WritersKnown(w')
  {
    StepSettled(w, s, w');
    if s.Act? {
      var dv := w.deliveries[s.d];
      var c := Performed(w, s.d, s.action).value;
      ActionEvents(s.d, dv, BoxOf(w.mailboxes, dv.p.mailbox), dv.p.rawKey in w.r2, s.action, c);
      forall k ensures LastEvent(w'.log, k) == if k in w'.events then Some(w'.events[k]) else None {
        LastOfOne(w.log, c.log, k);
      }
      WritersCarried(w, w', c.log);
    } else {
      WritersCarried(w, w', []);
    }
  }

  lemma WritersCarried(w: World, w': World, more: seq<Effect>)
    requires WritersKnown(w) && Settled(w, w') && w'.log == w.log + more
    requires forall e | e in more && e.EventWritten? :: WriterKnown(w', e)
    ensures WritersKnown(w')
  {
    forall i | 0 <= i < |w'.log| && w'.log[i].EventWritten? ensures WriterKnown(w', w'.log[i]) {
      if i < |w.log| {
        assert WriterKnown(w, w.log[i]);
      } else {
        assert w'.log[i] in more;
      }
    }
  }

  lemma {:induction false} RunEvents(w: World, steps: seq<Step>)
    requires Inv(w) && EventsLogged(w) && WritersKnown(w) && Run(w, steps).Some?
    ensures EventsLogged(Run(w, steps).value) && WritersKnown(Run(w, steps).value)
    decreases |steps|
  {
    if steps != [] {
      var w' := Apply(w, steps[0]).value;
      StepKept(w, steps[0], w');
      StepEvents(w, steps[0], w');
      RunEvents(w', steps[1..]);
    }
  }

  /** In every reachable state the ingest row of a key is the one last written. */
  lemma RowIsLastWrite(w: World)
    requires Reachable(w)
    ensures EventsLogged(w) && WritersKnown(w)
  {
    var start :| Fresh(start) && Reaches(start, w);
    var steps :| Run(start, steps) == Some(w);
    FreshInv(start);
    RunEvents(start, steps);
  }

  predicate Writes(e: Effect, k: string) {
    e.EventWritten? && e.idem == k
  }

  /** At j a delivery recorded its conflict over the key, and nobody has written the key since. */
  ghost predicate ConflictStands(w: World, k: string, j: int) {
    && 0 <= j < |w.log| && Writes(w.log[j], k)
    && w.log[j].d in w.deliveries && w.deliveries[w.log[j].d].answer == Some(Conflict)
    && forall m | j < m < |w.log| :: !Writes(w.log[m], k)
  }

  lemma {:induction false} LastAt(log: seq<Effect>, k: string) returns (j: int)
    requires LastEvent(log, k).Some?
    ensures 0 <= j < |log| && Writes(log[j], k) && LastEvent(log, k) == Some(log[j].event)
    ensures forall m | j < m < |log| :: !Writes(log[m], k)
  {
    j := |log| - 1;
    if !Writes(log[j], k) { j := LastAt(log[..|log| - 1], k); }
  }

  lemma {:induction false} LastSome(log: seq<Effect>, k: string, i: int)
    requires 0 <= i < |log| && Writes(log[i], k)
    ensures LastEvent(log, k).Some?
  {
    if i < |log| - 1 { LastSome(log[..|log| - 1], k, i); }
  }

  /** A row once written processed is processed still unless a later conflict is the last word on its key. */
  lemma ProcessedRowStaysIff(w: World, i: nat)
    requires Reachable(w) && i < |w.log| && w.log[i].EventWritten? && w.log[i].event.status == Processed
    ensures var k := w.log[i].idem;
            k in w.events && (w.events[k].status == Processed <==> !exists j :: i < j && ConflictStands(w, k, j))
  {
    RowIsLastWrite(w);
    var k := w.log[i].idem;
    LastSome(w.log, k, i);
    assert k in w.events;
    var j := LastAt(w.log, k);
    assert WriterKnown(w, w.log[j]) && w.events[k] == w.log[j].event;
    if w.events[k].status == Failed {
      assert i < j && ConflictStands(w, k, j);
    }
    forall m | i < m && ConflictStands(w, k, m) ensures m == j {}
  }

  /** Of two writes of one key in one mailbox, one processed: the other is a conflict iff its bytes differ. */
  lemma ConflictIsAnotherHash(w: World, i: nat, j: nat)
    requires Reachable(w) && i < |w.log| && w.log[i].EventWritten? && w.log[i].event.status == Processed
    requires j < |w.log| && Writes(w.log[j], w.log[i].idem) && w.log[j].event.mailbox == w.log[i].event.mailbox
    ensures w.log[i].d in w.deliveries && w.log[j].d in w.deliveries
    ensures w.log[j].event.status == Failed <==>
              w.deliveries[w.log[j].d].p.sha != w.deliveries[w.log[i].d].p.sha
  {
    RowIsLastWrite(w);
    ReachableHolds(w);
    assert WriterKnown(w, w.log[i]) && WriterKnown(w, w.log[j]);
    var dv, ev := w.deliveries[w.log[i].d], w.deliveries[w.log[j].d];
    assert DeliveryHolds(BoxOf(w.mailboxes, dv.p.mailbox), dv) && DeliveryHolds(BoxOf(w.mailboxes, ev.p.mailbox), ev);
  }

  // ---------------------------------------------------------------- the index without a reindex

  /** Some delivery got as far as the index write of this message. */
  ghost predicate WroteRow(log: seq<Effect>, key: IndexKey) {
    exists i | 0 <= i < |log| :: log[i].IndexWritten? && log[i].key == key
  }

  /** The steps that can remove or add rows other than a delivery's own write. */
  predicate Rebuilds(s: Step) {
    s.ClearIndex? || s.ReindexRow?
  }

  lemma ActionWrites(d: nat, dv: Delivery, box: Mailbox, stored: bool, action: Action, c: Change, key: IndexKey)
    requires Perform(d, dv, box, stored, action) == Some(c)
    ensures |c.log| <= 1 && (key in c.index <==> WroteRow(c.log, key))
    ensures key in c.index <==> action.WriteIndex? && Inserts(c.dv, key)
  {
    assert c.log != [] ==> (WroteRow(c.log, key) <==> c.log[0].IndexWritten? && c.log[0].key == key);
  }

  /** The delivery was told that it inserted this message. */
  predicate Inserts(dv: Delivery, key: IndexKey) {
    dv.answer.Some? && dv.answer.value.Inserted? && key == (dv.p.mailbox, dv.answer.value.localId)
  }

  lemma WroteConcat(a: seq<Effect>, b: seq<Effect>, key: IndexKey)
    ensures WroteRow(a + b, key) <==> WroteRow(a, key) || WroteRow(b, key)
  {
    if WroteRow(a, key) {
      var i :| 0 <= i < |a| && a[i].IndexWritten? && a[i].key == key;
      assert (a + b)[i] == a[i];
    }
    if WroteRow(b, key) {
      var i :| 0 <= i < |b| && b[i].IndexWritten? && b[i].key == key;
      assert (a + b)[|a| + i] == b[i];
    }
  }

  /** In this schedule some delivery told that it inserted the message performs its index write. */
  ghost predicate Projects(steps: seq<Step>, w: World, key: IndexKey) {
    exists n | 0 <= n < |steps| :: ProjectsAt(steps[n], w, key)
  }

  predicate ProjectsAt(s: Step, w: World, key: IndexKey) {
    s.Act? && s.action.WriteIndex? && s.d in w.deliveries && Inserts(w.deliveries[s.d], key)
  }

  lemma StepIndex(w: World, s: Step, w': World, last: World, key: IndexKey)
    requires Apply(w, s) == Some(w') && !Rebuilds(s) && Settled(w', last)
    ensures key in w'.index <==> key in w.index || ProjectsAt(s, last, key)
  {
    if s.Act? {
      var dv := w.deliveries[s.d];
      var c := Performed(w, s.d, s.action).value;
      ActionWrites(s.d, dv, BoxOf(w.mailboxes, dv.p.mailbox), dv.p.rawKey in w.r2, s.action, c, key);
      assert w'.deliveries[s.d] == c.dv;
      if s.action.WriteIndex? { assert c.dv.answer.Some?; }
    }
  }

  lemma {:induction false} RunIndex(w: World, steps: seq<Step>, key: IndexKey)
    requires Inv(w) && Run(w, steps).Some? && forall i | 0 <= i < |steps| :: !Rebuilds(steps[i])
    ensures key in Run(w, steps).value.index <==> key in w.index || Projects(steps, Run(w, steps).value, key)
    decreases |steps|
  {
    if steps != [] {
      var w', last := Apply(w, steps[0]).value, Run(w, steps).value;
      StepKept(w, steps[0], w');
      RunSettled(w', steps[1..]);
      StepIndex(w, steps[0], w', last, key);
      RunIndex(w', steps[1..], key);
      ProjectsNext(steps, last, key);
    }
  }

  lemma ProjectsNext(steps: seq<Step>, w: World, key: IndexKey)
    requires steps != []
    ensures Projects(steps, w, key) <==> ProjectsAt(steps[0], w, key) || Projects(steps[1..], w, key)
  {
    if Projects(steps[1..], w, key) {
      var n :| 0 <= n < |steps[1..]| && ProjectsAt(steps[1..][n], w, key);
      assert ProjectsAt(steps[n + 1], w, key);
    }
    if Projects(steps, w, key) && !ProjectsAt(steps[0], w, key) {
      var n :| 0 <= n < |steps| && ProjectsAt(steps[n], w, key);
      assert steps[1..][n - 1] == steps[n];
    }
  }

  /** A row as an arriving message leaves it. */
  predicate ArrivedRow(row: IndexRow) {
    row.state == "inbox" && row.labels == "[]"
  }

  /** A row written since is as an arriving message leaves it; any other is as it was. */
  ghost predicate RowSince(before: World, after: World, key: IndexKey) {
    && |before.log| <= |after.log|
    && if WroteRow(after.log[|before.log|..], key) then key in after.index && ArrivedRow(after.index[key])
       else (key in after.index <==> key in before.index)
            && (key in before.index ==> after.index[key] == before.index[key])
  }

  lemma ActRow(w: World, d: nat, action: Action, c: Change, key: IndexKey)
    requires d in w.deliveries && Performed(w, d, action) == Some(c)
    ensures RowSince(w, Changed(w, d, c), key)
    ensures Changed(w, d, c).log[|w.log|..] == c.log
  {
    var dv := w.deliveries[d];
    ActionWrites(d, dv, BoxOf(w.mailboxes, dv.p.mailbox), dv.p.rawKey in w.r2, action, c, key);
    assert key in c.index ==> ArrivedRow(c.index[key]);
  }

  lemma QuietRowSince(w: World, w': World, key: IndexKey)
    requires w'.log == w.log && w'.index == w.index
    ensures RowSince(w, w', key)
  {
    assert w'.log[|w.log|..] == [];
  }

  lemma SinceConcat(a: World, b: World, c: World, key: IndexKey)
    requires a.log <= b.log && b.log <= c.log && RowSince(a, b, key) && RowSince(b, c, key)
    ensures RowSince(a, c, key)
  {
    assert c.log[|a.log|..] == b.log[|a.log|..] + c.log[|b.log|..];
    WroteConcat(b.log[|a.log|..], c.log[|b.log|..], key);
  }

  lemma StepRow(w: World, s: Step, w': World, key: IndexKey)
    requires Apply(w, s) == Some(w') && !Rebuilds(s)
    ensures w.log <= w'.log && RowSince(w, w', key)
  {
    if s.Act? {
      ActRow(w, s.d, s.action, Performed(w, s.d, s.action).value, key);
    } else {
      QuietRowSince(w, w', key);
    }
  }

  lemma {:induction false} RunRow(w: World, steps: seq<Step>, key: IndexKey)
    requires Run(w, steps).Some? && forall i | 0 <= i < |steps| :: !Rebuilds(steps[i])
    ensures w.log <= Run(w, steps).value.log && RowSince(w, Run(w, steps).value, key)
    decreases |steps|
  {
    if steps == [] {
      QuietRowSince(w, w, key);
    } else {
      var w' := Apply(w, steps[0]).value;
      StepRow(w, steps[0], w', key);
      RunRow(w', steps[1..], key);
      SinceConcat(w, w', Run(w, steps).value, key);
    }
  }

  lemma StepProjects(w: World, s: Step, w': World, last: World, key: IndexKey)
    requires Apply(w, s) == Some(w') && Settled(w', last)
    ensures w.log <= w'.log && (WroteRow(w'.log[|w.log|..], key) <==> ProjectsAt(s, last, key))
  {
    if s.Act? {
      var dv := w.deliveries[s.d];
      var c := Performed(w, s.d, s.action).value;
      ActionWrites(s.d, dv, BoxOf(w.mailboxes, dv.p.mailbox), dv.p.rawKey in w.r2, s.action, c, key);
      assert w'.deliveries[s.d] == c.dv && w'.log[|w.log|..] == c.log;
      if s.action.WriteIndex? { assert c.dv.answer.Some?; }
    } else {
      assert w'.log == w.log;
    }
  }

  /** The rows a schedule writes are those its deliveries project. */
  lemma {:induction false} RunProjects(w: World, steps: seq<Step>, key: IndexKey)
    requires Inv(w) && Run(w, steps).Some?
    ensures w.log <= Run(w, steps).value.log
    ensures WroteRow(Run(w, steps).value.log[|w.log|..], key) <==> Projects(steps, Run(w, steps).value, key)
    decreases |steps|
  {
    var last := Run(w, steps).value;
    if steps == [] {
      assert last.log[|w.log|..] == [];
    } else {
      var w' := Apply(w, steps[0]).value;
      StepKept(w, steps[0], w');
      RunSettled(w', steps[1..]);
      StepProjects(w, steps[0], w', last, key);
      RunProjects(w', steps[1..], key);
      ProjectsNext(steps, last, key);
      assert last.log[|w.log|..] == w'.log[|w.log|..] + last.log[|w'.log|..];
      WroteConcat(w'.log[|w.log|..], last.log[|w'.log|..], key);
    }
  }

  /**
   * When an acked message is indexed: in every schedule from a fresh state without reindex steps, exactly
   * when the delivery told that it inserted the message performs its index write. For an insert whose
   * reply was lost no delivery is told so, and the message is never indexed.
   */
  lemma AckedIndexedIff(start: World, steps: seq<Step>, w: World, d: nat, l: string)
    requires Fresh(start) && Run(start, steps) == Some(w) && forall i | 0 <= i < |steps| :: !Rebuilds(steps[i])
    requires d in w.deliveries && w.deliveries[d].phase == Acked
    requires w.deliveries[d].answer.Some? && !w.deliveries[d].answer.value.Conflict?
    requires w.deliveries[d].answer.value.localId == l
    ensures (w.deliveries[d].p.mailbox, l) in w.index <==> Projects(steps, w, (w.deliveries[d].p.mailbox, l))
    ensures w.deliveries[d].answer.value.Inserted? ==> (w.deliveries[d].p.mailbox, l) in w.index
    ensures Projects(steps, w, (w.deliveries[d].p.mailbox, l)) ==>
              exists e | e in w.deliveries :: Inserts(w.deliveries[e], (w.deliveries[d].p.mailbox, l))
                && w.deliveries[e].p.idem == w.deliveries[d].p.idem && w.deliveries[e].p.sha == w.deliveries[d].p.sha
  {
    var key := (w.deliveries[d].p.mailbox, l);
    FreshInv(start);
    RunIndex(start, steps, key);
    assert Reaches(start, w) && Reachable(w);
    ReachableHolds(w);
    var dv := w.deliveries[d];
    assert DeliveryHolds(BoxOf(w.mailboxes, dv.p.mailbox), dv) && PhaseLogged(d, dv, w.log);
    if dv.answer.value.Inserted? {
      RunWritten(start, steps, key);
      assert RowWritten(d, dv.p, dv.answer.value) in w.log;
    }
    if Projects(steps, w, key) {
      var n :| 0 <= n < |steps| && ProjectsAt(steps[n], w, key);
      var e := steps[n].d;
      assert DeliveryHolds(BoxOf(w.mailboxes, w.deliveries[e].p.mailbox), w.deliveries[e]);
      assert BoxConsistent(BoxOf(w.mailboxes, dv.p.mailbox));
    }
  }

  /** The rows written are in the log. */
  lemma {:induction false} RunWritten(w: World, steps: seq<Step>, key: IndexKey)
    requires Run(w, steps).Some? && forall i | 0 <= i < |steps| :: !Rebuilds(steps[i])
    requires WroteRow(w.log, key) <==> key in w.index
    ensures WroteRow(Run(w, steps).value.log, key) <==> key in Run(w, steps).value.index
    decreases |steps|
  {
    if steps != [] {
      var w' := Apply(w, steps[0]).value;
      StepWritten(w, steps[0], w', key);
      RunWritten(w', steps[1..], key);
    }
  }

  lemma StepWritten(w: World, s: Step, w': World, key: IndexKey)
    requires Apply(w, s) == Some(w') && !Rebuilds(s) && (WroteRow(w.log, key) <==> key in w.index)
    ensures WroteRow(w'.log, key) <==> key in w'.index
  {
    if s.Act? {
      var dv := w.deliveries[s.d];
      var c := Performed(w, s.d, s.action).value;
      ActionWrites(s.d, dv, BoxOf(w.mailboxes, dv.p.mailbox), dv.p.rawKey in w.r2, s.action, c, key);
      WroteConcat(w.log, c.log, key);
    }
  }

  // ---------------------------------------------------------------- a reindex among other steps

  /** No reindex but x itself clears or writes rows of the mailbox; `last` knows every reindex's mailbox. */
  ghost predicate Alone(steps: seq<Step>, x: nat, mailbox: string, last: World) {
    forall i | 0 <= i < |steps| && Rebuilds(steps[i]) && steps[i].x != x ::
      steps[i].x in last.reindexes && last.reindexes[steps[i].x].mailbox != mailbox
  }

  /** A reindex keeps its mailbox, and until its delete everything it exported is still to be written. */
  ghost predicate ReindexesKept(before: World, after: World) {
    forall y | y in before.reindexes ::
      y in after.reindexes && after.reindexes[y].mailbox == before.reindexes[y].mailbox
      && (before.reindexes[y].cleared ==> after.reindexes[y].cleared)
      && (!after.reindexes[y].cleared ==> after.reindexes[y] == before.reindexes[y])
  }

  lemma StepReindexes(w: World, s: Step, w': World)
    requires Apply(w, s) == Some(w')
    ensures ReindexesKept(w, w') && w.log <= w'.log
  {}

  lemma {:induction false} RunReindexes(w: World, steps: seq<Step>)
    requires Run(w, steps).Some?
    ensures ReindexesKept(w, Run(w, steps).value) && w.log <= Run(w, steps).value.log
    decreases |steps|
  {
    if steps != [] {
      StepReindexes(w, steps[0], Apply(w, steps[0]).value);
      RunReindexes(Apply(w, steps[0]).value, steps[1..]);
    }
  }

  /** After the delete: a row is there once the reindex or a delivery has written it. */
  ghost predicate Rebuilding(w: World, x: nat, mailbox: string, exported: set<string>, cleared: nat, l: string)
    requires cleared <= |w.log|
  {
    && x in w.reindexes && w.reindexes[x].cleared && w.reindexes[x].mailbox == mailbox
    && ((mailbox, l) in w.index <==>
          (l in exported && l !in w.reindexes[x].pending) || WroteRow(w.log[cleared..], (mailbox, l)))
    && (l in w.reindexes[x].pending ==> l in exported)
  }

  lemma ActRebuilding(w: World, d: nat, action: Action, c: Change, x: nat, mailbox: string, exported: set<string>,
                      cleared: nat, l: string)
    requires cleared <= |w.log| && Rebuilding(w, x, mailbox, exported, cleared, l)
    requires d in w.deliveries && Performed(w, d, action) == Some(c)
    ensures Rebuilding(Changed(w, d, c), x, mailbox, exported, cleared, l)
  {
    var dv, key := w.deliveries[d], (mailbox, l);
    var w' := Changed(w, d, c);
    ActionWrites(d, dv, BoxOf(w.mailboxes, dv.p.mailbox), dv.p.rawKey in w.r2, action, c, key);
    assert w'.log[cleared..] == w.log[cleared..] + c.log;
    WroteConcat(w.log[cleared..], c.log, key);
    assert key in w'.index <==> key in w.index || key in c.index;
  }

  lemma StepRebuilding(w: World, s: Step, w': World, last: World, x: nat, mailbox: string, exported: set<string>,
                       cleared: nat, l: string)
    requires cleared <= |w.log| && Rebuilding(w, x, mailbox, exported, cleared, l) && Apply(w, s) == Some(w')
    requires ReindexesKept(w', last) && Alone([s], x, mailbox, last)
    ensures cleared <= |w'.log| && Rebuilding(w', x, mailbox, exported, cleared, l)
  {
    if s.Act? {
      ActRebuilding(w, s.d, s.action, Performed(w, s.d, s.action).value, x, mailbox, exported, cleared, l);
    } else {
      assert w'.log == w.log;
      if Rebuilds(s) && s.x != x { assert [s][0] == s; }
    }
  }

  lemma {:induction false} RunRebuilding(w: World, steps: seq<Step>, x: nat, mailbox: string, exported: set<string>,
                                         cleared: nat, l: string)
    requires Run(w, steps).Some? && cleared <= |w.log| && Rebuilding(w, x, mailbox, exported, cleared, l)
    requires Alone(steps, x, mailbox, Run(w, steps).value)
    ensures cleared <= |Run(w, steps).value.log|
    ensures Rebuilding(Run(w, steps).value, x, mailbox, exported, cleared, l)
    decreases |steps|
  {
    if steps != [] {
      var w', last := Apply(w, steps[0]).value, Run(w, steps).value;
      RunReindexes(w', steps[1..]);
      StepRebuilding(w, steps[0], w', last, x, mailbox, exported, cleared, l);
      RunRebuilding(w', steps[1..], x, mailbox, exported, cleared, l);
    }
  }

  /**
   * A reindex run to its last row, any steps before its delete and, after it, any but another reindex of
   * the mailbox: a row is there exactly when its message was exported or a delivery wrote it after the
   * delete. So a row once written is lost exactly when the message was not yet there at the export and
   * every write of the row fell before the delete.
   */
  lemma InterleavedReindexIff(w0: World, x: nat, mailbox: string, a: seq<Step>, b: seq<Step>, l: string)
    returns (cleared: World, last: World)
    requires Apply(w0, StartReindex(x, mailbox)).Some?
    requires var w1 := Apply(w0, StartReindex(x, mailbox)).value;
             Run(w1, a).Some? && Apply(Run(w1, a).value, ClearIndex(x)).Some?
             && Run(Apply(Run(w1, a).value, ClearIndex(x)).value, b).Some?
    requires var w1 := Apply(w0, StartReindex(x, mailbox)).value;
             var w4 := Run(Apply(Run(w1, a).value, ClearIndex(x)).value, b).value;
             x in w4.reindexes && w4.reindexes[x].pending == map[] && Alone(b, x, mailbox, w4)
    ensures cleared == Apply(Run(Apply(w0, StartReindex(x, mailbox)).value, a).value, ClearIndex(x)).value
    ensures last == Run(cleared, b).value && |cleared.log| <= |last.log|
    ensures (mailbox, l) in last.index <==>
              l in BoxOf(w0.mailboxes, mailbox).messages || WroteRow(last.log[|cleared.log|..], (mailbox, l))
    ensures WroteRow(last.log, (mailbox, l)) ==>
              ((mailbox, l) !in last.index <==>
                 l !in BoxOf(w0.mailboxes, mailbox).messages && WroteRow(cleared.log, (mailbox, l))
                 && !WroteRow(last.log[|cleared.log|..], (mailbox, l)))
  {
    var w1 := Apply(w0, StartReindex(x, mailbox)).value;
    var w2 := Run(w1, a).value;
    RunReindexes(w1, a);
    cleared := Apply(w2, ClearIndex(x)).value;
    last := Run(cleared, b).value;
    var exported := BoxOf(w0.mailboxes, mailbox).messages.Keys;
    assert w2.reindexes[x] == Reindexing(mailbox, false, Export(BoxOf(w0.mailboxes, mailbox)));
    assert cleared.log[|cleared.log|..] == [];
    assert Rebuilding(cleared, x, mailbox, exported, |cleared.log|, l);
    RunRebuilding(cleared, b, x, mailbox, exported, |cleared.log|, l);
    RunReindexes(cleared, b);
    assert last.log == cleared.log + last.log[|cleared.log|..];
    WroteConcat(cleared.log, last.log[|cleared.log|..], (mailbox, l));
  }
}
