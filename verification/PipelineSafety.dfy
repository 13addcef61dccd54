/**
 * What holds in every state the inbound pipeline can reach, under any interleaving of handlers,
 * deliveries and reindexes and any crash or redelivery, and what does not.
 */
module PipelineSafety {
  import opened Common
  import opened Pipeline

  ghost predicate Reaches(w: World, w': World) {
    exists steps :: Run(w, steps) == Some(w')
  }

  ghost predicate Reachable(w: World) {
    exists start :: Fresh(start) && Reaches(start, w)
  }

  lemma ReachNow(w: World)
    ensures Reaches(w, w)
  {
    assert Run(w, []) == Some(w);
  }

  lemma ReachStep(w: World, w1: World, s: Step, w2: World)
    requires Reaches(w, w1) && Apply(w1, s) == Some(w2)
    ensures Reaches(w, w2)
  {
    var steps :| Run(w, steps) == Some(w1);
    RunConcat(w, steps, [s]);
    assert Run(w2, []) == Some(w2);
    assert Run(w1, [s]) == Run(w2, [s][1..]);
    assert Run(w, steps + [s]) == Some(w2);
  }

  lemma ReachableHolds(w: World)
    requires Reachable(w)
    ensures Inv(w)
  {
    var start :| Fresh(start) && Reaches(start, w);
    var steps :| Run(start, steps) == Some(w);
    FreshInv(start);
    RunKept(start, steps);
  }

  /** Everything on the queue has its raw object in R2, with the hash the payload claims. */
  lemma QueuedIsStored(w: World, p: Payload)
    requires Reachable(w) && p in w.queue
    ensures p.rawKey in w.r2 && w.r2[p.rawKey] == p.sha
  {
    ReachableHolds(w);
  }

  /** Every index row names a message of that mailbox's Durable Object, same raw key, same hash. */
  lemma IndexedIsStored(w: World, key: IndexKey)
    requires Reachable(w) && key in w.index
    ensures var messages := BoxOf(w.mailboxes, key.0).messages;
            && key.1 in messages
            && messages[key.1].rawKey == w.index[key].rawKey
            && messages[key.1].sha == w.index[key].sha
  {
    ReachableHolds(w);
    assert Names(w.mailboxes, key.0, key.1, w.index[key]);
  }

  /** The index row of the message the delivery inserted has been written. */
  ghost predicate ArrivalLogged(log: seq<Effect>, d: nat, p: Payload, a: Answer)
    requires a.Inserted?
  {
    exists row :: IndexWritten(d, (p.mailbox, a.localId), row) in log && ShowsArrival(row, p, a.thread)
  }

  /** The ingest row for the delivery's answer has been written. */
  ghost predicate AnswerLogged(log: seq<Effect>, d: nat, p: Payload, a: Answer) {
    exists event :: EventWritten(d, p.idem, event) in log && Tells(event, p, a)
  }

  lemma LoggedByField(log: seq<Effect>, d: nat, p: Payload, a: Answer)
    ensures EventLogged(d, p, a) in log ==> AnswerLogged(log, d, p, a)
    ensures a.Inserted? && RowWritten(d, p, a) in log ==> ArrivalLogged(log, d, p, a)
  {}

  /** An ack comes after this delivery's answer and its own matching `ingest_events` write. */
  lemma AckFollowsRecord(w: World, i: nat)
    requires Reachable(w) && i < |w.log| && w.log[i].MessageAcked?
    ensures var e := w.log[i];
            && AnswerGiven(e.d, e.p, e.answer) in w.log[..i]
            && AnswerLogged(w.log[..i], e.d, e.p, e.answer)
            && (e.answer.Inserted? ==> ArrivalLogged(w.log[..i], e.d, e.p, e.answer))
  {
    ReachableHolds(w);
    assert Justified(w.log[..i], w.log[i]);
    LoggedByField(w.log[..i], w.log[i].d, w.log[i].p, w.log[i].answer);
  }

  /** Nothing was logged for the delivery after `before`. */
  ghost predicate Silent(before: seq<Effect>, after: seq<Effect>, d: nat) {
    before <= after && forall i | |before| <= i < |after| :: after[i].d != d
  }

  /** A delivery acknowledged or given back is done with, whatever runs afterwards. */
  lemma {:induction false} SettledStays(w: World, steps: seq<Step>, d: nat)
    requires Run(w, steps).Some? && d in w.deliveries && w.deliveries[d].phase in {Acked, Retried}
    ensures d in Run(w, steps).value.deliveries
    ensures Run(w, steps).value.deliveries[d] == w.deliveries[d]
    ensures Silent(w.log, Run(w, steps).value.log, d)
    decreases |steps|
  {
    if steps != [] {
      var w1 := Apply(w, steps[0]).value;
      SettledStep(w, steps[0], w1, d);
      SettledStays(w1, steps[1..], d);
    }
  }

  lemma SettledStep(w: World, s: Step, w1: World, d: nat)
    requires Apply(w, s) == Some(w1) && d in w.deliveries && w.deliveries[d].phase in {Acked, Retried}
    ensures d in w1.deliveries && w1.deliveries[d] == w.deliveries[d] && Silent(w.log, w1.log, d)
  {
    if s.Act? {
      var dv := w.deliveries[s.d];
      OwnWord(s.d, dv, BoxOf(w.mailboxes, dv.p.mailbox), dv.p.rawKey in w.r2, s.action);
    } else {
      assert w1.log == w.log;
    }
  }

  lemma OwnWord(d: nat, dv: Delivery, box: Mailbox, stored: bool, action: Action)
    ensures var c := Perform(d, dv, box, stored, action);
            c.Some? ==> dv.phase !in {Acked, Retried} && forall i | 0 <= i < |c.value.log| :: c.value.log[i].d == d
  {}

  /** A notification comes after the index row and the processed row of the message it announces. */
  lemma NotifyFollowsIndex(w: World, i: nat)
    requires Reachable(w) && i < |w.log| && w.log[i].NotificationSent?
    ensures var e := w.log[i];
            && e.answer.Inserted?
            && ArrivalLogged(w.log[..i], e.d, e.p, e.answer)
            && AnswerLogged(w.log[..i], e.d, e.p, e.answer)
  {
    ReachableHolds(w);
    assert Justified(w.log[..i], w.log[i]);
    LoggedByField(w.log[..i], w.log[i].d, w.log[i].p, w.log[i].answer);
  }

  /** No message is ever announced twice, whatever was redelivered. */
  lemma NotifiedAtMostOnce(w: World, i: nat, j: nat)
    requires Reachable(w) && i < |w.log| && j < |w.log|
    requires w.log[i].NotificationSent? && w.log[j].NotificationSent?
    requires w.log[i].p.mailbox == w.log[j].p.mailbox
    requires w.log[i].answer.Inserted? && w.log[j].answer.Inserted?
    requires w.log[i].answer.localId == w.log[j].answer.localId
    ensures i == j
  {
    ReachableHolds(w);
    assert SameInsert(w.deliveries[w.log[i].d], w.deliveries[w.log[j].d]);
  }

  /** One insert for each idempotency key; every later answer names that message or conflicts. */
  lemma KeyInsertsOnce(w: World, d: nat, e: nat)
    requires Reachable(w) && d in w.deliveries && e in w.deliveries
    requires w.deliveries[d].p.mailbox == w.deliveries[e].p.mailbox
    requires w.deliveries[d].p.idem == w.deliveries[e].p.idem
    requires w.deliveries[d].answer.Some? && w.deliveries[d].answer.value.Inserted?
    requires w.deliveries[e].answer.Some?
    ensures match w.deliveries[e].answer.value
            case Inserted(_, _) => d == e
            case Duplicate(l) => l == w.deliveries[d].answer.value.localId
            case Conflict => w.deliveries[e].p.sha != w.deliveries[d].p.sha
  {
    ReachableHolds(w);
    var dv, ev := w.deliveries[d], w.deliveries[e];
    assert DeliveryHolds(BoxOf(w.mailboxes, dv.p.mailbox), dv);
    assert DeliveryHolds(BoxOf(w.mailboxes, ev.p.mailbox), ev);
    if ev.answer.value.Inserted? { assert SameInsert(dv, ev); }
  }

  // ---------------------------------------------------------------- what does not hold

  lemma ReachAct(start: World, w: World, d: nat, action: Action, c: Change) returns (w': World)
    requires Reaches(start, w) && d in w.deliveries && Performed(w, d, action) == Some(c)
    ensures Reaches(start, w')
    ensures w'.deliveries == w.deliveries[d := c.dv]
    ensures BoxOf(w'.mailboxes, c.dv.p.mailbox) == c.box
    ensures w'.r2 == w.r2 && w'.queue == w.queue && w'.reindexes == w.reindexes
    ensures w'.index == w.index + c.index && w'.events == w.events + c.events
    ensures c.index == map[] ==> w'.index == w.index
    ensures c.events == map[] ==> w'.events == w.events
  {
    assert w.index + map[] == w.index && w.events + map[] == w.events;
    w' := Changed(w, d, c);
    assert Apply(w, Act(d, action)) == Some(w');
    ReachStep(start, w, Act(d, action), w');
  }

  /** The handler stores and queues one email; nothing has been delivered yet. */
  lemma ReachQueued(start: World, p: Payload) returns (w: World)
    requires Fresh(start) && FromHandler(p)
    ensures Reaches(start, w)
    ensures p.rawKey in w.r2 && p in w.queue && w.mailboxes == map[] && w.deliveries == map[]
    ensures w.index == map[] && w.events == map[] && w.reindexes == map[]
  {
    ReachNow(start);
    var w1 := start.(r2 := start.r2[p.rawKey := p.sha], stored := start.stored + {p});
    ReachStep(start, start, PutRaw(p), w1);
    w := w1.(queue := w1.queue + {p});
    ReachStep(start, w1, Send(p), w);
  }

  lemma ReachHeaded(start: World, w: World, d: nat, p: Payload) returns (w': World)
    requires Reaches(start, w) && p in w.queue && d !in w.deliveries && p.rawKey in w.r2
    ensures Reaches(start, w')
    ensures w'.deliveries == w.deliveries[d := Delivery(p, Headed, None, false)]
    ensures BoxOf(w'.mailboxes, p.mailbox) == BoxOf(w.mailboxes, p.mailbox)
    ensures w'.r2 == w.r2 && w'.queue == w.queue && w'.reindexes == w.reindexes
    ensures w'.index == w.index && w'.events == w.events
  {
    var dv := Delivery(p, Received, None, false);
    var w1 := w.(deliveries := w.deliveries[d := dv]);
    ReachStep(start, w, Deliver(d, p), w1);
    w' := ReachAct(start, w1, d, HeadRaw,
                   Only(dv.(phase := Headed), BoxOf(w.mailboxes, p.mailbox)));
  }

  /** First delivery of an unseen email: the Durable Object has inserted it and answered. */
  lemma ReachInserted(start: World, w: World, p: Payload, localId: string) returns (w': World)
    requires Reaches(start, w) && p in w.queue && p.rawKey in w.r2 && w.mailboxes == map[]
    requires w.deliveries == map[]
    ensures Reaches(start, w')
    ensures w'.deliveries == map[0 := Delivery(p, Answered, Some(Inserted(localId, localId)), false)]
    ensures BoxOf(w'.mailboxes, p.mailbox) ==
            Mailbox(map[p.idem := LedgerEntry(p.sha, localId)],
                    map[localId := NewMessage(p, localId, true)])
    ensures w'.r2 == w.r2 && w'.queue == w.queue && w'.reindexes == w.reindexes
    ensures w'.index == w.index && w'.events == w.events
  {
    var w1 := ReachHeaded(start, w, 0, p);
    var dv := Delivery(p, Parsing, None, false);
    var w2 := ReachAct(start, w1, 0, Precheck, Only(dv, EmptyMailbox));
    var box := WithMessage(EmptyMailbox, p, localId, NewMessage(p, localId, true));
    w' := ReachAct(start, w2, 0, Commit(localId, localId, true, true),
                   Give(0, dv, box, Inserted(localId, localId)));
  }

  /**
   * An acked message need not be indexed: the inserting delivery stops before its index write, and
   * the redelivery is answered `duplicate`, records `processed` and acks.
   */
  lemma AckedNeedNotBeIndexed(start: World, p: Payload, localId: string) returns (w: World)
    requires Fresh(start) && FromHandler(p)
    ensures Reaches(start, w)
    ensures 1 in w.deliveries && w.deliveries[1].p == p && w.deliveries[1].phase == Acked
    ensures w.deliveries[1].answer == Some(Duplicate(localId))
    ensures localId in BoxOf(w.mailboxes, p.mailbox).messages
    ensures p.idem in w.events && w.events[p.idem].status == Processed
    ensures w.index == map[]
  {
    var w0 := ReachQueued(start, p);
    w := ReachUnindexed(start, w0, p, localId);
  }

  /** The same from any world where p is queued and nothing has been delivered. */
  lemma ReachUnindexed(start: World, w0: World, p: Payload, localId: string) returns (w: World)
    requires Reaches(start, w0) && p in w0.queue && p.rawKey in w0.r2
    requires w0.mailboxes == map[] && w0.deliveries == map[] && w0.index == map[]
    ensures Reaches(start, w)
    ensures 1 in w.deliveries && w.deliveries[1].p == p && w.deliveries[1].phase == Acked
    ensures w.deliveries[1].answer == Some(Duplicate(localId))
    ensures localId in BoxOf(w.mailboxes, p.mailbox).messages
    ensures p.idem in w.events && w.events[p.idem] == EventFor(p, Duplicate(localId))
    ensures w.index == map[]
  {
    var w1 := ReachInserted(start, w0, p, localId);
    var box := BoxOf(w1.mailboxes, p.mailbox);
    var w2 := ReachAct(start, w1, 0, Fail, Only(w1.deliveries[0].(phase := Retried), box));
    var w3 := ReachHeaded(start, w2, 1, p);
    var dv := w3.deliveries[1];
    var w4 := ReachAct(start, w3, 1, Precheck, Give(1, dv, box, Duplicate(localId)));
    w := ReachDuplicateAcked(start, w4, 1, localId);
  }

  lemma ReachDuplicateAcked(start: World, w: World, d: nat, localId: string) returns (w': World)
    requires Reaches(start, w) && d in w.deliveries && w.deliveries[d].phase == Answered
    requires w.deliveries[d].answer == Some(Duplicate(localId))
    ensures Reaches(start, w')
    ensures w'.deliveries == w.deliveries[d := w.deliveries[d].(phase := Acked)]
    ensures var p := w.deliveries[d].p;
            w'.index == w.index && w'.events == w.events[p.idem := EventFor(p, Duplicate(localId))]
            && BoxOf(w'.mailboxes, p.mailbox) == BoxOf(w.mailboxes, p.mailbox)
  {
    var dv := w.deliveries[d];
    var p, a := dv.p, Duplicate(localId);
    var box := BoxOf(w.mailboxes, p.mailbox);
    var dv1 := dv.(phase := Finishing);
    var w1 := ReachAct(start, w, d, WriteEvent,
                Change(dv1, box, map[], map[p.idem := EventFor(p, a)], [EventLogged(d, p, a)]));
    w' := ReachAct(start, w1, d, Ack,
                Only(dv1.(phase := Acked), box).(log := [MessageAcked(d, p, a)]));
  }

  /** The consumer's two projections of `inserted`. */
  lemma ReachRowsWritten(start: World, w: World, d: nat, dv: Delivery, box: Mailbox)
    returns (w': World)
    requires Reaches(start, w) && d in w.deliveries && w.deliveries[d] == dv
    requires dv.phase == Answered && dv.answer.Some? && dv.answer.value.Inserted?
    requires BoxOf(w.mailboxes, dv.p.mailbox) == box
    ensures Reaches(start, w')
    ensures w'.deliveries == w.deliveries[d := dv.(phase := Recorded)]
    ensures BoxOf(w'.mailboxes, dv.p.mailbox) == box
    ensures w'.r2 == w.r2 && w'.queue == w.queue && w'.reindexes == w.reindexes
    ensures var a := dv.answer.value;
            && w'.index == w.index + map[(dv.p.mailbox, a.localId) := ArrivalRow(dv.p, a.thread)]
            && w'.events == w.events + map[dv.p.idem := EventFor(dv.p, a)]
  {
    var a := dv.answer.value;
    var key, row := (dv.p.mailbox, a.localId), ArrivalRow(dv.p, a.thread);
    var w1 := ReachAct(start, w, d, WriteIndex,
                Change(dv.(phase := Indexed), box, map[key := row], map[], [IndexWritten(d, key, row)]));
    w' := ReachAct(start, w1, d, WriteEvent,
            Change(dv.(phase := Recorded), box, map[], map[dv.p.idem := EventFor(dv.p, a)],
                   [EventLogged(d, dv.p, a)]));
  }

  /** The rest of a delivery whose notification could not be sent. */
  lemma ReachUntoldAck(start: World, w: World, d: nat, dv: Delivery, box: Mailbox)
    returns (w': World)
    requires Reaches(start, w) && d in w.deliveries && w.deliveries[d] == dv
    requires dv.phase == Recorded && dv.answer.Some? && dv.answer.value.Inserted?
    requires BoxOf(w.mailboxes, dv.p.mailbox) == box
    ensures Reaches(start, w')
    ensures w'.deliveries == w.deliveries[d := dv.(phase := Acked)]
    ensures BoxOf(w'.mailboxes, dv.p.mailbox) == box
    ensures w'.r2 == w.r2 && w'.queue == w.queue && w'.reindexes == w.reindexes
    ensures w'.index == w.index && w'.events == w.events
  {
    var w1 := ReachAct(start, w, d, Notify(false), Only(dv.(phase := Finishing), box));
    w' := ReachAct(start, w1, d, Ack,
            Only(dv.(phase := Acked), box).(log := [MessageAcked(d, dv.p, dv.answer.value)]));
  }

  /** The consumer's four effects after `inserted`, the notification failing. */
  lemma ReachInsertProjected(start: World, w: World, d: nat, dv: Delivery, box: Mailbox)
    returns (w': World)
    requires Reaches(start, w) && d in w.deliveries && w.deliveries[d] == dv
    requires dv.phase == Answered && dv.answer.Some? && dv.answer.value.Inserted?
    requires BoxOf(w.mailboxes, dv.p.mailbox) == box
    ensures Reaches(start, w')
    ensures w'.deliveries == w.deliveries[d := dv.(phase := Acked)]
    ensures BoxOf(w'.mailboxes, dv.p.mailbox) == box
    ensures w'.r2 == w.r2 && w'.queue == w.queue && w'.reindexes == w.reindexes
    ensures var a := dv.answer.value;
            && w'.index == w.index + map[(dv.p.mailbox, a.localId) := ArrivalRow(dv.p, a.thread)]
            && w'.events == w.events + map[dv.p.idem := EventFor(dv.p, a)]
  {
    var w1 := ReachRowsWritten(start, w, d, dv, box);
    w' := ReachUntoldAck(start, w1, d, dv.(phase := Recorded), box);
  }

  /** First delivery of an unseen email, all the way to its ack. */
  lemma ReachFirstInsert(start: World, w: World, p: Payload, localId: string) returns (w': World)
    requires Reaches(start, w) && p in w.queue && p.rawKey in w.r2 && w.mailboxes == map[]
    requires w.deliveries == map[] && w.index == map[] && w.events == map[]
    ensures Reaches(start, w')
    ensures w'.deliveries.Keys == {0}
    ensures w'.deliveries[0] == Delivery(p, Acked, Some(Inserted(localId, localId)), false)
    ensures BoxOf(w'.mailboxes, p.mailbox) ==
            Mailbox(map[p.idem := LedgerEntry(p.sha, localId)],
                    map[localId := NewMessage(p, localId, true)])
    ensures w'.index == map[(p.mailbox, localId) := ArrivalRow(p, localId)]
    ensures w'.events == map[p.idem := EventFor(p, Inserted(localId, localId))]
    ensures w'.r2 == w.r2 && w'.queue == w.queue && w'.reindexes == w.reindexes
  {
    var w1 := ReachInserted(start, w, p, localId);
    var dv := w1.deliveries[0];
    w' := ReachInsertProjected(start, w1, 0, dv, BoxOf(w1.mailboxes, p.mailbox));
    assert w'.index == map[(p.mailbox, localId) := ArrivalRow(p, localId)];
    assert w'.events == map[p.idem := EventFor(p, Inserted(localId, localId))];
  }

  /** A payload whose key the ledger holds with other bytes: answered and recorded as a conflict. */
  lemma ReachConflictRecorded(start: World, w: World, d: nat, q: Payload) returns (w': World)
    requires Reaches(start, w) && q in w.queue && d !in w.deliveries && q.rawKey in w.r2
    requires q.idem in BoxOf(w.mailboxes, q.mailbox).ledger
    requires BoxOf(w.mailboxes, q.mailbox).ledger[q.idem].sha != q.sha
    ensures Reaches(start, w')
    ensures w'.deliveries == w.deliveries[d := Delivery(q, Recorded, Some(Conflict), false)]
    ensures BoxOf(w'.mailboxes, q.mailbox) == BoxOf(w.mailboxes, q.mailbox)
    ensures w'.events == w.events + map[q.idem := EventFor(q, Conflict)]
  {
    var w1 := ReachHeaded(start, w, d, q);
    var box := BoxOf(w.mailboxes, q.mailbox);
    var dv := Delivery(q, Headed, None, false);
    var dv1 := dv.(phase := Answered, answer := Some(Conflict));
    var w2 := ReachAct(start, w1, d, Precheck, Give(d, dv, box, Conflict));
    w' := ReachAct(start, w2, d, WriteEvent,
            Change(dv1.(phase := Recorded), box, map[], map[q.idem := EventFor(q, Conflict)],
                   [EventLogged(d, q, Conflict)]));
  }

  /** A processed row is not permanent: the same key with other bytes overwrites it as failed. */
  lemma ProcessedRowNeedNotStay(start: World, p: Payload, q: Payload, localId: string)
    returns (w: World)
    requires Fresh(start) && FromHandler(p) && FromHandler(q)
    requires q.mailbox == p.mailbox && q.idem == p.idem && q.sha != p.sha && q.rawKey != p.rawKey
    ensures Reaches(start, w)
    ensures 0 in w.deliveries && w.deliveries[0].p == p && w.deliveries[0].phase == Acked
    ensures EventWritten(0, p.idem, EventFor(p, Inserted(localId, localId))) in w.log
    ensures w.events == map[p.idem := EventFor(q, Conflict)]
    ensures w.events[p.idem].status == Failed
    ensures localId in BoxOf(w.mailboxes, p.mailbox).messages
  {
    var w0 := ReachQueued(start, p);
    var w1 := ReachFirstInsert(start, w0, p, localId);
    var w2 := w1.(r2 := w1.r2[q.rawKey := q.sha], stored := w1.stored + {q});
    ReachStep(start, w1, PutRaw(q), w2);
    var w3 := w2.(queue := w2.queue + {q});
    ReachStep(start, w2, Send(q), w3);
    w := ReachConflictRecorded(start, w3, 1, q);
    assert w.events == map[p.idem := EventFor(q, Conflict)];
    assert Reachable(w);
    ReachableHolds(w);
    assert PhaseLogged(0, w.deliveries[0], w.log);
  }

  /**
   * A reindex that is not quiescent loses mail: exported before the insert, cleared after the
   * index write, it drops the row of an acked message it never exported.
   */
  lemma RacingReindexLosesRow(start: World, p: Payload, localId: string) returns (w: World)
    requires Fresh(start) && FromHandler(p)
    ensures Reaches(start, w)
    ensures 0 in w.deliveries && w.deliveries[0].phase == Acked
    ensures w.deliveries[0].answer == Some(Inserted(localId, localId))
    ensures localId in BoxOf(w.mailboxes, p.mailbox).messages && w.index == map[]
    ensures w.reindexes == map[0 := Reindexing(p.mailbox, true, map[])]
  {
    var w1 := ReachQueued(start, p);
    var x := Reindexing(p.mailbox, false, map[]);
    assert Export(EmptyMailbox) == map[];
    var w2 := w1.(reindexes := w1.reindexes[0 := x]);
    ReachStep(start, w1, StartReindex(0, p.mailbox), w2);
    var w3 := ReachFirstInsert(start, w2, p, localId);
    w := w3.(index := WithoutMailbox(w3.index, p.mailbox),
             reindexes := w3.reindexes[0 := x.(cleared := true)]);
    ReachStep(start, w3, ClearIndex(0), w);
    assert w.index == map[];
  }

  // ---------------------------------------------------------------- quiescent reindex

  /** The mailbox's rows show exactly its Durable Object's messages; the others are untouched. */
  ghost predicate Rebuilt(before: map<IndexKey, IndexRow>, mailbox: string, box: Mailbox,
                          after: map<IndexKey, IndexRow>) {
    && (forall k :: k in after <==> if k.0 == mailbox then k.1 in box.messages else k in before)
    && (forall k | k in after && k.0 == mailbox :: ShowsMessage(after[k], box.messages[k.1]))
    && (forall k | k in after && k.0 != mailbox :: after[k] == before[k])
  }

  function RowSteps(x: nat, ids: seq<string>): (steps: seq<Step>)
    ensures |steps| == |ids|
  {
    seq(|ids|, i requires 0 <= i < |ids| => ReindexRow(x, ids[i]))
  }

  function ReindexSchedule(x: nat, mailbox: string, ids: seq<string>): seq<Step> {
    [StartReindex(x, mailbox), ClearIndex(x)] + RowSteps(x, ids)
  }

  ghost predicate Lists<T(!new)>(ids: seq<T>, keys: set<T>) {
    && (forall i, j | 0 <= i < j < |ids| :: ids[i] != ids[j])
    && (forall k :: k in ids <==> k in keys)
  }

  /** Writing the pending rows one by one, in any order, leaves each of them in the index. */
  lemma {:induction false} RowStepsRun(w: World, x: nat, ids: seq<string>) returns (w': World)
    requires x in w.reindexes && w.reindexes[x].cleared
    requires Lists(ids, w.reindexes[x].pending.Keys)
    ensures Run(w, RowSteps(x, ids)) == Some(w') && w'.mailboxes == w.mailboxes
    ensures var r := w.reindexes[x];
            && (forall k :: k in w'.index <==> k in w.index || (k.0 == r.mailbox && k.1 in r.pending))
            && (forall k | k in w'.index :: w'.index[k] ==
                  if k.0 == r.mailbox && k.1 in r.pending then r.pending[k.1] else w.index[k])
    decreases |ids|
  {
    var r := w.reindexes[x];
    if ids == [] {
      w' := w;
    } else {
      assert ids[0] in r.pending.Keys;
      var r1 := r.(pending := r.pending - {ids[0]});
      var w1 := w.(index := w.index[(r.mailbox, ids[0]) := r.pending[ids[0]]],
                   reindexes := w.reindexes[x := r1]);
      assert Apply(w, ReindexRow(x, ids[0])) == Some(w1);
      forall k ensures k in ids[1..] <==> k in r1.pending.Keys {
        assert k in ids <==> k == ids[0] || k in ids[1..];
      }
      w' := RowStepsRun(w1, x, ids[1..]);
      assert RowSteps(x, ids)[0] == ReindexRow(x, ids[0]);
      assert RowSteps(x, ids)[1..] == RowSteps(x, ids[1..]);
    }
  }

  /** Clearing the mailbox's rows and writing its export over what is left. */
  lemma ExportWritten(before: map<IndexKey, IndexRow>, mailbox: string, box: Mailbox, after: map<IndexKey, IndexRow>)
    requires var kept, pending := WithoutMailbox(before, mailbox), Export(box);
             && (forall k :: k in after <==> k in kept || (k.0 == mailbox && k.1 in pending))
             && (forall k | k in after ::
                   after[k] == if k.0 == mailbox && k.1 in pending then pending[k.1] else kept[k])
    ensures Rebuilt(before, mailbox, box, after)
  {}

  /** Export and clear: the two steps before the rows. */
  lemma ReindexBegun(w: World, x: nat, mailbox: string) returns (w': World)
    requires x !in w.reindexes
    ensures Run(w, [StartReindex(x, mailbox), ClearIndex(x)]) == Some(w')
    ensures w'.index == WithoutMailbox(w.index, mailbox) && w'.mailboxes == w.mailboxes
    ensures x in w'.reindexes && w'.reindexes[x] == Reindexing(mailbox, true, Export(BoxOf(w.mailboxes, mailbox)))
  {
    var r := Reindexing(mailbox, false, Export(BoxOf(w.mailboxes, mailbox)));
    var w1 := w.(reindexes := w.reindexes[x := r]);
    w' := w1.(index := WithoutMailbox(w.index, mailbox),
              reindexes := w1.reindexes[x := r.(cleared := true)]);
    var steps := [StartReindex(x, mailbox), ClearIndex(x)];
    assert Apply(w, steps[0]) == Some(w1);
    assert steps[1..] == [ClearIndex(x)] && Apply(w1, ClearIndex(x)) == Some(w');
    assert Run(w', []) == Some(w') && Run(w1, [ClearIndex(x)]) == Run(w', [ClearIndex(x)][1..]);
  }

  /** From any state at all, an undisturbed reindex makes the mailbox's rows exactly its export. */
  lemma QuiescentReindexIsExact(w: World, x: nat, mailbox: string, ids: seq<string>)
    requires x !in w.reindexes && Lists(ids, BoxOf(w.mailboxes, mailbox).messages.Keys)
    ensures Run(w, ReindexSchedule(x, mailbox, ids)).Some?
    ensures Rebuilt(w.index, mailbox, BoxOf(w.mailboxes, mailbox),
                    Run(w, ReindexSchedule(x, mailbox, ids)).value.index)
  {
    var w1 := ReindexBegun(w, x, mailbox);
    assert Export(BoxOf(w.mailboxes, mailbox)).Keys == BoxOf(w.mailboxes, mailbox).messages.Keys;
    var w' := RowStepsRun(w1, x, ids);
    RunConcat(w, [StartReindex(x, mailbox), ClearIndex(x)], RowSteps(x, ids));
    ExportWritten(w.index, mailbox, BoxOf(w.mailboxes, mailbox), w'.index);
  }

  lemma FiledStep(w: World, mailbox: string, localId: string, state: string) returns (w': World)
    requires localId in BoxOf(w.mailboxes, mailbox).messages
    ensures Apply(w, FileMessage(mailbox, localId, state)) == Some(w')
    ensures w'.reindexes == w.reindexes && w'.index == w.index
    ensures BoxOf(w'.mailboxes, mailbox).messages.Keys == BoxOf(w.mailboxes, mailbox).messages.Keys
    ensures BoxOf(w'.mailboxes, mailbox).messages[localId] ==
            BoxOf(w.mailboxes, mailbox).messages[localId].(state := state)
    ensures forall l | l in BoxOf(w.mailboxes, mailbox).messages && l != localId ::
              BoxOf(w'.mailboxes, mailbox).messages[l] == BoxOf(w.mailboxes, mailbox).messages[l]
  {
    w' := w.(mailboxes := SetBox(w.mailboxes, mailbox, Filed(BoxOf(w.mailboxes, mailbox), localId, state)));
  }

  /**
   * A message its reader moved to another folder is in that folder after a reindex, with the rest of its row and
   * every other row of the mailbox as the messages have them.
   */
  lemma FiledThenReindexed(w: World, x: nat, mailbox: string, ids: seq<string>, localId: string, state: string)
    returns (w': World)
    requires x !in w.reindexes && Lists(ids, BoxOf(w.mailboxes, mailbox).messages.Keys)
    requires localId in BoxOf(w.mailboxes, mailbox).messages
    ensures Run(w, [FileMessage(mailbox, localId, state)] + ReindexSchedule(x, mailbox, ids)) == Some(w')
    ensures (mailbox, localId) in w'.index
    ensures var row, m := w'.index[(mailbox, localId)], BoxOf(w.mailboxes, mailbox).messages[localId];
            && row.state == state
            && row.thread == m.thread && row.receivedAt == m.receivedAt && row.rawKey == m.rawKey && row.sha == m.sha
    ensures forall l | l in BoxOf(w.mailboxes, mailbox).messages && l != localId ::
              (mailbox, l) in w'.index
              && ShowsMessage(w'.index[(mailbox, l)], BoxOf(w.mailboxes, mailbox).messages[l])
  {
    var w1 := FiledStep(w, mailbox, localId, state);
    QuiescentReindexIsExact(w1, x, mailbox, ids);
    w' := Run(w1, ReindexSchedule(x, mailbox, ids)).value;
    var steps := [FileMessage(mailbox, localId, state)] + ReindexSchedule(x, mailbox, ids);
    assert steps[0] == FileMessage(mailbox, localId, state) && steps[1..] == ReindexSchedule(x, mailbox, ids);
  }
}
