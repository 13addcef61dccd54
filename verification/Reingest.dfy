/**
 * scripts/reingest-mailbox.ts: rebuilding a mailbox by replaying its raw messages through the
 * inbound pipeline. Between any two of the script's own steps the platform makes any number of
 * deliveries and delivery steps, failing and redelivering as it likes.
 */
module Reingest {
  import opened Common
  import opened Pipeline
  import opened History
  import A = Audit
  import C = Consumer
  import I = Idempotency
  import PS = PipelineSafety

  // ---------------------------------------------------------------- classification

  /** A `message_index` row of the source database, with the Message-ID it stores. */
  datatype SourceRow = SourceRow(
    id: string, thread: string, state: string, labels: string, rawKey: string, sha: string,
    messageId: Option<string>, receivedAt: string)

  /** A raw object: its hash, the Message-ID its MIME carries, the size of its queue payload. */
  datatype RawObject = RawObject(sha: string, messageId: Option<string>, payloadBytes: nat)

  datatype Candidate = Candidate(row: SourceRow, payload: Payload)

  datatype Reason = NoObject | HashMismatch(actual: string) | TooLarge(bytes: nat)

  datatype Refusal = Refusal(row: SourceRow, reason: Reason)

  predicate Replayable(row: SourceRow, objects: map<string, RawObject>) {
    && row.rawKey in objects
    && objects[row.rawKey].sha == row.sha
    && objects[row.rawKey].payloadBytes <= C.MAX_QUEUE_BYTES
  }

  /** The payload the email handler would have built: the index's Message-ID wins over the MIME's. */
  function PayloadFor(mailbox: string, row: SourceRow, obj: RawObject): Payload {
    var indexed := I.NormalizeMessageId(row.messageId);
    var messageId := if indexed.Some? then indexed else I.NormalizeMessageId(obj.messageId);
    Payload(mailbox, row.rawKey, row.sha, I.InboundIdempotencyKey(mailbox, messageId, row.sha),
            row.receivedAt)
  }

  /** The payload repeats the row, under the key of the index's Message-ID, or of the MIME's if the index has none. */
  ghost predicate Replays(p: Payload, mailbox: string, row: SourceRow, obj: RawObject) {
    && p.mailbox == mailbox && p.rawKey == row.rawKey && p.sha == row.sha && p.receivedAt == row.receivedAt
    && match I.NormalizeMessageId(row.messageId)
       case Some(id) => p.idem == I.InboundIdempotencyKey(mailbox, Some(id), row.sha)
       case None => p.idem == I.InboundIdempotencyKey(mailbox, I.NormalizeMessageId(obj.messageId), row.sha)
  }

  ghost predicate AllReplay(cands: seq<Candidate>, mailbox: string, objects: map<string, RawObject>) {
    forall i | 0 <= i < |cands| ::
      var row := cands[i].row;
      && row.rawKey in objects && objects[row.rawKey].sha == row.sha
      && objects[row.rawKey].payloadBytes <= C.MAX_QUEUE_BYTES
      && Replays(cands[i].payload, mailbox, row, objects[row.rawKey])
  }

  function Candidates(mailbox: string, rows: seq<SourceRow>, objects: map<string, RawObject>)
    : seq<Candidate>
  {
    if rows == [] then []
    else
      var n := |rows| - 1;
      Candidates(mailbox, rows[..n], objects)
      + (if Replayable(rows[n], objects)
         then [Candidate(rows[n], PayloadFor(mailbox, rows[n], objects[rows[n].rawKey]))] else [])
  }

  /** The reason given for refusing a row is the first test it fails. */
  predicate Explains(r: Refusal, objects: map<string, RawObject>) {
    match r.reason
    case NoObject => r.row.rawKey !in objects
    case HashMismatch(actual) =>
      r.row.rawKey in objects && objects[r.row.rawKey].sha == actual && actual != r.row.sha
    case TooLarge(bytes) =>
      && r.row.rawKey in objects && objects[r.row.rawKey].sha == r.row.sha
      && objects[r.row.rawKey].payloadBytes == bytes && bytes > C.MAX_QUEUE_BYTES
  }

  /**
   * Every row up to the limit is either replayed or refused with the reason, in order; the scan
   * stops early only once the limit is reached.
   */
  method Classify(mailbox: string, rows: seq<SourceRow>, objects: map<string, RawObject>,
                  limit: Option<nat>)
    returns (rebuildable: seq<Candidate>, refused: seq<Refusal>, scanned: nat)
    ensures scanned <= |rows| && rebuildable == Candidates(mailbox, rows[..scanned], objects)
    ensures |rebuildable| + |refused| == scanned && AllReplay(rebuildable, mailbox, objects)
    ensures forall i | 0 <= i < |refused| :: Explains(refused[i], objects)
    ensures forall i | 0 <= i < scanned :: Replayable(rows[i], objects) ||
              exists j | 0 <= j < |refused| :: refused[j].row == rows[i]
    ensures limit.Some? ==> |rebuildable| <= limit.value
    ensures scanned < |rows| ==> limit == Some(|rebuildable|)
  {
    rebuildable, refused, scanned := [], [], 0;
    while scanned < |rows|
      invariant scanned <= |rows| && rebuildable == Candidates(mailbox, rows[..scanned], objects)
      invariant |rebuildable| + |refused| == scanned && AllReplay(rebuildable, mailbox, objects)
      invariant forall i | 0 <= i < |refused| :: Explains(refused[i], objects)
      invariant forall i | 0 <= i < scanned :: Replayable(rows[i], objects) ||
                  exists j | 0 <= j < |refused| :: refused[j].row == rows[i]
      invariant limit.Some? ==> |rebuildable| <= limit.value
    {
      if limit.Some? && |rebuildable| >= limit.value { break; }
      var row := rows[scanned];
      assert rows[..scanned + 1][..scanned] == rows[..scanned];
      ghost var before := refused;
      if row.rawKey !in objects {
        refused := refused + [Refusal(row, NoObject)];
      } else if objects[row.rawKey].sha != row.sha {
        refused := refused + [Refusal(row, HashMismatch(objects[row.rawKey].sha))];
      } else if objects[row.rawKey].payloadBytes > C.MAX_QUEUE_BYTES {
        refused := refused + [Refusal(row, TooLarge(objects[row.rawKey].payloadBytes))];
      } else {
        rebuildable := rebuildable + [Candidate(row, PayloadFor(mailbox, row, objects[row.rawKey]))];
      }
      assert forall j | 0 <= j < |before| :: refused[j] == before[j];
      assert !Replayable(row, objects) ==> refused[|refused| - 1].row == row;
      scanned := scanned + 1;
    }
  }

  // ---------------------------------------------------------------- the platform between two polls

  /** Whatever the platform attempts: a step that is not enabled does not happen. */
  function Drive(w: World, steps: seq<Step>): World
    decreases |steps|
  {
    if steps == [] then w
    else Drive(match Apply(w, steps[0]) case Some(w') => w' case None => w, steps[1..])
  }

  function DriveAll(w: World, polls: seq<seq<Step>>): World
    decreases |polls|
  {
    if polls == [] then w else DriveAll(Drive(w, polls[0]), polls[1..])
  }

  ghost predicate Deliveries(steps: seq<Step>) {
    forall i | 0 <= i < |steps| :: steps[i].Deliver? || steps[i].Act?
  }

  /** The processed rows say what the ledger says. */
  ghost predicate EventsFaithful(events: map<string, EventRow>, boxes: Boxes) {
    forall k | k in events && events[k].status == Processed ::
      && events[k].localId.Some?
      && k in BoxOf(boxes, events[k].mailbox).ledger
      && BoxOf(boxes, events[k].mailbox).ledger[k].localId == events[k].localId.value
  }

  /** The messages all come from the given payloads. */
  ghost predicate BoxFrom(box: Mailbox, ps: set<Payload>) {
    forall l | l in box.messages ::
      exists p :: p in ps && p.idem == box.messages[l].idem && p.rawKey == box.messages[l].rawKey
                  && p.sha == box.messages[l].sha
  }

  /** The mailbox's rows are as an arriving message leaves them. */
  ghost predicate IndexArrived(index: map<IndexKey, IndexRow>, mailbox: string) {
    forall k | k in index && k.0 == mailbox :: index[k].state == "inbox" && index[k].labels == "[]"
  }

  /** The mailbox's index rows are those its deliveries wrote. */
  ghost predicate RowsLogged(index: map<IndexKey, IndexRow>, log: seq<Effect>, mailbox: string) {
    forall l :: (mailbox, l) in index <==> WroteRow(log, (mailbox, l))
  }

  predicate HasIdem(ps: set<Payload>, idem: string) {
    exists p | p in ps :: p.idem == idem
  }

  /** The mailbox, and the idempotency keys of the replay, belong to the replay alone. */
  ghost predicate QueueFrom(queue: set<Payload>, mailbox: string, ps: set<Payload>) {
    && (forall p | p in ps :: p.mailbox == mailbox)
    && (forall p | p in queue && (p.mailbox == mailbox || HasIdem(ps, p.idem)) :: p in ps)
  }

  ghost predicate EventsOf(events: map<string, EventRow>, mailbox: string, ps: set<Payload>) {
    forall k | k in events && HasIdem(ps, k) :: events[k].mailbox == mailbox
  }

  ghost predicate Replaying(w: World, mailbox: string, ps: set<Payload>) {
    && Inv(w)
    && EventsFaithful(w.events, w.mailboxes)
    && QueueFrom(w.queue, mailbox, ps)
    && BoxFrom(BoxOf(w.mailboxes, mailbox), ps)
    && EventsOf(w.events, mailbox, ps)
  }

  /** No folder of the mailbox has been restored yet: its rows are as its deliveries wrote them. */
  ghost predicate Unrestored(w: World, mailbox: string) {
    IndexArrived(w.index, mailbox) && RowsLogged(w.index, w.log, mailbox)
  }

  /** A target nothing has reached yet is ready for any replay. */
  lemma FreshTarget(w: World, mailbox: string, ps: set<Payload>)
    requires Fresh(w) && forall p | p in ps :: p.mailbox == mailbox
    ensures Replaying(w, mailbox, ps) && Unrestored(w, mailbox)
  {}

  // ---------------------------------------------------------------- one delivery step

  lemma ActEvents(d: nat, dv: Delivery, box: Mailbox, stored: bool, action: Action, c: Change)
    requires Perform(d, dv, box, stored, action) == Some(c) && DeliveryHolds(box, dv)
    ensures c.events == map[] || (c.box == box && dv.answer.Some?
              && c.events == map[dv.p.idem := EventFor(dv.p, dv.answer.value)])
  {}

  lemma ActBox(d: nat, dv: Delivery, box: Mailbox, stored: bool, action: Action, c: Change)
    requires Perform(d, dv, box, stored, action) == Some(c)
    ensures c.dv.p == dv.p
    ensures c.box == box || (action.Commit? && c.box ==
              WithMessage(box, dv.p, action.localId, NewMessage(dv.p, action.thread, action.parses)))
  {}

  lemma RowsLoggedOn(index: map<IndexKey, IndexRow>, more: map<IndexKey, IndexRow>,
                     log: seq<Effect>, extra: seq<Effect>, mailbox: string)
    requires RowsLogged(index, log, mailbox)
    requires forall l :: (mailbox, l) in more <==> WroteRow(extra, (mailbox, l))
    ensures RowsLogged(index + more, log + extra, mailbox)
  {
    forall l ensures (mailbox, l) in index + more <==> WroteRow(log + extra, (mailbox, l)) {
      WroteConcat(log, extra, (mailbox, l));
    }
  }

  lemma ActReplaying(w: World, mailbox: string, ps: set<Payload>, d: nat, action: Action, c: Change)
    requires Replaying(w, mailbox, ps) && d in w.deliveries && Performed(w, d, action) == Some(c)
    ensures Replaying(Changed(w, d, c), mailbox, ps)
    ensures Grows(w.mailboxes, Changed(w, d, c).mailboxes)
  {
    var dv := w.deliveries[d];
    var box := BoxOf(w.mailboxes, dv.p.mailbox);
    assert DeliveryHolds(box, dv) && dv.p in w.queue;
    ActKept(w, d, action, c);
    ActionKept(d, dv, box, dv.p.rawKey in w.r2, action, c);
    OneBoxGrows(w.mailboxes, dv.p.mailbox, c.box);
    ActBox(d, dv, box, dv.p.rawKey in w.r2, action, c);
    ActEvents(d, dv, box, dv.p.rawKey in w.r2, action, c);
    ActKeepsEvents(w.events, w.mailboxes, Changed(w, d, c).mailboxes, dv.p, c.events, dv.answer);
    ActKeepsSources(w, mailbox, ps, d, c, action);
  }

  lemma ActUnrestored(w: World, mailbox: string, d: nat, action: Action, c: Change)
    requires Inv(w) && Unrestored(w, mailbox) && d in w.deliveries && Performed(w, d, action) == Some(c)
    ensures Unrestored(Changed(w, d, c), mailbox)
  {
    var dv := w.deliveries[d];
    var box := BoxOf(w.mailboxes, dv.p.mailbox);
    assert DeliveryHolds(box, dv);
    ActionRows(d, dv, box, dv.p.rawKey in w.r2, action, c);
    forall l ensures (mailbox, l) in c.index <==> WroteRow(c.log, (mailbox, l)) {
      ActionWrites(d, dv, box, dv.p.rawKey in w.r2, action, c, (mailbox, l));
    }
    RowsLoggedOn(w.index, c.index, w.log, c.log, mailbox);
  }

  lemma ActKeepsEvents(events: map<string, EventRow>, boxes: Boxes, boxes': Boxes, p: Payload,
                       more: map<string, EventRow>, answer: Option<Answer>)
    requires EventsFaithful(events, boxes) && Grows(boxes, boxes')
    requires more == map[] || (answer.Some? && more == map[p.idem := EventFor(p, answer.value)]
               && AnswerHolds(BoxOf(boxes', p.mailbox), p, answer.value))
    ensures EventsFaithful(events + more, boxes')
  {}

  lemma ActKeepsSources(w: World, mailbox: string, ps: set<Payload>, d: nat, c: Change, action: Action)
    requires d in w.deliveries && w.deliveries[d].p in w.queue && c.dv.p == w.deliveries[d].p
    requires QueueFrom(w.queue, mailbox, ps) && BoxFrom(BoxOf(w.mailboxes, mailbox), ps)
    requires EventsOf(w.events, mailbox, ps)
    requires var p := w.deliveries[d].p; var box := BoxOf(w.mailboxes, p.mailbox);
             && (c.box == box || (action.Commit? && c.box ==
                   WithMessage(box, p, action.localId, NewMessage(p, action.thread, action.parses))))
             && (c.events == map[] || exists a :: c.events == map[p.idem := EventFor(p, a)])
    ensures BoxFrom(BoxOf(Changed(w, d, c).mailboxes, mailbox), ps)
    ensures EventsOf(w.events + c.events, mailbox, ps)
  {}

  lemma StepReplaying(w: World, mailbox: string, ps: set<Payload>, s: Step, w': World)
    requires Replaying(w, mailbox, ps) && (s.Deliver? || s.Act?) && Apply(w, s) == Some(w')
    ensures Replaying(w', mailbox, ps) && (Unrestored(w, mailbox) ==> Unrestored(w', mailbox))
    ensures Grows(w.mailboxes, w'.mailboxes) && w'.r2 == w.r2 && w'.queue == w.queue
  {
    match s
    case Deliver(d, p) => DeliverKept(w, d, p);
    case Act(d, action) =>
      ActReplaying(w, mailbox, ps, d, action, Performed(w, d, action).value);
      if Unrestored(w, mailbox) { ActUnrestored(w, mailbox, d, action, Performed(w, d, action).value); }
  }

  lemma GrowsOn(a: Boxes, b: Boxes, c: Boxes)
    requires Grows(a, b) && Grows(b, c)
    ensures Grows(a, c)
  {}

  lemma {:induction false} DriveReplaying(w: World, mailbox: string, ps: set<Payload>, steps: seq<Step>)
    requires Replaying(w, mailbox, ps) && Deliveries(steps)
    ensures Replaying(Drive(w, steps), mailbox, ps)
    ensures Unrestored(w, mailbox) ==> Unrestored(Drive(w, steps), mailbox)
    ensures Grows(w.mailboxes, Drive(w, steps).mailboxes) && Drive(w, steps).r2 == w.r2
    decreases |steps|
  {
    if steps != [] {
      var next := Apply(w, steps[0]);
      if next.Some? { StepReplaying(w, mailbox, ps, steps[0], next.value); }
      var w1 := if next.Some? then next.value else w;
      DriveReplaying(w1, mailbox, ps, steps[1..]);
      GrowsOn(w.mailboxes, w1.mailboxes, Drive(w1, steps[1..]).mailboxes);
    }
  }

  /** Publishing a candidate: the pipeline's Replay step. */
  lemma PublishReplaying(w: World, mailbox: string, ps: set<Payload>, p: Payload)
    requires Replaying(w, mailbox, ps) && p in ps && p.rawKey in w.r2 && w.r2[p.rawKey] == p.sha
    ensures Apply(w, Replay(p)) == Some(w.(queue := w.queue + {p}))
    ensures Replaying(w.(queue := w.queue + {p}), mailbox, ps)
  {
    StepKept(w, Replay(p), w.(queue := w.queue + {p}));
  }

  /** What the platform did of what it attempted. */
  function Enabled(w: World, steps: seq<Step>): seq<Step>
    decreases |steps|
  {
    if steps == [] then []
    else match Apply(w, steps[0])
         case Some(w') => [steps[0]] + Enabled(w', steps[1..])
         case None => Enabled(w, steps[1..])
  }

  lemma {:induction false} EnabledRuns(w: World, steps: seq<Step>)
    ensures Run(w, Enabled(w, steps)) == Some(Drive(w, steps))
    ensures forall s | s in Enabled(w, steps) :: s in steps
    decreases |steps|
  {
    if steps != [] {
      EnabledRuns(match Apply(w, steps[0]) case Some(w') => w' case None => w, steps[1..]);
      if Apply(w, steps[0]).Some? {
        assert Enabled(w, steps)[1..] == Enabled(Apply(w, steps[0]).value, steps[1..]);
      }
    }
  }

  function EnabledAll(w: World, polls: seq<seq<Step>>): seq<Step>
    decreases |polls|
  {
    if polls == [] then [] else Enabled(w, polls[0]) + EnabledAll(Drive(w, polls[0]), polls[1..])
  }

  lemma {:induction false} EnabledAllRuns(w: World, polls: seq<seq<Step>>)
    ensures Run(w, EnabledAll(w, polls)) == Some(DriveAll(w, polls))
    ensures forall s | s in EnabledAll(w, polls) :: exists i | 0 <= i < |polls| :: s in polls[i]
    decreases |polls|
  {
    if polls != [] {
      EnabledRuns(w, polls[0]);
      EnabledAllRuns(Drive(w, polls[0]), polls[1..]);
      RunConcat(w, Enabled(w, polls[0]), EnabledAll(Drive(w, polls[0]), polls[1..]));
      forall s | s in EnabledAll(w, polls) ensures exists i | 0 <= i < |polls| :: s in polls[i] {
        if s in Enabled(w, polls[0]) {
          assert s in polls[0];
        } else {
          var i :| 0 <= i < |polls[1..]| && s in polls[1..][i];
          assert polls[i + 1] == polls[1..][i];
        }
      }
    }
  }

  // ---------------------------------------------------------------- the replay loop

  /** How publishing one candidate goes, and what the platform does before each poll. */
  datatype Turn = Turn(sent: bool, failed: bool, polls: seq<seq<Step>>)

  datatype Outcome =
    | Skipped(newId: Option<string>)
    | PushFailed
    | Unverified(prior: string)
    | TimedOut
    | Conflicted
    | DuplicateOf(newId: Option<string>)
    | InsertedAs(newId: Option<string>)

  /** A row of the ingest log this run may take for its own: not the one it found before pushing. */
  predicate Settles(events: map<string, EventRow>, idem: string, prior: Option<string>) {
    idem in events && (prior.None? || events[idem].localId != prior)
  }

  function PriorId(already: map<string, EventRow>, idem: string): Option<string> {
    if idem in already then already[idem].localId else None
  }

  /** Poll until a settling row shows or the polls run out. */
  method Await(w: World, idem: string, prior: Option<string>, polls: seq<seq<Step>>)
    returns (settled: Option<EventRow>, w': World, n: nat)
    ensures n <= |polls| && w' == DriveAll(w, polls[..n])
    ensures settled.Some? <==> n > 0 && Settles(w'.events, idem, prior)
    ensures settled.Some? ==> settled.value == w'.events[idem]
    ensures settled.None? ==> n == |polls|
    ensures forall m | 0 < m < n :: !Settles(DriveAll(w, polls[..m]).events, idem, prior)
  {
    settled, w', n := None, w, 0;
    assert polls[..0] == [];
    while n < |polls|
      invariant n <= |polls| && w' == DriveAll(w, polls[..n]) && settled.None?
      invariant forall m | 0 < m <= n :: !Settles(DriveAll(w, polls[..m]).events, idem, prior)
    {
      DriveAllSnoc(w, polls[..n], polls[n]);
      assert polls[..n + 1] == polls[..n] + [polls[n]];
      w' := Drive(w', polls[n]);
      n := n + 1;
      if idem in w'.events {
        var row := w'.events[idem];
        if prior.None? || row.localId != prior {
          settled := Some(row);
          break;
        }
      }
    }
  }

  lemma {:induction false} DriveAllSnoc(w: World, polls: seq<seq<Step>>, last: seq<Step>)
    ensures DriveAll(w, polls + [last]) == Drive(DriveAll(w, polls), last)
    decreases |polls|
  {
    if polls == [] {
      assert [] + [last] == [last] && [last][1..] == [];
    } else {
      assert (polls + [last])[0] == polls[0] && (polls + [last])[1..] == polls[1..] + [last];
      DriveAllSnoc(Drive(w, polls[0]), polls[1..], last);
    }
  }

  lemma {:induction false} DriveAllReplaying(w: World, mailbox: string, ps: set<Payload>,
                                             polls: seq<seq<Step>>)
    requires Replaying(w, mailbox, ps) && forall i | 0 <= i < |polls| :: Deliveries(polls[i])
    ensures Replaying(DriveAll(w, polls), mailbox, ps)
    ensures Unrestored(w, mailbox) ==> Unrestored(DriveAll(w, polls), mailbox)
    ensures Grows(w.mailboxes, DriveAll(w, polls).mailboxes) && DriveAll(w, polls).r2 == w.r2
    decreases |polls|
  {
    if polls != [] {
      DriveReplaying(w, mailbox, ps, polls[0]);
      DriveAllReplaying(Drive(w, polls[0]), mailbox, ps, polls[1..]);
      GrowsOn(w.mailboxes, Drive(w, polls[0]).mailboxes, DriveAll(w, polls).mailboxes);
    }
  }

  /** No step removes a row from the ingest log. */
  lemma StepKeepsEvents(w: World, s: Step, w': World)
    requires Apply(w, s) == Some(w')
    ensures w.events.Keys <= w'.events.Keys
  {}

  lemma {:induction false} DriveKeepsEvents(w: World, steps: seq<Step>)
    ensures w.events.Keys <= Drive(w, steps).events.Keys
    decreases |steps|
  {
    if steps != [] {
      var next := Apply(w, steps[0]);
      if next.Some? { StepKeepsEvents(w, steps[0], next.value); }
      DriveKeepsEvents(if next.Some? then next.value else w, steps[1..]);
    }
  }

  lemma {:induction false} DriveAllKeepsEvents(w: World, polls: seq<seq<Step>>)
    ensures w.events.Keys <= DriveAll(w, polls).events.Keys
    decreases |polls|
  {
    if polls != [] {
      DriveKeepsEvents(w, polls[0]);
      DriveAllKeepsEvents(Drive(w, polls[0]), polls[1..]);
    }
  }

  /** What an outcome says of the ingest log as it was read before anything was pushed. */
  ghost predicate Reported(o: Outcome, idem: string, already: map<string, EventRow>, force: bool) {
    && (o.Skipped? <==> !force && idem in already)
    && (o.Skipped? ==> o.newId == already[idem].localId)
    && (o.Unverified? ==> PriorId(already, idem) == Some(o.prior))
    && (o.TimedOut? ==> PriorId(already, idem) == None)
  }

  /** What it says about the mailbox besides, true from the moment it is reported. */
  ghost predicate Told(o: Outcome, idem: string, box: Mailbox, already: map<string, EventRow>, force: bool) {
    && Reported(o, idem, already, force)
    && !o.DuplicateOf?
    && (o.InsertedAs? ==>
          && o.newId.Some? && o.newId != PriorId(already, idem)
          && idem in box.ledger && box.ledger[idem].localId == o.newId.value)
  }

  lemma ToldCarried(o: Outcome, idem: string, box: Mailbox, box': Mailbox,
                    already: map<string, EventRow>, force: bool)
    requires Told(o, idem, box, already, force) && BoxGrows(box, box')
    ensures Told(o, idem, box', already, force)
  {}

  predicate InPs(c: Candidate, ps: set<Payload>, r2: map<string, string>) {
    c.payload in ps && c.payload.rawKey in r2 && r2[c.payload.rawKey] == c.payload.sha
  }

  /** The steps between two polls are deliveries and their actions, nothing else. */
  ghost predicate Calm(turn: Turn) {
    forall i | 0 <= i < |turn.polls| :: Deliveries(turn.polls[i])
  }

  /** The target is this replay's alone, and the candidate is one of its own. */
  ghost predicate Undisturbed(w: World, c: Candidate, turn: Turn, mailbox: string, ps: set<Payload>) {
    Replaying(w, mailbox, ps) && InPs(c, ps, w.r2) && Calm(turn)
  }

  /** A step of the replay: its own publishing, or what the platform did before a poll of the turn. */
  ghost predicate OwnStep(s: Step, turn: Turn) {
    s.Replay? || ((s.Deliver? || s.Act?) && exists i | 0 <= i < |turn.polls| :: s in turn.polls[i])
  }

  /** What an undisturbed turn leaves: still a replay of the same candidates, by steps of its own. */
  ghost predicate TurnTaken(w: World, w': World, turn: Turn, mailbox: string, ps: set<Payload>, ran: seq<Step>) {
    && Replaying(w', mailbox, ps) && (Unrestored(w, mailbox) ==> Unrestored(w', mailbox))
    && Grows(w.mailboxes, w'.mailboxes) && w'.r2 == w.r2
    && Run(w, ran) == Some(w') && forall s | s in ran :: OwnStep(s, turn)
  }

  lemma PolledTurn(w: World, c: Candidate, turn: Turn, n: nat, mailbox: string, ps: set<Payload>)
    returns (ran: seq<Step>)
    requires Undisturbed(w, c, turn, mailbox, ps) && n <= |turn.polls|
    ensures TurnTaken(w, DriveAll(w.(queue := w.queue + {c.payload}), turn.polls[..n]), turn, mailbox, ps, ran)
  {
    var w1, polls := w.(queue := w.queue + {c.payload}), turn.polls[..n];
    PublishReplaying(w, mailbox, ps, c.payload);
    DriveAllReplaying(w1, mailbox, ps, polls);
    EnabledAllRuns(w1, polls);
    ran := [Replay(c.payload)] + EnabledAll(w1, polls);
    assert ran[1..] == EnabledAll(w1, polls);
    forall s | s in ran ensures OwnStep(s, turn) {
      if s in EnabledAll(w1, polls) {
        var i :| 0 <= i < |polls| && s in polls[i];
        assert Deliveries(turn.polls[i]) && s in turn.polls[i];
      }
    }
  }

  /** The first poll after which a row settles the wait. */
  ghost predicate SettlesAt(w: World, idem: string, prior: Option<string>, polls: seq<seq<Step>>, n: nat)
    requires n <= |polls|
  {
    && 0 < n && Settles(DriveAll(w, polls[..n]).events, idem, prior)
    && forall m | 0 < m < n :: !Settles(DriveAll(w, polls[..m]).events, idem, prior)
  }

  /** A settled row is reported by its status, and by whether its id is new. */
  ghost predicate ReportsRow(o: Outcome, row: EventRow, prior: Option<string>) {
    match row.status
    case Failed => o == Conflicted
    case Processed => o == if row.localId == prior then DuplicateOf(row.localId) else InsertedAs(row.localId)
  }

  /** What pushing a candidate reports and leaves: the row that settles first decides, if one does. */
  ghost predicate Pushed(o: Outcome, w: World, w': World, c: Candidate, prior: Option<string>, turn: Turn) {
    var w1 := w.(queue := w.queue + {c.payload});
    if turn.failed then o == PushFailed && w' == if turn.sent then w1 else w
    else
      && (forall n: nat | n <= |turn.polls| && SettlesAt(w1, c.payload.idem, prior, turn.polls, n) ::
            w' == DriveAll(w1, turn.polls[..n]) && ReportsRow(o, w'.events[c.payload.idem], prior))
      && ((forall n: nat | n <= |turn.polls| :: !SettlesAt(w1, c.payload.idem, prior, turn.polls, n)) ==>
            w' == DriveAll(w1, turn.polls) && o == if prior.Some? then Unverified(prior.value) else TimedOut)
  }

  /** A candidate's turn: skipped when the ingest log first read has its key, pushed otherwise. */
  ghost predicate Turned(o: Outcome, w: World, w': World, c: Candidate, already: map<string, EventRow>, force: bool,
                         turn: Turn)
  {
    if !force && c.payload.idem in already then o == Skipped(already[c.payload.idem].localId) && w' == w
    else Pushed(o, w, w', c, PriorId(already, c.payload.idem), turn)
  }

  /** The wait that ended after n polls. */
  lemma WaitEnded(o: Outcome, w: World, w': World, c: Candidate, prior: Option<string>, turn: Turn, n: nat)
    requires !turn.failed && n <= |turn.polls|
    requires var w1 := w.(queue := w.queue + {c.payload});
             && w' == DriveAll(w1, turn.polls[..n])
             && (forall m | 0 < m < n :: !Settles(DriveAll(w1, turn.polls[..m]).events, c.payload.idem, prior))
             && if n > 0 && Settles(w'.events, c.payload.idem, prior)
                then ReportsRow(o, w'.events[c.payload.idem], prior)
                else n == |turn.polls| && o == if prior.Some? then Unverified(prior.value) else TimedOut
    ensures Pushed(o, w, w', c, prior, turn)
  {
    var w1, idem, polls := w.(queue := w.queue + {c.payload}), c.payload.idem, turn.polls;
    assert polls[..|polls|] == polls;
    if n > 0 && Settles(w'.events, idem, prior) {
      assert SettlesAt(w1, idem, prior, polls, n);
      forall k: nat | k <= |polls| && SettlesAt(w1, idem, prior, polls, k) ensures k == n {}
    } else {
      forall k: nat | k <= |polls| ensures !SettlesAt(w1, idem, prior, polls, k) {}
    }
  }

  /** Publish one candidate and wait for a row that was not there before. */
  method PushOne(w: World, c: Candidate, prior: Option<string>, turn: Turn, mailbox: string, ghost ps: set<Payload>)
    returns (o: Outcome, w': World, ghost ran: seq<Step>)
    ensures !o.Skipped? && (o.PushFailed? <==> turn.failed) && w.events.Keys <= w'.events.Keys
    ensures (o.Unverified? ==> prior == Some(o.prior)) && (o.TimedOut? ==> prior == None)
    ensures o.Conflicted? ==> c.payload.idem in w'.events && w'.events[c.payload.idem].status == Failed
    ensures o.InsertedAs? || o.DuplicateOf? ==>
              c.payload.idem in w'.events && w'.events[c.payload.idem].status == Processed
              && w'.events[c.payload.idem].localId == o.newId
    ensures (o.DuplicateOf? ==> o.newId == prior) && (o.InsertedAs? ==> o.newId != prior)
    ensures o.DuplicateOf? ==> prior == None
    ensures Pushed(o, w, w', c, prior, turn)
    ensures Undisturbed(w, c, turn, mailbox, ps) ==> TurnTaken(w, w', turn, mailbox, ps, ran)
  {
    w', ran := w, [];
    if turn.sent || !turn.failed { w' := w.(queue := w.queue + {c.payload}); }
    if turn.failed {
      ran := UnpolledTurn(w, c, turn, w', mailbox, ps);
      return PushFailed, w', ran;
    }
    var settled, n;
    ghost var w1 := w';
    settled, w', n := Await(w', c.payload.idem, prior, turn.polls);
    DriveAllKeepsEvents(w1, turn.polls[..n]);
    if Undisturbed(w, c, turn, mailbox, ps) { ran := PolledTurn(w, c, turn, n, mailbox, ps); }
    if settled.None? {
      o := if prior.Some? then Unverified(prior.value) else TimedOut;
    } else if settled.value.status == Failed {
      o := Conflicted;
    } else {
      var newId := settled.value.localId;
      o := if newId == prior then DuplicateOf(newId) else InsertedAs(newId);
    }
    WaitEnded(o, w, w', c, prior, turn, n);
  }

  /** A publish that failed may still have reached the queue. */
  lemma UnpolledTurn(w: World, c: Candidate, turn: Turn, w': World, mailbox: string, ps: set<Payload>)
    returns (ran: seq<Step>)
    requires w' == w || w' == w.(queue := w.queue + {c.payload})
    ensures Undisturbed(w, c, turn, mailbox, ps) ==> TurnTaken(w, w', turn, mailbox, ps, ran)
  {
    ran := [];
    assert Run(w, []) == Some(w);
    if w' != w && Undisturbed(w, c, turn, mailbox, ps) { ran := PolledTurn(w, c, turn, 0, mailbox, ps); }
  }

  /** A processed row of a replay's own key names the message the mailbox holds under it. */
  lemma ProcessedTold(w: World, c: Candidate, o: Outcome, mailbox: string, ps: set<Payload>,
                      already: map<string, EventRow>, force: bool)
    requires Replaying(w, mailbox, ps) && c.payload in ps
    requires Reported(o, c.payload.idem, already, force)
    requires o.InsertedAs? || o.DuplicateOf? ==>
               c.payload.idem in w.events && w.events[c.payload.idem].status == Processed
               && w.events[c.payload.idem].localId == o.newId
    requires (o.DuplicateOf? ==> o.newId == None) && (o.InsertedAs? ==> o.newId != PriorId(already, c.payload.idem))
    ensures Told(o, c.payload.idem, BoxOf(w.mailboxes, mailbox), already, force)
  {
    assert HasIdem(ps, c.payload.idem);
  }

  /** One candidate: skip it, or publish it and wait for its row. */
  method ReplayOne(w: World, c: Candidate, already: map<string, EventRow>, force: bool, turn: Turn,
                   mailbox: string, ghost ps: set<Payload>)
    returns (o: Outcome, w': World, ghost ran: seq<Step>)
    ensures Reported(o, c.payload.idem, already, force) && w.events.Keys <= w'.events.Keys
    ensures Turned(o, w, w', c, already, force, turn)
    ensures o.Skipped? ==> w' == w
    ensures o.PushFailed? <==> !o.Skipped? && turn.failed
    ensures Recorded(o) ==> c.payload.idem in already || c.payload.idem in w'.events
    ensures o.Conflicted? ==> c.payload.idem in w'.events && w'.events[c.payload.idem].status == Failed
    ensures o.InsertedAs? ==> c.payload.idem in w'.events && w'.events[c.payload.idem].status == Processed
                              && w'.events[c.payload.idem].localId == o.newId
    ensures Undisturbed(w, c, turn, mailbox, ps) ==>
              TurnTaken(w, w', turn, mailbox, ps, ran)
              && Told(o, c.payload.idem, BoxOf(w'.mailboxes, mailbox), already, force)
  {
    var idem := c.payload.idem;
    if !force && idem in already {
      w', ran := w, [];
      o := Skipped(already[idem].localId);
      assert Run(w, []) == Some(w);
    } else {
      o, w', ran := PushOne(w, c, PriorId(already, idem), turn, mailbox, ps);
      if Undisturbed(w, c, turn, mailbox, ps) { ProcessedTold(w', c, o, mailbox, ps, already, force); }
    }
  }

  /** The target's ingest log has a row for the candidate's key. */
  predicate Recorded(o: Outcome) {
    !o.PushFailed? && !o.TimedOut?
  }

  ghost predicate AllRecorded(outcomes: seq<Outcome>, cands: seq<Candidate>, keys: set<string>) {
    && |outcomes| <= |cands|
    && forall i | 0 <= i < |outcomes| && Recorded(outcomes[i]) :: cands[i].payload.idem in keys
  }

  lemma NextRecorded(outcomes: seq<Outcome>, o: Outcome, cands: seq<Candidate>, keys: set<string>,
                     keys': set<string>)
    requires AllRecorded(outcomes, cands, keys) && keys <= keys' && |outcomes| < |cands|
    requires Recorded(o) ==> cands[|outcomes|].payload.idem in keys'
    ensures AllRecorded(outcomes + [o], cands, keys')
  {}

  ghost predicate AllTold(outcomes: seq<Outcome>, cands: seq<Candidate>, box: Mailbox,
                          already: map<string, EventRow>, force: bool)
  {
    && |outcomes| <= |cands|
    && forall i | 0 <= i < |outcomes| ::
         Told(outcomes[i], cands[i].payload.idem, box, already, force)
  }

  lemma NextTold(outcomes: seq<Outcome>, o: Outcome, cands: seq<Candidate>, box: Mailbox,
                 box': Mailbox, already: map<string, EventRow>, force: bool)
    requires AllTold(outcomes, cands, box, already, force) && BoxGrows(box, box')
    requires |outcomes| < |cands|
    requires Told(o, cands[|outcomes|].payload.idem, box', already, force)
    ensures AllTold(outcomes + [o], cands, box', already, force)
  {
    forall i | 0 <= i < |outcomes|
      ensures Told(outcomes[i], cands[i].payload.idem, box', already, force)
    {
      ToldCarried(outcomes[i], cands[i].payload.idem, box, box', already, force);
    }
  }

  function PayloadsOf(cands: seq<Candidate>): set<Payload> {
    set c | c in cands :: c.payload
  }

  /** What the target's ingest log holds for these keys, read once before anything is pushed. */
  function Already(events: map<string, EventRow>, ps: set<Payload>): (r: map<string, EventRow>)
    ensures forall k :: k in r <==> k in events && HasIdem(ps, k)
    ensures forall k | k in r :: r[k] == events[k]
  {
    map k | k in events && HasIdem(ps, k) :: events[k]
  }

  /** What the outcomes so far say of the ingest log as it was read before anything was pushed. */
  ghost predicate AllReported(outcomes: seq<Outcome>, cands: seq<Candidate>, already: map<string, EventRow>,
                              force: bool)
  {
    && |outcomes| <= |cands|
    && forall i | 0 <= i < |outcomes| :: Reported(outcomes[i], cands[i].payload.idem, already, force)
  }

  /** The platform before each turn and after the last: every turn takes it one further. */
  ghost predicate Turns(worlds: seq<World>, outcomes: seq<Outcome>, cands: seq<Candidate>,
                        already: map<string, EventRow>, force: bool, turns: seq<Turn>)
  {
    && |worlds| == |outcomes| + 1 && |outcomes| <= |cands| && |outcomes| <= |turns|
    && forall i | 0 <= i < |outcomes| ::
         Turned(outcomes[i], worlds[i], worlds[i + 1], cands[i], already, force, turns[i])
  }

  /** What the replay so far has reported, whoever else uses the target. */
  ghost predicate ReplayedTo(start: World, w: World, outcomes: seq<Outcome>, cands: seq<Candidate>,
                             already: map<string, EventRow>, force: bool)
  {
    && start.events.Keys <= w.events.Keys
    && AllReported(outcomes, cands, already, force)
    && AllRecorded(outcomes, cands, w.events.Keys)
    && ((forall j | 0 <= j < |outcomes| :: outcomes[j].Skipped?) ==> w == start)
  }

  /** The target is this replay's alone, and every candidate is one of its own. */
  ghost predicate Ours(w: World, cands: seq<Candidate>, turns: seq<Turn>, mailbox: string, ps: set<Payload>) {
    && Replaying(w, mailbox, ps)
    && (forall i | 0 <= i < |cands| :: InPs(cands[i], ps, w.r2))
    && forall i | 0 <= i < |turns| :: Calm(turns[i])
  }

  ghost predicate OwnSteps(ran: seq<Step>, turns: seq<Turn>) {
    forall s | s in ran :: exists i | 0 <= i < |turns| :: OwnStep(s, turns[i])
  }

  /** What a replay alone on its target has made of it, by which steps. */
  ghost predicate ReplayedAlone(start: World, w: World, outcomes: seq<Outcome>, cands: seq<Candidate>,
                                already: map<string, EventRow>, force: bool, turns: seq<Turn>,
                                mailbox: string, ps: set<Payload>, ran: seq<Step>)
  {
    && Replaying(w, mailbox, ps) && (Unrestored(start, mailbox) ==> Unrestored(w, mailbox))
    && Grows(start.mailboxes, w.mailboxes) && w.r2 == start.r2
    && AllTold(outcomes, cands, BoxOf(w.mailboxes, mailbox), already, force)
    && Run(start, ran) == Some(w) && OwnSteps(ran, turns)
  }

  lemma NextAlone(start: World, w: World, w': World, outcomes: seq<Outcome>, o: Outcome, cands: seq<Candidate>,
                  already: map<string, EventRow>, force: bool, turns: seq<Turn>, mailbox: string,
                  ps: set<Payload>, ran: seq<Step>, more: seq<Step>)
    requires |outcomes| < |cands| && |outcomes| < |turns|
    requires ReplayedAlone(start, w, outcomes, cands, already, force, turns, mailbox, ps, ran)
    requires TurnTaken(w, w', turns[|outcomes|], mailbox, ps, more)
    requires Told(o, cands[|outcomes|].payload.idem, BoxOf(w'.mailboxes, mailbox), already, force)
    ensures ReplayedAlone(start, w', outcomes + [o], cands, already, force, turns, mailbox, ps, ran + more)
  {
    GrowsOn(start.mailboxes, w.mailboxes, w'.mailboxes);
    assert BoxGrows(BoxOf(w.mailboxes, mailbox), BoxOf(w'.mailboxes, mailbox));
    NextTold(outcomes, o, cands, BoxOf(w.mailboxes, mailbox), BoxOf(w'.mailboxes, mailbox), already, force);
    RunConcat(start, ran, more);
    forall s | s in ran + more ensures exists i | 0 <= i < |turns| :: OwnStep(s, turns[i]) {
      if s !in ran { assert s in more && OwnStep(s, turns[|outcomes|]); }
    }
  }

  /** The sequential replay: every outcome it reports is still true when it ends. */
  method ReplayAll(w: World, cands: seq<Candidate>, force: bool, turns: seq<Turn>,
                   mailbox: string, ghost ps: set<Payload>)
    returns (outcomes: seq<Outcome>, already: map<string, EventRow>, w': World, ghost worlds: seq<World>,
             ghost ran: seq<Step>)
    requires |turns| == |cands|
    ensures Turns(worlds, outcomes, cands, already, force, turns) && worlds[0] == w && worlds[|outcomes|] == w'
    ensures |outcomes| == |cands| && already == Already(w.events, PayloadsOf(cands))
    ensures ReplayedTo(w, w', outcomes, cands, already, force)
    ensures Ours(w, cands, turns, mailbox, ps) ==>
              ReplayedAlone(w, w', outcomes, cands, already, force, turns, mailbox, ps, ran)
  {
    already := Already(w.events, PayloadsOf(cands));
    outcomes, w', worlds, ran := [], w, [w], [];
    for i := 0 to |cands|
      invariant |outcomes| == i && ReplayedTo(w, w', outcomes, cands, already, force)
      invariant Turns(worlds, outcomes, cands, already, force, turns) && worlds[0] == w && worlds[i] == w'
      invariant Ours(w, cands, turns, mailbox, ps) ==>
                  ReplayedAlone(w, w', outcomes, cands, already, force, turns, mailbox, ps, ran)
    {
      var o;
      o, w', ran := ReplayNext(w, w', outcomes, cands, already, force, turns, mailbox, ps, ran);
      NextTurn(worlds, outcomes, o, w', cands, already, force, turns);
      outcomes, worlds := outcomes + [o], worlds + [w'];
    }
  }

  lemma NextTurn(worlds: seq<World>, outcomes: seq<Outcome>, o: Outcome, w': World, cands: seq<Candidate>,
                 already: map<string, EventRow>, force: bool, turns: seq<Turn>)
    requires Turns(worlds, outcomes, cands, already, force, turns) && |outcomes| < |cands| && |outcomes| < |turns|
    requires Turned(o, worlds[|outcomes|], w', cands[|outcomes|], already, force, turns[|outcomes|])
    ensures Turns(worlds + [w'], outcomes + [o], cands, already, force, turns)
  {}

  method ReplayNext(ghost start: World, w: World, outcomes: seq<Outcome>, cands: seq<Candidate>,
                    already: map<string, EventRow>, force: bool, turns: seq<Turn>, mailbox: string,
                    ghost ps: set<Payload>, ghost ran: seq<Step>)
    returns (o: Outcome, w': World, ghost ran': seq<Step>)
    requires |outcomes| < |cands| == |turns| && already == Already(start.events, PayloadsOf(cands))
    requires ReplayedTo(start, w, outcomes, cands, already, force)
    requires Ours(start, cands, turns, mailbox, ps) ==>
               ReplayedAlone(start, w, outcomes, cands, already, force, turns, mailbox, ps, ran)
    ensures ReplayedTo(start, w', outcomes + [o], cands, already, force)
    ensures Turned(o, w, w', cands[|outcomes|], already, force, turns[|outcomes|])
    ensures Ours(start, cands, turns, mailbox, ps) ==>
              ReplayedAlone(start, w', outcomes + [o], cands, already, force, turns, mailbox, ps, ran')
  {
    ghost var more;
    var c, turn := cands[|outcomes|], turns[|outcomes|];
    o, w', more := ReplayOne(w, c, already, force, turn, mailbox, ps);
    ran' := ran + more;
    NextRecorded(outcomes, o, cands, w.events.Keys, w'.events.Keys);
    if Ours(start, cands, turns, mailbox, ps) {
      assert Undisturbed(w, c, turn, mailbox, ps);
      NextAlone(start, w, w', outcomes, o, cands, already, force, turns, mailbox, ps, ran, more);
    }
  }

  // ---------------------------------------------------------------- restoring folders and labels

  /** There is something to put back, and the outcome names the message to put it on. */
  ghost predicate Restorable(c: Candidate, o: Outcome) {
    && (c.row.state != "inbox" || c.row.labels != "[]")
    && (o.InsertedAs? || o.DuplicateOf? || o.Skipped?)
    && o.newId.Some?
  }

  /** The UPDATE statements: a row that is not there is not created. */
  method RestoreRows(index: map<IndexKey, IndexRow>, mailbox: string, cands: seq<Candidate>,
                     outcomes: seq<Outcome>)
    returns (index': map<IndexKey, IndexRow>)
    requires |outcomes| == |cands|
    ensures index'.Keys == index.Keys
    ensures forall k | k in index :: Updated(index'[k], index[k], k, mailbox, cands, outcomes)
  {
    index' := index;
    for i := 0 to |cands|
      invariant index'.Keys == index.Keys
      invariant forall k | k in index ::
                  Updated(index'[k], index[k], k, mailbox, cands[..i], outcomes[..i])
    {
      ghost var before := index';
      var c, o := cands[i], outcomes[i];
      var filed := c.row.state != "inbox" || c.row.labels != "[]";
      var named := (o.InsertedAs? || o.DuplicateOf? || o.Skipped?) && o.newId.Some?;
      if filed && named && (mailbox, o.newId.value) in index' {
        var key := (mailbox, o.newId.value);
        index' := index'[key := index'[key].(state := c.row.state, labels := c.row.labels)];
      }
      forall k | k in index
        ensures Updated(index'[k], index[k], k, mailbox, cands[..i + 1], outcomes[..i + 1])
      {
        UpdatedNext(before[k], index'[k], index[k], k, mailbox, cands, outcomes, i);
      }
    }
    assert cands[..|cands|] == cands && outcomes[..|outcomes|] == outcomes;
  }

  ghost predicate Targets(k: IndexKey, mailbox: string, c: Candidate, o: Outcome) {
    Restorable(c, o) && k == (mailbox, o.newId.value)
  }

  /** A row takes its folder and labels from the last candidate that targets it, if any does. */
  ghost predicate Updated(row': IndexRow, row: IndexRow, k: IndexKey, mailbox: string,
                          cands: seq<Candidate>, outcomes: seq<Outcome>)
    requires |outcomes| == |cands|
  {
    if forall i | 0 <= i < |cands| :: !Targets(k, mailbox, cands[i], outcomes[i]) then row' == row
    else exists i | 0 <= i < |cands| ::
           && Targets(k, mailbox, cands[i], outcomes[i])
           && row' == row.(state := cands[i].row.state, labels := cands[i].row.labels)
           && forall j | i < j < |cands| :: !Targets(k, mailbox, cands[j], outcomes[j])
  }

  lemma UpdatedNext(before: IndexRow, after: IndexRow, row: IndexRow, k: IndexKey, mailbox: string,
                    cands: seq<Candidate>, outcomes: seq<Outcome>, i: int)
    requires |outcomes| == |cands| && 0 <= i < |cands|
    requires Updated(before, row, k, mailbox, cands[..i], outcomes[..i])
    requires after == if Targets(k, mailbox, cands[i], outcomes[i])
                      then before.(state := cands[i].row.state, labels := cands[i].row.labels)
                      else before
    ensures Updated(after, row, k, mailbox, cands[..i + 1], outcomes[..i + 1])
  {
    var cs, os := cands[..i + 1], outcomes[..i + 1];
    if Targets(k, mailbox, cs[i], os[i]) {
      assert after == row.(state := cs[i].row.state, labels := cs[i].row.labels);
    } else if j :| 0 <= j < i && Targets(k, mailbox, cands[j], outcomes[j]) {
      assert Targets(k, mailbox, cands[..i][j], outcomes[..i][j]);
      var m :| 0 <= m < i && Targets(k, mailbox, cands[..i][m], outcomes[..i][m])
               && before == row.(state := cands[..i][m].row.state, labels := cands[..i][m].row.labels)
               && forall j | m < j < i :: !Targets(k, mailbox, cands[..i][j], outcomes[..i][j]);
      assert Targets(k, mailbox, cs[m], os[m]);
      forall j | m < j < i + 1 ensures !Targets(k, mailbox, cs[j], os[j]) {
        if j < i { assert !Targets(k, mailbox, cands[..i][j], outcomes[..i][j]); }
      }
    }
  }

  // ---------------------------------------------------------------- the audit of a replay

  function AuditRow(r: SourceRow): A.Row {
    A.Row(r.id, r.thread, r.state, r.labels, r.rawKey, r.sha)
  }

  function AuditRows(rows: seq<SourceRow>): (r: seq<A.Row>)
    ensures |r| == |rows| && forall i | 0 <= i < |rows| :: r[i] == AuditRow(rows[i])
  {
    seq(|rows|, i requires 0 <= i < |rows| => AuditRow(rows[i]))
  }

  function StoredAs(l: string, m: DoMessage): A.Stored {
    A.Stored(l, m.thread, m.state, m.rawKey, m.sha, m.parse == Parsed)
  }

  /** The Durable Object's own list of its messages, each once. */
  ghost predicate Reports(ms: seq<A.Stored>, box: Mailbox) {
    && (forall i | 0 <= i < |ms| :: ms[i].id in box.messages && ms[i] == StoredAs(ms[i].id, box.messages[ms[i].id]))
    && (forall i, j | 0 <= i < j < |ms| :: ms[i].id != ms[j].id)
    && (forall l | l in box.messages :: exists i | 0 <= i < |ms| :: ms[i].id == l)
  }

  /** The target index, as the audit reads it. */
  ghost predicate IndexedAs(target: map<string, A.Placement>, index: map<IndexKey, IndexRow>, mailbox: string) {
    && (forall l :: l in target <==> (mailbox, l) in index)
    && (forall l | l in target ::
          target[l] == A.Placement(index[(mailbox, l)].state, index[(mailbox, l)].labels))
  }

  ghost predicate DistinctRows(rows: seq<SourceRow>) {
    forall i, j | 0 <= i < j < |rows| :: rows[i].rawKey != rows[j].rawKey
  }

  ghost predicate DistinctIdems(cands: seq<Candidate>) {
    forall i, j | 0 <= i < j < |cands| :: cands[i].payload.idem != cands[j].payload.idem
  }

  /** Message ids[i] is the i-th candidate's, and the mailbox holds no other. */
  ghost predicate Landed(cands: seq<Candidate>, ids: seq<string>, box: Mailbox) {
    && |ids| == |cands|
    && (forall i | 0 <= i < |ids| ::
          && ids[i] in box.messages
          && box.messages[ids[i]].idem == cands[i].payload.idem
          && box.messages[ids[i]].rawKey == cands[i].row.rawKey
          && box.messages[ids[i]].sha == cands[i].row.sha)
    && (forall l | l in box.messages :: l in ids)
  }

  lemma {:induction false} CandidatesAre(mailbox: string, rows: seq<SourceRow>,
                                         objects: map<string, RawObject>)
    ensures forall c | c in Candidates(mailbox, rows, objects) ::
              && c.row in rows && Replayable(c.row, objects)
              && c.payload == PayloadFor(mailbox, c.row, objects[c.row.rawKey])
    ensures forall r | r in rows && Replayable(r, objects) ::
              Candidate(r, PayloadFor(mailbox, r, objects[r.rawKey])) in Candidates(mailbox, rows, objects)
  {
    if rows != [] {
      var n := |rows| - 1;
      CandidatesAre(mailbox, rows[..n], objects);
      assert rows == rows[..n] + [rows[n]];
    }
  }

  ghost predicate AllInserted(outcomes: seq<Outcome>) {
    forall i | 0 <= i < |outcomes| :: outcomes[i].InsertedAs? && outcomes[i].newId.Some?
  }

  function NewIds(outcomes: seq<Outcome>): (ids: seq<string>)
    requires AllInserted(outcomes)
    ensures |ids| == |outcomes| && forall i | 0 <= i < |ids| :: ids[i] == outcomes[i].newId.value
  {
    seq(|outcomes|, i requires 0 <= i < |outcomes| => outcomes[i].newId.value)
  }

  lemma CandidateOf(cands: seq<Candidate>, box: Mailbox, l: string) returns (i: nat)
    requires BoxFrom(box, PayloadsOf(cands)) && l in box.messages
    ensures i < |cands| && box.messages[l].idem == cands[i].payload.idem
    ensures box.messages[l].rawKey == cands[i].payload.rawKey
    ensures box.messages[l].sha == cands[i].payload.sha
  {
    var p :| p in PayloadsOf(cands) && p.idem == box.messages[l].idem
             && p.rawKey == box.messages[l].rawKey && p.sha == box.messages[l].sha;
    var c :| c in cands && c.payload == p;
    i :| 0 <= i < |cands| && cands[i] == c;
  }

  /** Every outcome `inserted`: the mailbox holds each candidate's message and nothing else. */
  lemma InsertedLanded(mailbox: string, rows: seq<SourceRow>, objects: map<string, RawObject>,
                       cands: seq<Candidate>, outcomes: seq<Outcome>, box: Mailbox,
                       already: map<string, EventRow>, force: bool)
    requires cands == Candidates(mailbox, rows, objects) && DistinctIdems(cands)
    requires BoxConsistent(box) && BoxFrom(box, PayloadsOf(cands))
    requires |outcomes| == |cands| && AllInserted(outcomes)
    requires AllTold(outcomes, cands, box, already, force)
    ensures Landed(cands, NewIds(outcomes), box)
  {
    var ids := NewIds(outcomes);
    CandidatesAre(mailbox, rows, objects);
    forall i | 0 <= i < |ids|
      ensures ids[i] in box.messages && box.messages[ids[i]].idem == cands[i].payload.idem
      ensures box.messages[ids[i]].rawKey == cands[i].row.rawKey
      ensures box.messages[ids[i]].sha == cands[i].row.sha
    {
      assert Told(outcomes[i], cands[i].payload.idem, box, already, force);
      var j := CandidateOf(cands, box, ids[i]);
      assert j == i;
      assert cands[i] in cands;
    }
    forall l | l in box.messages ensures l in ids {
      var j := CandidateOf(cands, box, l);
      assert Told(outcomes[j], cands[j].payload.idem, box, already, force);
      assert ids[j] == l;
    }
  }

  /** What the restore leaves of an indexed message is its old folder and labels. */
  lemma RestoredAsBefore(mailbox: string, cands: seq<Candidate>, outcomes: seq<Outcome>, box: Mailbox,
                         index: map<IndexKey, IndexRow>, index': map<IndexKey, IndexRow>, i: nat)
    requires |outcomes| == |cands| && AllInserted(outcomes) && DistinctIdems(cands)
    requires Landed(cands, NewIds(outcomes), box) && IndexArrived(index, mailbox)
    requires i < |cands| && (mailbox, NewIds(outcomes)[i]) in index && index'.Keys == index.Keys
    requires forall k | k in index :: Updated(index'[k], index[k], k, mailbox, cands, outcomes)
    ensures var row := index'[(mailbox, NewIds(outcomes)[i])];
            row.state == cands[i].row.state && row.labels == cands[i].row.labels
  {
    var ids := NewIds(outcomes);
    var k := (mailbox, ids[i]);
    forall j | 0 <= j < |cands| && Targets(k, mailbox, cands[j], outcomes[j]) ensures j == i {
      assert box.messages[ids[j]].idem == cands[j].payload.idem;
      assert box.messages[ids[i]].idem == cands[i].payload.idem;
    }
    assert Updated(index'[k], index[k], k, mailbox, cands, outcomes);
  }

  // ---------------------------------------------------------------- end to end

  /**
   * The message is whole and where it was: its body parsed, and some delivery reached its index write before
   * the restore, or only afterwards, in which case the folder and labels are those of an arriving message.
   */
  ghost predicate Arrived(box: Mailbox, c: Candidate, before: seq<Effect>, since: seq<Effect>, key: IndexKey) {
    && key.1 in box.messages && box.messages[key.1].parse == Parsed
    && if WroteRow(since, key) then c.row.state == "inbox" && c.row.labels == "[]" else WroteRow(before, key)
  }

  /** The source's rows are each replayed, or outbound with no object to replay. */
  ghost predicate SourceAccounted(rows: seq<SourceRow>, objects: map<string, RawObject>) {
    && DistinctRows(rows)
    && forall r | r in rows && !Replayable(r, objects) ::
         r.rawKey !in objects && A.Outbound(AuditRow(r))
  }

  lemma RebuildableIsCandidate(mailbox: string, rows: seq<SourceRow>, objects: map<string, RawObject>,
                               r: A.Row)
    returns (i: nat)
    requires SourceAccounted(rows, objects)
    requires r in A.Rebuildable(A.Kept(AuditRows(rows)), objects.Keys)
    ensures i < |Candidates(mailbox, rows, objects)|
    ensures AuditRow(Candidates(mailbox, rows, objects)[i].row) == r
  {
    var j := RebuildableIsRow(rows, objects, r);
    assert Replayable(rows[j], objects);
    CandidatesAre(mailbox, rows, objects);
    var cands := Candidates(mailbox, rows, objects);
    var c := Candidate(rows[j], PayloadFor(mailbox, rows[j], objects[rows[j].rawKey]));
    assert c in cands;
    i :| 0 <= i < |cands| && cands[i] == c;
  }

  lemma RebuildableIsRow(rows: seq<SourceRow>, objects: map<string, RawObject>, r: A.Row)
    returns (j: nat)
    requires DistinctRows(rows) && r in A.Rebuildable(A.Kept(AuditRows(rows)), objects.Keys)
    ensures j < |rows| && AuditRow(rows[j]) == r && rows[j] in rows && rows[j].rawKey in objects
  {
    A.KeptAll(AuditRows(rows));
    A.SplitRows(AuditRows(rows), objects.Keys);
    j :| 0 <= j < |rows| && AuditRows(rows)[j] == r;
  }

  lemma CandidateIsRebuildable(mailbox: string, rows: seq<SourceRow>, objects: map<string, RawObject>,
                               c: Candidate)
    requires SourceAccounted(rows, objects) && c in Candidates(mailbox, rows, objects)
    ensures AuditRow(c.row) in A.Rebuildable(A.Kept(AuditRows(rows)), objects.Keys)
  {
    A.KeptAll(AuditRows(rows));
    A.SplitRows(AuditRows(rows), objects.Keys);
    CandidatesAre(mailbox, rows, objects);
    var j :| 0 <= j < |rows| && rows[j] == c.row;
    assert AuditRows(rows)[j] == AuditRow(c.row);
  }

  ghost predicate KeysOnce(cands: seq<Candidate>) {
    forall i, j | 0 <= i < j < |cands| :: cands[i].row.rawKey != cands[j].row.rawKey
  }

  lemma {:induction false} CandidateKeysOnce(mailbox: string, rows: seq<SourceRow>,
                                             objects: map<string, RawObject>)
    requires DistinctRows(rows)
    ensures KeysOnce(Candidates(mailbox, rows, objects))
  {
    if rows != [] {
      var n := |rows| - 1;
      CandidateKeysOnce(mailbox, rows[..n], objects);
      CandidatesAre(mailbox, rows[..n], objects);
      var cs := Candidates(mailbox, rows[..n], objects);
      forall i | 0 <= i < |cs| ensures cs[i].row.rawKey != rows[n].rawKey {
        assert cs[i] in cs;
        var j :| 0 <= j < n && rows[..n][j] == cs[i].row;
        assert rows[j].rawKey != rows[n].rawKey;
      }
      assert KeysOnce(cs);
    }
  }

  /** The inputs an audit of this replay reads. */
  ghost predicate Audits(q: A.Inputs, rows: seq<SourceRow>, objects: map<string, RawObject>,
                         box: Mailbox)
  {
    && q.rows == AuditRows(rows) && q.r2 == objects.Keys
    && Reports(q.messages, box) && q.reported == |q.messages|
  }

  /** Every candidate's message parsed, indexed, and back in its old folder under its old labels. */
  ghost predicate AllPlaced(cands: seq<Candidate>, ids: seq<string>, box: Mailbox,
                            target: map<string, A.Placement>)
    requires Landed(cands, ids, box)
  {
    forall i | 0 <= i < |cands| ::
      && box.messages[ids[i]].parse == Parsed && ids[i] in target
      && target[ids[i]] == A.Placement(cands[i].row.state, cands[i].row.labels)
  }

  lemma CorrectPlaced(mailbox: string, rows: seq<SourceRow>, objects: map<string, RawObject>,
                      ids: seq<string>, box: Mailbox, q: A.Inputs)
    requires SourceAccounted(rows, objects) && Audits(q, rows, objects, box)
    requires Landed(Candidates(mailbox, rows, objects), ids, box) && A.RebuildCorrect(q)
    ensures AllPlaced(Candidates(mailbox, rows, objects), ids, box, q.target)
  {
    var cands := Candidates(mailbox, rows, objects);
    CandidateKeysOnce(mailbox, rows, objects);
    forall i | 0 <= i < |cands|
      ensures box.messages[ids[i]].parse == Parsed && ids[i] in q.target
      ensures q.target[ids[i]] == A.Placement(cands[i].row.state, cands[i].row.labels)
    {
      CandidateIsRebuildable(mailbox, rows, objects, cands[i]);
      OnePlaced(cands, ids, box, q, i);
    }
  }

  lemma OnePlaced(cands: seq<Candidate>, ids: seq<string>, box: Mailbox, q: A.Inputs, i: nat)
    requires Landed(cands, ids, box) && Reports(q.messages, box) && A.Paired(q) && i < |cands|
    requires KeysOnce(cands) && AuditRow(cands[i].row) in A.Rebuildable(A.Kept(q.rows), q.r2)
    ensures box.messages[ids[i]].parse == Parsed && ids[i] in q.target
    ensures q.target[ids[i]] == A.Placement(cands[i].row.state, cands[i].row.labels)
  {
    var r := AuditRow(cands[i].row);
    var m := PairedWith(q, r);
    SameMessage(cands, ids, box, i, m.id);
  }

  lemma PairedWith(q: A.Inputs, r: A.Row) returns (m: A.Stored)
    requires A.Paired(q) && r in A.Rebuildable(A.Kept(q.rows), q.r2)
    ensures m in q.messages && A.Restores(r, m, q.target)
  {
    var pair :| A.Pairs(A.Rebuildable(A.Kept(q.rows), q.r2), q.messages, q.target, pair);
    assert r in pair;
    m := q.messages[pair[r]];
  }

  lemma SameMessage(cands: seq<Candidate>, ids: seq<string>, box: Mailbox, i: nat, l: string)
    requires Landed(cands, ids, box) && KeysOnce(cands) && i < |cands|
    requires l in box.messages && box.messages[l].rawKey == cands[i].row.rawKey
    ensures l == ids[i]
  {
    var j :| 0 <= j < |ids| && ids[j] == l;
    assert cands[j].row.rawKey == cands[i].row.rawKey;
  }

  /** The position of a message in the Durable Object's list. */
  ghost function Position(ms: seq<A.Stored>, l: string): int {
    if i :| 0 <= i < |ms| && ms[i].id == l then i else -1
  }

  /** Each candidate's row goes to the position its message is listed at. */
  ghost predicate PairOf(pair: map<A.Row, int>, cands: seq<Candidate>, ids: seq<string>,
                         ms: seq<A.Stored>)
  {
    && |ids| == |cands|
    && (forall r :: r in pair <==> exists i | 0 <= i < |cands| :: AuditRow(cands[i].row) == r)
    && (forall i | 0 <= i < |cands| ::
          AuditRow(cands[i].row) in pair && 0 <= pair[AuditRow(cands[i].row)] < |ms|
          && ms[pair[AuditRow(cands[i].row)]].id == ids[i])
  }

  lemma Listed(box: Mailbox, ms: seq<A.Stored>, l: string)
    requires Reports(ms, box) && l in box.messages
    ensures 0 <= Position(ms, l) < |ms| && ms[Position(ms, l)].id == l
  {}

  lemma PairExists(cands: seq<Candidate>, ids: seq<string>, box: Mailbox, ms: seq<A.Stored>)
    returns (pair: map<A.Row, int>)
    requires KeysOnce(cands) && Reports(ms, box) && Landed(cands, ids, box)
    ensures PairOf(pair, cands, ids, ms)
  {
    pair := PairUpTo(cands, ids, ms, |cands|);
    forall i | 0 <= i < |cands| ensures 0 <= Position(ms, ids[i]) < |ms| && ms[Position(ms, ids[i])].id == ids[i] {
      Listed(box, ms, ids[i]);
    }
  }

  lemma {:induction false} PairUpTo(cands: seq<Candidate>, ids: seq<string>, ms: seq<A.Stored>, n: nat)
    returns (pair: map<A.Row, int>)
    requires |ids| == |cands| && n <= |cands|
    requires KeysOnce(cands)
    ensures forall r :: r in pair <==> exists i | 0 <= i < n :: AuditRow(cands[i].row) == r
    ensures forall i | 0 <= i < n :: AuditRow(cands[i].row) in pair
              && pair[AuditRow(cands[i].row)] == Position(ms, ids[i])
  {
    pair := map[];
    if n > 0 {
      pair := PairUpTo(cands, ids, ms, n - 1);
      pair := pair[AuditRow(cands[n - 1].row) := Position(ms, ids[n - 1])];
    }
  }

  lemma PlacedRestores(cands: seq<Candidate>, ids: seq<string>, box: Mailbox, ms: seq<A.Stored>,
                       target: map<string, A.Placement>, pair: map<A.Row, int>, i: nat)
    requires Landed(cands, ids, box) && Reports(ms, box) && AllPlaced(cands, ids, box, target)
    requires PairOf(pair, cands, ids, ms) && i < |cands|
    ensures A.Restores(AuditRow(cands[i].row), ms[pair[AuditRow(cands[i].row)]], target)
  {
    var m := ms[pair[AuditRow(cands[i].row)]];
    assert m == StoredAs(m.id, box.messages[m.id]);
  }

  lemma PairedOnce(cands: seq<Candidate>, ids: seq<string>, box: Mailbox, ms: seq<A.Stored>,
                   pair: map<A.Row, int>, r: A.Row, r': A.Row)
    requires Landed(cands, ids, box) && Reports(ms, box)
    requires PairOf(pair, cands, ids, ms) && KeysOnce(cands)
    requires r in pair && r' in pair && pair[r] == pair[r']
    requires exists i | 0 <= i < |cands| :: AuditRow(cands[i].row) == r
    requires exists i | 0 <= i < |cands| :: AuditRow(cands[i].row) == r'
    ensures r == r'
  {
    var i :| 0 <= i < |cands| && AuditRow(cands[i].row) == r;
    var j :| 0 <= j < |cands| && AuditRow(cands[j].row) == r';
    assert ids[i] == ids[j];
    SameMessage(cands, ids, box, j, ids[i]);
    assert cands[i].row.rawKey == cands[j].row.rawKey;
  }

  lemma PlacedPaired(cands: seq<Candidate>, ids: seq<string>, box: Mailbox, ms: seq<A.Stored>,
                     target: map<string, A.Placement>, pair: map<A.Row, int>, rebuildable: seq<A.Row>)
    requires Landed(cands, ids, box) && Reports(ms, box) && AllPlaced(cands, ids, box, target)
    requires PairOf(pair, cands, ids, ms) && KeysOnce(cands)
    requires forall r :: r in rebuildable <==> exists i | 0 <= i < |cands| :: AuditRow(cands[i].row) == r
    ensures A.Pairs(rebuildable, ms, target, pair)
  {
    forall r | r in pair ensures 0 <= pair[r] < |ms| && A.Restores(r, ms[pair[r]], target) {
      var i :| 0 <= i < |cands| && AuditRow(cands[i].row) == r;
      PlacedRestores(cands, ids, box, ms, target, pair, i);
    }
    forall r, r' | r in pair && r' in pair && pair[r] == pair[r'] ensures r == r' {
      PairedOnce(cands, ids, box, ms, pair, r, r');
    }
    forall p | 0 <= p < |ms| ensures A.Hit(pair, p) {
      assert ms[p].id in ids;
      var i :| 0 <= i < |ids| && ids[i] == ms[p].id;
      assert pair[AuditRow(cands[i].row)] == p;
    }
  }

  lemma PlacedCorrect(mailbox: string, rows: seq<SourceRow>, objects: map<string, RawObject>,
                      ids: seq<string>, box: Mailbox, q: A.Inputs)
    requires SourceAccounted(rows, objects) && Audits(q, rows, objects, box) && A.PinsAgree(q)
    requires Landed(Candidates(mailbox, rows, objects), ids, box)
    requires AllPlaced(Candidates(mailbox, rows, objects), ids, box, q.target)
    ensures A.RebuildCorrect(q)
  {
    var cands := Candidates(mailbox, rows, objects);
    var rebuildable := A.Rebuildable(A.Kept(q.rows), q.r2);
    CandidateKeysOnce(mailbox, rows, objects);
    var pair := PairExists(cands, ids, box, q.messages);
    forall r ensures r in rebuildable <==> exists i | 0 <= i < |cands| :: AuditRow(cands[i].row) == r {
      if r in rebuildable { var i := RebuildableIsCandidate(mailbox, rows, objects, r); }
      if i :| 0 <= i < |cands| && AuditRow(cands[i].row) == r {
        CandidateIsRebuildable(mailbox, rows, objects, cands[i]);
      }
    }
    PlacedPaired(cands, ids, box, q.messages, q.target, pair, rebuildable);
    LossesOutbound(rows, objects);
  }

  lemma LossesOutbound(rows: seq<SourceRow>, objects: map<string, RawObject>)
    requires SourceAccounted(rows, objects)
    ensures forall r | r in A.Lost(A.Kept(AuditRows(rows)), objects.Keys) :: A.Outbound(r)
  {
    A.KeptAll(AuditRows(rows));
    A.SplitRows(AuditRows(rows), objects.Keys);
    forall r | r in A.Lost(A.Kept(AuditRows(rows)), objects.Keys) ensures A.Outbound(r) {
      var j :| 0 <= j < |rows| && AuditRows(rows)[j] == r;
      assert rows[j] in rows && !Replayable(rows[j], objects);
    }
  }

  /** The restored platform: only index rows differ, each as the UPDATE statements leave it. */
  ghost predicate Restored(w: World, w': World, mailbox: string, cands: seq<Candidate>, outcomes: seq<Outcome>) {
    && |outcomes| == |cands| && w' == w.(index := w'.index) && w'.index.Keys == w.index.Keys
    && forall k | k in w.index :: Updated(w'.index[k], w.index[k], k, mailbox, cands, outcomes)
  }

  /** One message, at the audit. */
  lemma OneArrived(mailbox: string, cands: seq<Candidate>, outcomes: seq<Outcome>, box: Mailbox, w: World, w': World,
                   last: World, target: map<string, A.Placement>, i: nat)
    requires Restored(w, w', mailbox, cands, outcomes) && AllInserted(outcomes) && DistinctIdems(cands)
    requires Landed(cands, NewIds(outcomes), box) && Unrestored(w, mailbox) && i < |cands|
    requires RowSince(w', last, (mailbox, NewIds(outcomes)[i])) && IndexedAs(target, last.index, mailbox)
    ensures var l := NewIds(outcomes)[i];
            Arrived(box, cands[i], w.log, last.log[|w.log|..], (mailbox, l)) <==>
              (box.messages[l].parse == Parsed && l in target
               && target[l] == A.Placement(cands[i].row.state, cands[i].row.labels))
  {
    var key := (mailbox, NewIds(outcomes)[i]);
    assert key.1 in target <==> key in last.index;
    if key in w.index { RestoredAsBefore(mailbox, cands, outcomes, box, w.index, w'.index, i); }
  }

  /** Restoring puts every indexed message back: placed is then no more than arrived. */
  lemma PlacedIffArrived(mailbox: string, cands: seq<Candidate>, outcomes: seq<Outcome>, box: Mailbox, w: World,
                         w': World, last: World, target: map<string, A.Placement>)
    requires Restored(w, w', mailbox, cands, outcomes) && AllInserted(outcomes) && DistinctIdems(cands)
    requires Landed(cands, NewIds(outcomes), box) && Unrestored(w, mailbox)
    requires (forall key :: RowSince(w', last, key)) && IndexedAs(target, last.index, mailbox)
    ensures AllPlaced(cands, NewIds(outcomes), box, target) <==>
            forall i | 0 <= i < |cands| ::
              Arrived(box, cands[i], w.log, last.log[|w.log|..], (mailbox, NewIds(outcomes)[i]))
  {
    assert RowSince(w', last, (mailbox, ""));
    forall i | 0 <= i < |cands|
      ensures var l := NewIds(outcomes)[i];
              Arrived(box, cands[i], w.log, last.log[|w.log|..], (mailbox, l)) <==>
                (box.messages[l].parse == Parsed && l in target
                 && target[l] == A.Placement(cands[i].row.state, cands[i].row.labels))
    {
      OneArrived(mailbox, cands, outcomes, box, w, w', last, target, i);
    }
  }

  /**
   * Replay, restore, let deliveries go on, then audit. When every outcome is `inserted`, the audit calls for
   * no failure exactly when the pins agree and every message arrived: parsed, and indexed in time for the
   * restore unless it needed none.
   */
  lemma AuditOfReplay(mailbox: string, rows: seq<SourceRow>, objects: map<string, RawObject>,
                      outcomes: seq<Outcome>, already: map<string, EventRow>, force: bool,
                      w: World, w': World, last: World, q: A.Inputs)
    requires SourceAccounted(rows, objects) && DistinctIdems(Candidates(mailbox, rows, objects))
    requires Unrestored(w, mailbox) && Restored(w, w', mailbox, Candidates(mailbox, rows, objects), outcomes)
    requires Replaying(last, mailbox, PayloadsOf(Candidates(mailbox, rows, objects)))
    requires AllInserted(outcomes) && forall key :: RowSince(w', last, key)
    requires AllTold(outcomes, Candidates(mailbox, rows, objects), BoxOf(last.mailboxes, mailbox), already, force)
    requires Audits(q, rows, objects, BoxOf(last.mailboxes, mailbox)) && IndexedAs(q.target, last.index, mailbox)
    ensures A.Faultless(q) <==>
            A.PinsAgree(q) && forall i | 0 <= i < |outcomes| ::
              Arrived(BoxOf(last.mailboxes, mailbox), Candidates(mailbox, rows, objects)[i], w.log,
                      last.log[|w.log|..], (mailbox, NewIds(outcomes)[i]))
  {
    var cands := Candidates(mailbox, rows, objects);
    var box, ids := BoxOf(last.mailboxes, mailbox), NewIds(outcomes);
    assert BoxConsistent(box);
    InsertedLanded(mailbox, rows, objects, cands, outcomes, box, already, force);
    PlacedIffArrived(mailbox, cands, outcomes, box, w, w', last, q.target);
    A.FaultlessIffCorrect(q);
    if A.RebuildCorrect(q) { CorrectPlaced(mailbox, rows, objects, ids, box, q); }
    if A.PinsAgree(q) && AllPlaced(cands, ids, box, q.target) {
      PlacedCorrect(mailbox, rows, objects, ids, box, q);
    }
  }

  lemma {:induction false} DriveIsRun(w: World, steps: seq<Step>)
    requires Run(w, steps).Some?
    ensures Drive(w, steps) == Run(w, steps).value
    decreases |steps|
  {
    if steps != [] { DriveIsRun(Apply(w, steps[0]).value, steps[1..]); }
  }

  /**
   * `inserted` does not imply indexed: the delivery that inserted stopped before its index write,
   * and the redelivery's `duplicate` wrote the processed row this script waits for.
   */
  lemma InsertedNeedNotBeIndexed(w: World, p: Payload, localId: string) returns (poll: seq<Step>)
    requires p in w.queue && p.rawKey in w.r2
    requires w.mailboxes == map[] && w.deliveries == map[] && w.index == map[] && w.events == map[]
    ensures var w' := Drive(w, poll);
            && Settles(w'.events, p.idem, PriorId(w.events, p.idem))
            && w'.events[p.idem].status == Processed && w'.events[p.idem].localId == Some(localId)
            && localId in BoxOf(w'.mailboxes, p.mailbox).messages
            && (p.mailbox, localId) !in w'.index
  {
    PS.ReachNow(w);
    var w' := PS.ReachUnindexed(w, w, p, localId);
    poll :| Run(w, poll) == Some(w');
    DriveIsRun(w, poll);
  }

  // ---------------------------------------------------------------- the script

  /** The raw objects are those of the platform's bucket. */
  ghost predicate ObjectsOf(objects: map<string, RawObject>, r2: map<string, string>) {
    objects.Keys == r2.Keys && forall k | k in objects :: objects[k].sha == r2[k]
  }

  lemma {:induction false} CandidatesPrefix(mailbox: string, rows: seq<SourceRow>,
                                            objects: map<string, RawObject>, n: nat)
    requires n <= |rows|
    ensures Candidates(mailbox, rows[..n], objects) <= Candidates(mailbox, rows, objects)
    decreases |rows|
  {
    if n < |rows| {
      CandidatesPrefix(mailbox, rows[..|rows| - 1], objects, n);
      assert rows[..|rows| - 1][..n] == rows[..n];
    } else {
      assert rows[..n] == rows;
    }
  }

  /** `--limit` candidates at most. */
  function Limited(cands: seq<Candidate>, limit: Option<nat>): (r: seq<Candidate>)
    ensures r <= cands
  {
    if limit.Some? && limit.value < |cands| then cands[..limit.value] else cands
  }

  /** Restoring folders changes no row's raw object. */
  lemma UpdatedNames(boxes: Boxes, row: IndexRow, row': IndexRow, k: IndexKey, mailbox: string,
                     cands: seq<Candidate>, outcomes: seq<Outcome>)
    requires |outcomes| == |cands| && Names(boxes, k.0, k.1, row) && Updated(row', row, k, mailbox, cands, outcomes)
    ensures Names(boxes, k.0, k.1, row')
  {}

  lemma IndexReplaced(w: World, mailbox: string, ps: set<Payload>, index: map<IndexKey, IndexRow>)
    requires Replaying(w, mailbox, ps) && RowsFaithful(w.mailboxes, index)
    ensures Replaying(w.(index := index), mailbox, ps)
  {
    var w' := w.(index := index);
    assert RawStored(w') by { assert RawStored(w); }
    assert AnswersConsistent(w') by { assert AnswersConsistent(w); }
    assert Logged(w') by { assert Logged(w); }
    assert Inv(w');
  }

  /** Restoring folders takes nothing from what a later run relies on. */
  lemma RestoreReplaying(w: World, mailbox: string, ps: set<Payload>, cands: seq<Candidate>,
                         outcomes: seq<Outcome>, index: map<IndexKey, IndexRow>)
    requires Replaying(w, mailbox, ps) && |outcomes| == |cands| && index.Keys == w.index.Keys
    requires forall k | k in w.index :: Updated(index[k], w.index[k], k, mailbox, cands, outcomes)
    ensures Replaying(w.(index := index), mailbox, ps)
  {
    forall k | k in index ensures Names(w.mailboxes, k.0, k.1, index[k]) {
      UpdatedNames(w.mailboxes, w.index[k], index[k], k, mailbox, cands, outcomes);
    }
    IndexReplaced(w, mailbox, ps, index);
  }

  /** What an applied run reports and leaves; `landed` is the platform just before the restore. */
  ghost predicate Applied(w: World, landed: World, w': World, mailbox: string, cands: seq<Candidate>,
                          outcomes: seq<Outcome>, force: bool)
  {
    && ReplayedTo(w, landed, outcomes, cands, Already(w.events, PayloadsOf(cands)), force)
    && Restored(landed, w', mailbox, cands, outcomes)
  }

  lemma SkippedIffRecorded(w: World, cands: seq<Candidate>, outcomes: seq<Outcome>, force: bool)
    requires |outcomes| == |cands| && AllReported(outcomes, cands, Already(w.events, PayloadsOf(cands)), force)
    ensures forall i | 0 <= i < |cands| ::
              outcomes[i].Skipped? <==> !force && cands[i].payload.idem in w.events
  {
    forall i | 0 <= i < |cands| ensures outcomes[i].Skipped? <==> !force && cands[i].payload.idem in w.events {
      assert cands[i] in cands;
      assert cands[i].payload in PayloadsOf(cands);
    }
  }

  lemma CandidatesOurs(mailbox: string, rows: seq<SourceRow>, objects: map<string, RawObject>, cands: seq<Candidate>,
                       r2: map<string, string>)
    requires cands <= Candidates(mailbox, rows, objects) && ObjectsOf(objects, r2)
    ensures forall i | 0 <= i < |cands| :: InPs(cands[i], PayloadsOf(Candidates(mailbox, rows, objects)), r2)
  {
    forall i | 0 <= i < |cands| ensures InPs(cands[i], PayloadsOf(Candidates(mailbox, rows, objects)), r2) {
      CandidatesAre(mailbox, rows, objects);
      assert cands[i] == Candidates(mailbox, rows, objects)[i];
      assert cands[i] in Candidates(mailbox, rows, objects);
    }
  }

  /** The mailbox, the keys and the bucket are this replay's, and nothing but deliveries happens meanwhile. */
  ghost predicate OwnTarget(mailbox: string, rows: seq<SourceRow>, objects: map<string, RawObject>,
                            turns: seq<Turn>, w: World)
  {
    && Replaying(w, mailbox, PayloadsOf(Candidates(mailbox, rows, objects)))
    && ObjectsOf(objects, w.r2) && forall i | 0 <= i < |turns| :: Calm(turns[i])
  }

  /**
   * The whole script, on any target: classify, replay what the target does not already record, restore. A
   * dry run leaves the platform as it was. A run that has its target to itself leaves it fit for the next
   * run, and `ran` is the schedule that got it there.
   */
  method Reingest(mailbox: string, rows: seq<SourceRow>, objects: map<string, RawObject>,
                  limit: Option<nat>, force: bool, apply: bool, turns: seq<Turn>, w: World)
    returns (cands: seq<Candidate>, refused: seq<Refusal>, outcomes: seq<Outcome>,
             landed: World, w': World, ghost worlds: seq<World>, ghost ran: seq<Step>)
    requires |turns| == |rows|
    ensures cands == Limited(Candidates(mailbox, rows, objects), limit) && AllReplay(cands, mailbox, objects)
    ensures forall i | 0 <= i < |refused| :: Explains(refused[i], objects)
    ensures !apply ==> outcomes == [] && landed == w && w' == w
    ensures apply ==> Applied(w, landed, w', mailbox, cands, outcomes, force)
    ensures apply ==> Turns(worlds, outcomes, cands, Already(w.events, PayloadsOf(cands)), force, turns)
                      && worlds[0] == w && worlds[|outcomes|] == landed
    ensures apply ==> forall i | 0 <= i < |cands| ::
              outcomes[i].Skipped? <==> !force && cands[i].payload.idem in w.events
    ensures apply && OwnTarget(mailbox, rows, objects, turns, w) ==>
              ReplayedAlone(w, landed, outcomes, cands, Already(w.events, PayloadsOf(cands)), force, turns,
                            mailbox, PayloadsOf(Candidates(mailbox, rows, objects)), ran)
    ensures OwnTarget(mailbox, rows, objects, turns, w) ==>
              Replaying(w', mailbox, PayloadsOf(Candidates(mailbox, rows, objects)))
  {
    var scanned;
    ghost var ps := PayloadsOf(Candidates(mailbox, rows, objects));
    cands, refused, scanned := Classify(mailbox, rows, objects, limit);
    CandidatesPrefix(mailbox, rows, objects, scanned);
    assert scanned == |rows| ==> rows[..scanned] == rows;
    outcomes, landed, w', worlds, ran := [], w, w, [w], [];
    if !apply { return; }
    var already;
    outcomes, already, landed, worlds, ran := ReplayAll(w, cands, force, turns[..|cands|], mailbox, ps);
    SkippedIffRecorded(w, cands, outcomes, force);
    TurnsOfAll(worlds, outcomes, cands, already, force, turns);
    var index := RestoreRows(landed.index, mailbox, cands, outcomes);
    w' := landed.(index := index);
    if OwnTarget(mailbox, rows, objects, turns, w) {
      RanAlone(mailbox, rows, objects, turns, w, landed, w', cands, outcomes, already, force, ran);
    }
  }

  lemma TurnsOfAll(worlds: seq<World>, outcomes: seq<Outcome>, cands: seq<Candidate>,
                   already: map<string, EventRow>, force: bool, turns: seq<Turn>)
    requires |cands| <= |turns| && Turns(worlds, outcomes, cands, already, force, turns[..|cands|])
    ensures Turns(worlds, outcomes, cands, already, force, turns)
  {}

  /** A run that had its target to itself. */
  lemma RanAlone(mailbox: string, rows: seq<SourceRow>, objects: map<string, RawObject>, turns: seq<Turn>, w: World,
                 landed: World, w': World, cands: seq<Candidate>, outcomes: seq<Outcome>,
                 already: map<string, EventRow>, force: bool, ran: seq<Step>)
    requires OwnTarget(mailbox, rows, objects, turns, w) && |cands| <= |turns|
    requires cands <= Candidates(mailbox, rows, objects) && Restored(landed, w', mailbox, cands, outcomes)
    requires var ps := PayloadsOf(Candidates(mailbox, rows, objects));
             Ours(w, cands, turns[..|cands|], mailbox, ps) ==>
               ReplayedAlone(w, landed, outcomes, cands, already, force, turns[..|cands|], mailbox, ps, ran)
    ensures ReplayedAlone(w, landed, outcomes, cands, already, force, turns, mailbox,
                          PayloadsOf(Candidates(mailbox, rows, objects)), ran)
    ensures Replaying(w', mailbox, PayloadsOf(Candidates(mailbox, rows, objects)))
  {
    var ps := PayloadsOf(Candidates(mailbox, rows, objects));
    CandidatesOurs(mailbox, rows, objects, cands, w.r2);
    assert Ours(w, cands, turns[..|cands|], mailbox, ps);
    MoreTurns(ran, turns, |cands|);
    RestoreReplaying(landed, mailbox, ps, cands, outcomes, w'.index);
  }

  lemma MoreTurns(ran: seq<Step>, turns: seq<Turn>, n: nat)
    requires n <= |turns| && OwnSteps(ran, turns[..n])
    ensures OwnSteps(ran, turns)
  {
    forall s | s in ran ensures exists i | 0 <= i < |turns| :: OwnStep(s, turns[i]) {
      var i :| 0 <= i < n && OwnStep(s, turns[..n][i]);
      assert turns[i] == turns[..n][i];
    }
  }

  /**
   * Run it, let anything at all happen, run it again, over whatever rows the source has by then. The
   * second run skips exactly the keys the ingest log holds, so every key the first run saw recorded, and
   * when it skips all of them it changes nothing but folders and labels.
   */
  method ReingestTwice(mailbox: string, rows: seq<SourceRow>, objects: map<string, RawObject>, limit: Option<nat>,
                       force: bool, turns: seq<Turn>, w: World, between: seq<Step>, rows': seq<SourceRow>,
                       objects': map<string, RawObject>, limit': Option<nat>, turns': seq<Turn>)
    returns (cands: seq<Candidate>, first: seq<Outcome>, mid: World, cands': seq<Candidate>,
             second: seq<Outcome>, last: World)
    requires |turns| == |rows| && |turns'| == |rows'|
    ensures cands == Limited(Candidates(mailbox, rows, objects), limit) && |first| == |cands|
    ensures cands' == Limited(Candidates(mailbox, rows', objects'), limit') && |second| == |cands'|
    ensures forall i | 0 <= i < |cands'| :: second[i].Skipped? <==> cands'[i].payload.idem in mid.events
    ensures forall i, j | 0 <= i < |cands| && 0 <= j < |cands'| && Recorded(first[i])
                          && cands'[j].payload.idem == cands[i].payload.idem :: second[j].Skipped?
    ensures (forall j | 0 <= j < |second| :: second[j].Skipped?) ==> last == mid.(index := last.index)
    ensures last.index.Keys == mid.index.Keys || exists j | 0 <= j < |second| :: !second[j].Skipped?
    ensures cands' == cands && (forall i | 0 <= i < |first| :: Recorded(first[i])) ==>
              last == mid.(index := last.index) && last.index.Keys == mid.index.Keys
  {
    var refused, landed, w1;
    ghost var worlds, ran;
    cands, refused, first, landed, w1, worlds, ran :=
      Reingest(mailbox, rows, objects, limit, force, true, turns, w);
    mid := Drive(w1, between);
    DriveKeepsEvents(w1, between);
    ghost var keys := landed.events.Keys;
    assert AllRecorded(first, cands, keys) && keys <= mid.events.Keys;
    cands', refused, second, landed, last, worlds, ran :=
      Reingest(mailbox, rows', objects', limit', false, true, turns', mid);
    forall i, j | 0 <= i < |cands| && 0 <= j < |cands'| && Recorded(first[i])
                  && cands'[j].payload.idem == cands[i].payload.idem
      ensures second[j].Skipped?
    {
      assert cands[i].payload.idem in keys;
    }
  }

  // ---------------------------------------------------------------- a key that failed

  /** One candidate, and the target's row for its key records a failure. */
  ghost predicate OneFailedKey(w: World, mailbox: string, rows: seq<SourceRow>, objects: map<string, RawObject>) {
    && |rows| == 1 && |Candidates(mailbox, rows, objects)| == 1
    && var idem := Candidates(mailbox, rows, objects)[0].payload.idem;
       idem in w.events && w.events[idem].status == Failed && w.events[idem].localId == None
  }

  /** Such a target: an email, then another of the same Message-ID with other bytes, which conflicts. */
  lemma FailedKeyArises(mailbox: string, id: string, day: string, millis: string, sha: string, sha': string)
    returns (w: World, rows: seq<SourceRow>, objects: map<string, RawObject>)
    requires |sha| == HASH_LENGTH && |sha'| == HASH_LENGTH && sha != sha' && I.IsBare(id)
    ensures PS.Reachable(w) && OneFailedKey(w, mailbox, rows, objects)
    ensures rows[0].rawKey in w.r2 && w.r2[rows[0].rawKey] == sha
  {
    var idem := I.InboundIdempotencyKey(mailbox, Some(id), sha);
    var p := Payload(mailbox, RawEmailR2Key(mailbox, day, millis, sha), sha, idem, day);
    var q := Payload(mailbox, RawEmailR2Key(mailbox, day, millis, sha'), sha', idem, day);
    RawKeyNamesItsHash(mailbox, day, millis, sha);
    RawKeyNamesItsHash(mailbox, day, millis, sha');
    var start := World(map[], {}, {}, map[], map[], map[], map[], map[], []);
    w := PS.ProcessedRowNeedNotStay(start, p, q, "1");
    PS.ReachableHolds(w);
    assert w.deliveries[0].p in w.queue;
    I.StoredForm(id, "", "");
    var row := SourceRow("1", "1", "inbox", "[]", p.rawKey, sha, Some(id), day);
    rows, objects := [row], map[p.rawKey := RawObject(sha, Some(id), 0)];
    assert rows[..0] == [] && Candidates(mailbox, [], objects) == [];
    assert Candidates(mailbox, rows, objects) == [Candidate(row, PayloadFor(mailbox, row, objects[p.rawKey]))];
  }

  /** With nothing to put back the index stays as it is. */
  lemma NothingRestored(index: map<IndexKey, IndexRow>, index': map<IndexKey, IndexRow>, mailbox: string,
                        cands: seq<Candidate>, outcomes: seq<Outcome>)
    requires |outcomes| == |cands| && index'.Keys == index.Keys
    requires forall k | k in index :: Updated(index'[k], index[k], k, mailbox, cands, outcomes)
    requires forall i | 0 <= i < |cands| :: !Restorable(cands[i], outcomes[i])
    ensures index' == index
  {
    forall k | k in index ensures index'[k] == index[k] {
      assert Updated(index'[k], index[k], k, mailbox, cands, outcomes);
    }
  }

  lemma FailedReported(events: map<string, EventRow>, cands: seq<Candidate>, outcomes: seq<Outcome>)
    requires |cands| == 1 && |outcomes| == 1
    requires AllReported(outcomes, cands, Already(events, PayloadsOf(cands)), false)
    requires var idem := cands[0].payload.idem; idem in events && events[idem].localId == None
    ensures outcomes == [Skipped(None)]
  {
    assert cands[0] in cands && cands[0].payload in PayloadsOf(cands);
    assert Reported(outcomes[0], cands[0].payload.idem, Already(events, PayloadsOf(cands)), false);
  }

  lemma SkipsStand(w: World, landed: World, w': World, mailbox: string, cands: seq<Candidate>, outcomes: seq<Outcome>)
    requires Applied(w, landed, w', mailbox, cands, outcomes, false)
    requires forall i | 0 <= i < |outcomes| :: outcomes[i] == Skipped(None)
    ensures w' == w
  {
    assert forall i | 0 <= i < |outcomes| :: outcomes[i].Skipped?;
    assert landed == w;
    NothingRestored(w.index, w'.index, mailbox, cands, outcomes);
  }

  /** There the script skips the candidate as already recorded, and leaves the platform as it was. */
  method FailedKeyIsSkipped(mailbox: string, rows: seq<SourceRow>, objects: map<string, RawObject>,
                            turns: seq<Turn>, w: World)
    returns (outcomes: seq<Outcome>, w': World)
    requires OneFailedKey(w, mailbox, rows, objects) && |turns| == 1
    ensures outcomes == [Skipped(None)] && w' == w
  {
    ghost var all := Candidates(mailbox, rows, objects);
    assert |all| == 1 && all[0].payload.idem in w.events && w.events[all[0].payload.idem].localId == None;
    var cands, refused, landed;
    ghost var worlds, ran;
    cands, refused, outcomes, landed, w', worlds, ran :=
      Reingest(mailbox, rows, objects, None, false, true, turns, w);
    assert cands == all;
    FailedReported(w.events, cands, outcomes);
    SkipsStand(w, landed, w', mailbox, cands, outcomes);
  }

  // ---------------------------------------------------------------- a key that is inserted

  /** One candidate new to the target, published, and one poll after which its row is processed under this id. */
  ghost predicate OneInsert(w: World, mailbox: string, rows: seq<SourceRow>, objects: map<string, RawObject>,
                            poll: seq<Step>, id: string)
  {
    && |rows| == 1 && |Candidates(mailbox, rows, objects)| == 1
    && var p := Candidates(mailbox, rows, objects)[0].payload;
       var events := Drive(w.(queue := w.queue + {p}), poll).events;
       && p.idem !in w.events && p.idem in events
       && events[p.idem].status == Processed && events[p.idem].localId == Some(id)
  }

  /** Such a target: nothing but the raw object in its bucket, and deliveries that meet no fault. */
  lemma InsertArises(mailbox: string, messageId: Option<string>, day: string, millis: string, sha: string, id: string)
    returns (w: World, rows: seq<SourceRow>, objects: map<string, RawObject>, poll: seq<Step>)
    requires |sha| == HASH_LENGTH
    ensures Fresh(w) && ObjectsOf(objects, w.r2) && OneInsert(w, mailbox, rows, objects, poll, id)
    ensures var landed := Drive(w.(queue := w.queue + {Candidates(mailbox, rows, objects)[0].payload}), poll);
            && (mailbox, id) in landed.index && id in BoxOf(landed.mailboxes, mailbox).messages
  {
    var key := RawEmailR2Key(mailbox, day, millis, sha);
    RawKeyNamesItsHash(mailbox, day, millis, sha);
    w := World(map[key := sha], {}, {}, map[], map[], map[], map[], map[], []);
    var row := SourceRow("1", "1", "inbox", "[]", key, sha, messageId, day);
    rows, objects := [row], map[key := RawObject(sha, messageId, 0)];
    var p := PayloadFor(mailbox, row, objects[key]);
    assert rows[..0] == [] && Candidates(mailbox, [], objects) == [];
    assert Candidates(mailbox, rows, objects) == [Candidate(row, p)];
    var w1 := w.(queue := w.queue + {p});
    PS.ReachNow(w1);
    var landed := PS.ReachFirstInsert(w1, w1, p, id);
    poll :| Run(w1, poll) == Some(landed);
    DriveIsRun(w1, poll);
  }

  /** There the script reports the candidate inserted under that id. */
  method InsertIsReported(mailbox: string, rows: seq<SourceRow>, objects: map<string, RawObject>, force: bool,
                          poll: seq<Step>, id: string, w: World)
    returns (outcomes: seq<Outcome>, w': World)
    requires OneInsert(w, mailbox, rows, objects, poll, id)
    ensures outcomes == [InsertedAs(Some(id))]
  {
    var cands, refused, landed;
    ghost var worlds, ran;
    ghost var all := Candidates(mailbox, rows, objects);
    assert |all| == 1;
    cands, refused, outcomes, landed, w', worlds, ran :=
      Reingest(mailbox, rows, objects, None, force, true, [Turn(true, false, [poll])], w);
    assert cands == all;
    SoleOutcome(w, worlds, cands, outcomes, Already(w.events, PayloadsOf(cands)), force, poll, id);
  }

  lemma SoleOutcome(w: World, worlds: seq<World>, cands: seq<Candidate>, outcomes: seq<Outcome>,
                    already: map<string, EventRow>, force: bool, poll: seq<Step>, id: string)
    requires |cands| == 1 && |outcomes| == 1 && cands[0].payload.idem !in already
    requires Turns(worlds, outcomes, cands, already, force, [Turn(true, false, [poll])]) && worlds[0] == w
    requires var events := Drive(w.(queue := w.queue + {cands[0].payload}), poll).events;
             && cands[0].payload.idem in events && events[cands[0].payload.idem].status == Processed
             && events[cands[0].payload.idem].localId == Some(id)
    ensures outcomes == [InsertedAs(Some(id))]
  {
    SoleTurn(w, worlds[1], cands[0], outcomes[0], already, force, poll, id);
  }

  lemma SoleTurn(w: World, w': World, c: Candidate, o: Outcome, already: map<string, EventRow>, force: bool,
                 poll: seq<Step>, id: string)
    requires Turned(o, w, w', c, already, force, Turn(true, false, [poll])) && c.payload.idem !in already
    requires var events := Drive(w.(queue := w.queue + {c.payload}), poll).events;
             && c.payload.idem in events && events[c.payload.idem].status == Processed
             && events[c.payload.idem].localId == Some(id)
    ensures o == InsertedAs(Some(id))
  {
    var w1 := w.(queue := w.queue + {c.payload});
    assert [poll][..1] == [poll] && [poll][1..] == [];
    assert DriveAll(w1, [poll]) == Drive(w1, poll);
    assert SettlesAt(w1, c.payload.idem, None, [poll], 1);
  }

  // ---------------------------------------------------------------- replay, then audit

  /** Every message parsed and its own delivery wrote its index row: before the restore, or needing none. */
  ghost predicate AllProjected(cands: seq<Candidate>, outcomes: seq<Outcome>, mailbox: string, ran: seq<Step>,
                               landed: World, more: seq<Step>, last: World)
    requires AllInserted(outcomes) && |outcomes| == |cands|
  {
    forall i | 0 <= i < |cands| ::
      var key := (mailbox, NewIds(outcomes)[i]);
      && key.1 in BoxOf(last.mailboxes, mailbox).messages
      && BoxOf(last.mailboxes, mailbox).messages[key.1].parse == Parsed
      && if Projects(more, last, key) then cands[i].row.state == "inbox" && cands[i].row.labels == "[]"
         else Projects(ran, landed, key)
  }

  /** Deliveries after the restore: what they leave for the audit. */
  lemma LaterDeliveries(w': World, later: seq<Step>, mailbox: string, ps: set<Payload>)
    requires Replaying(w', mailbox, ps) && Deliveries(later)
    ensures Replaying(Drive(w', later), mailbox, ps) && Grows(w'.mailboxes, Drive(w', later).mailboxes)
    ensures Run(w', Enabled(w', later)) == Some(Drive(w', later))
    ensures forall key :: RowSince(w', Drive(w', later), key)
    ensures forall key :: WroteRow(Drive(w', later).log[|w'.log|..], key)
                     <==> Projects(Enabled(w', later), Drive(w', later), key)
  {
    DriveReplaying(w', mailbox, ps, later);
    EnabledRuns(w', later);
    var steps := Enabled(w', later);
    forall i | 0 <= i < |steps| ensures !Rebuilds(steps[i]) { assert steps[i] in later; }
    forall key ensures RowSince(w', Drive(w', later), key)
               ensures WroteRow(Drive(w', later).log[|w'.log|..], key) <==> Projects(steps, Drive(w', later), key)
    {
      RunRow(w', steps, key);
      RunProjects(w', steps, key);
    }
  }

  lemma AllToldCarried(outcomes: seq<Outcome>, cands: seq<Candidate>, box: Mailbox, box': Mailbox,
                       already: map<string, EventRow>, force: bool)
    requires AllTold(outcomes, cands, box, already, force) && BoxGrows(box, box')
    ensures AllTold(outcomes, cands, box', already, force)
  {
    forall i | 0 <= i < |outcomes| ensures Told(outcomes[i], cands[i].payload.idem, box', already, force) {
      ToldCarried(outcomes[i], cands[i].payload.idem, box, box', already, force);
    }
  }

  lemma RanIndexes(w: World, ran: seq<Step>, turns: seq<Turn>, landed: World)
    requires Fresh(w) && Run(w, ran) == Some(landed) && OwnSteps(ran, turns)
    ensures forall key :: WroteRow(landed.log, key) <==> Projects(ran, landed, key)
  {
    FreshInv(w);
    forall key ensures WroteRow(landed.log, key) <==> Projects(ran, landed, key) {
      RunProjects(w, ran, key);
      assert landed.log[|w.log|..] == landed.log;
    }
  }

  lemma ArrivedIffProjected(cands: seq<Candidate>, outcomes: seq<Outcome>, mailbox: string, ran: seq<Step>,
                            landed: World, more: seq<Step>, last: World)
    requires AllInserted(outcomes) && |outcomes| == |cands| && |landed.log| <= |last.log|
    requires forall key :: WroteRow(landed.log, key) <==> Projects(ran, landed, key)
    requires forall key :: WroteRow(last.log[|landed.log|..], key) <==> Projects(more, last, key)
    ensures AllProjected(cands, outcomes, mailbox, ran, landed, more, last) <==>
            forall i | 0 <= i < |cands| ::
              Arrived(BoxOf(last.mailboxes, mailbox), cands[i], landed.log, last.log[|landed.log|..],
                      (mailbox, NewIds(outcomes)[i]))
  {}

  /**
   * From a target nothing has reached: replay every candidate, restore, let deliveries go on, audit. When
   * every outcome is `inserted` the audit calls for no failure exactly when the pins agree, every message
   * parsed, and the delivery told that it inserted it wrote its index row in some poll of the replay, or after
   * the restore of a message that was in the inbox without labels.
   */
  method ReplayThenAudit(mailbox: string, rows: seq<SourceRow>, objects: map<string, RawObject>, force: bool,
                         turns: seq<Turn>, w: World, later: seq<Step>)
    returns (outcomes: seq<Outcome>, landed: World, last: World, ghost ran: seq<Step>, ghost more: seq<Step>)
    requires SourceAccounted(rows, objects) && DistinctIdems(Candidates(mailbox, rows, objects))
    requires Fresh(w) && ObjectsOf(objects, w.r2) && |turns| == |rows| && Deliveries(later)
    requires forall i | 0 <= i < |turns| :: Calm(turns[i])
    ensures Run(w, ran) == Some(landed) && OwnSteps(ran, turns) && forall s | s in more :: s in later
    ensures |outcomes| == |Candidates(mailbox, rows, objects)|
    ensures AllInserted(outcomes) ==>
              forall q | Audits(q, rows, objects, BoxOf(last.mailboxes, mailbox))
                         && IndexedAs(q.target, last.index, mailbox) ::
                A.Faultless(q) <==>
                  A.PinsAgree(q)
                  && AllProjected(Candidates(mailbox, rows, objects), outcomes, mailbox, ran, landed, more, last)
  {
    var cands, refused, w';
    ghost var ps := PayloadsOf(Candidates(mailbox, rows, objects));
    CandidatesAre(mailbox, rows, objects);
    FreshTarget(w, mailbox, ps);
    ghost var worlds;
    cands, refused, outcomes, landed, w', worlds, ran :=
      Reingest(mailbox, rows, objects, None, force, true, turns, w);
    last, more := Drive(w', later), Enabled(w', later);
    EnabledRuns(w', later);
    if AllInserted(outcomes) {
      AuditedIff(mailbox, rows, objects, force, turns, w, outcomes, landed, w', later, ran);
    }
  }

  lemma AuditedIff(mailbox: string, rows: seq<SourceRow>, objects: map<string, RawObject>, force: bool,
                   turns: seq<Turn>, w: World, outcomes: seq<Outcome>, landed: World, w': World, later: seq<Step>,
                   ran: seq<Step>)
    requires SourceAccounted(rows, objects) && DistinctIdems(Candidates(mailbox, rows, objects))
    requires Fresh(w) && Deliveries(later) && AllInserted(outcomes)
    requires ReplayedAlone(w, landed, outcomes, Candidates(mailbox, rows, objects),
                           Already(w.events, PayloadsOf(Candidates(mailbox, rows, objects))), force, turns, mailbox,
                           PayloadsOf(Candidates(mailbox, rows, objects)), ran)
    requires Restored(landed, w', mailbox, Candidates(mailbox, rows, objects), outcomes)
    requires Replaying(w', mailbox, PayloadsOf(Candidates(mailbox, rows, objects)))
    ensures var last := Drive(w', later);
            forall q | Audits(q, rows, objects, BoxOf(last.mailboxes, mailbox))
                       && IndexedAs(q.target, last.index, mailbox) ::
              A.Faultless(q) <==>
                A.PinsAgree(q) && AllProjected(Candidates(mailbox, rows, objects), outcomes, mailbox, ran, landed,
                                               Enabled(w', later), last)
  {
    var cands := Candidates(mailbox, rows, objects);
    var ps, last := PayloadsOf(cands), Drive(w', later);
    var already := Already(w.events, ps);
    LaterDeliveries(w', later, mailbox, ps);
    assert RowSince(w', last, ("", ""));
    assert BoxGrows(BoxOf(landed.mailboxes, mailbox), BoxOf(last.mailboxes, mailbox));
    AllToldCarried(outcomes, cands, BoxOf(landed.mailboxes, mailbox), BoxOf(last.mailboxes, mailbox), already, force);
    RanIndexes(w, ran, turns, landed);
    ArrivedIffProjected(cands, outcomes, mailbox, ran, landed, Enabled(w', later), last);
    forall q | Audits(q, rows, objects, BoxOf(last.mailboxes, mailbox)) && IndexedAs(q.target, last.index, mailbox)
      ensures A.Faultless(q) <==>
                A.PinsAgree(q) && AllProjected(cands, outcomes, mailbox, ran, landed, Enabled(w', later), last)
    {
      AuditOfReplay(mailbox, rows, objects, outcomes, already, force, landed, w', last, q);
    }
  }
}
