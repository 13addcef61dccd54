/**
 * The inbound mail path as a step system: the email handler stores the raw message and then
 * enqueues it, the queue consumer asks the mailbox's Durable Object to ingest it, projects the
 * answer into two D1 tables, announces it and acks, and the admin reindex rebuilds one projection.
 * Every effect is a step of its own, any number of deliveries interleave, and a delivery may stop
 * after any of its effects.
 */
module Pipeline {
  import opened Common
  import Text

  // ---------------------------------------------------------------- entities

  /** The queue message, reduced to what the consumer and the Durable Object read. */
  datatype Payload = Payload(
    mailbox: string, rawKey: string, sha: string, idem: string, receivedAt: string)

  /** What reaches the consumer: a body the schema rejects, or an email payload. */
  datatype Body = Malformed | Email(payload: Payload)

  datatype ParseStatus = Parsed | ParseFailed

  datatype DoMessage = DoMessage(
    idem: string, rawKey: string, sha: string, thread: string, receivedAt: string,
    parse: ParseStatus, state: string)

  datatype LedgerEntry = LedgerEntry(sha: string, localId: string)

  /** One mailbox Durable Object: its idempotency ledger and its messages by local id. */
  datatype Mailbox = Mailbox(ledger: map<string, LedgerEntry>, messages: map<string, DoMessage>)

  datatype Answer =
    | Inserted(localId: string, thread: string)
    | Duplicate(localId: string)
    | Conflict

  datatype IndexRow = IndexRow(
    thread: string, receivedAt: string, state: string, labels: string, rawKey: string, sha: string)

  datatype EventStatus = Processed | Failed

  datatype EventRow = EventRow(
    mailbox: string, localId: Option<string>, rawKey: string, status: EventStatus,
    error: Option<string>)

  type IndexKey = (string, string)

  datatype Phase =
    | Received | Headed | Parsing | Answered | Indexed | Recorded | Finishing | Acked | Retried

  datatype Delivery = Delivery(p: Payload, phase: Phase, answer: Option<Answer>, told: bool)

  datatype Reindexing = Reindexing(
    mailbox: string, cleared: bool, pending: map<string, IndexRow>)

  /** What has happened so far, oldest first. */
  datatype Effect =
    | AnswerGiven(d: nat, p: Payload, answer: Answer)
    | IndexWritten(d: nat, key: IndexKey, row: IndexRow)
    | EventWritten(d: nat, idem: string, event: EventRow)
    | NotificationSent(d: nat, p: Payload, answer: Answer)
    | MessageAcked(d: nat, p: Payload, answer: Answer)

  datatype World = World(
    r2: map<string, string>,
    stored: set<Payload>,
    queue: set<Payload>,
    mailboxes: Boxes,
    index: map<IndexKey, IndexRow>,
    events: map<string, EventRow>,
    deliveries: map<nat, Delivery>,
    reindexes: map<nat, Reindexing>,
    log: seq<Effect>)

  // ---------------------------------------------------------------- R2 keys

  const HASH_LENGTH := 64

  /** src/lib/r2-keys.ts: the key spells the receive instant and the content hash. */
  function RawEmailR2Key(mailbox: string, day: string, millis: string, sha: string): string {
    "raw/dev/" + mailbox + "/" + day + "/" + millis + "-" + sha + ".eml"
  }

  predicate IsRawKey(key: string) {
    |key| >= HASH_LENGTH + 4 && "raw/" <= key && key[|key| - 4..] == ".eml"
  }

  function HashInKey(key: string): string
    requires IsRawKey(key)
  {
    key[|key| - 4 - HASH_LENGTH..|key| - 4]
  }

  lemma RawKeyNamesItsHash(mailbox: string, day: string, millis: string, sha: string)
    requires |sha| == HASH_LENGTH
    ensures var key := RawEmailR2Key(mailbox, day, millis, sha);
            IsRawKey(key) && HashInKey(key) == sha
  {
    var front := "raw/dev/" + mailbox + "/" + day + "/" + millis + "-";
    var key := RawEmailR2Key(mailbox, day, millis, sha);
    assert key == front + sha + ".eml";
    assert "raw/dev/" <= front;
    assert key[..4] == "raw/dev/"[..4] == "raw/";
  }

  /** Two raw keys are one only if all they are built from is: no email's bytes are put over another's. */
  lemma RawKeysDiffer(mailbox: string, day: string, millis: string, sha: string,
                      mailbox': string, day': string, millis': string, sha': string)
    requires |sha| == HASH_LENGTH && |sha'| == HASH_LENGTH
    requires '/' !in mailbox && '/' !in mailbox' && |day| == |day'|
    requires RawEmailR2Key(mailbox, day, millis, sha) == RawEmailR2Key(mailbox', day', millis', sha')
    ensures mailbox == mailbox' && day == day' && millis == millis' && sha == sha'
  {
    var tail, tail' := "-" + sha + ".eml", "-" + sha' + ".eml";
    var rest, rest' := day + ("/" + millis + tail), day' + ("/" + millis' + tail');
    assert RawEmailR2Key(mailbox, day, millis, sha) == "raw/dev/" + (mailbox + ['/'] + rest);
    assert RawEmailR2Key(mailbox', day', millis', sha') == "raw/dev/" + (mailbox' + ['/'] + rest');
    Text.PartAfter("raw/dev/", mailbox + ['/'] + rest, mailbox' + ['/'] + rest');
    Text.PartAtFirst(mailbox, mailbox', rest, rest', '/');
    assert rest[..|day|] == day && rest'[..|day|] == day';
    Text.PartAfter(day, "/" + millis + tail, "/" + millis' + tail');
    Text.PartAtEnd("/" + millis, "/" + millis', tail, tail');
    Text.PartAfter("/", millis, millis');
    Text.PartAtEnd("-" + sha, "-" + sha', ".eml", ".eml");
    Text.PartAfter("-", sha, sha');
  }

  /** What the email handler builds: the key carries the hash of the bytes it stored. */
  predicate FromHandler(p: Payload) {
    IsRawKey(p.rawKey) && HashInKey(p.rawKey) == p.sha
  }

  // ---------------------------------------------------------------- rows

  const EmptyMailbox := Mailbox(map[], map[])

  type Boxes = map<string, Mailbox>

  function BoxOf(boxes: Boxes, mailbox: string): Mailbox {
    if mailbox in boxes then boxes[mailbox] else EmptyMailbox
  }

  function SetBox(boxes: Boxes, mailbox: string, box: Mailbox): (boxes': Boxes)
    ensures BoxOf(boxes', mailbox) == box
    ensures forall m | m != mailbox :: BoxOf(boxes', m) == BoxOf(boxes, m)
  {
    if BoxOf(boxes, mailbox) == box then boxes else boxes[mailbox := box]
  }

  /** The answer an existing ledger entry dictates, if there is one. */
  function LedgerAnswer(box: Mailbox, p: Payload): Option<Answer> {
    if p.idem !in box.ledger then None
    else if box.ledger[p.idem].sha != p.sha then Some(Conflict)
    else Some(Duplicate(box.ledger[p.idem].localId))
  }

  function NewMessage(p: Payload, thread: string, parses: bool): DoMessage {
    DoMessage(p.idem, p.rawKey, p.sha, thread, p.receivedAt,
              if parses then Parsed else ParseFailed, "inbox")
  }

  /** A message moved to another folder by its reader: only the Durable Object records it. */
  function Filed(box: Mailbox, localId: string, state: string): Mailbox
    requires localId in box.messages
  {
    box.(messages := box.messages[localId := box.messages[localId].(state := state)])
  }

  function WithMessage(box: Mailbox, p: Payload, localId: string, m: DoMessage): Mailbox {
    Mailbox(box.ledger[p.idem := LedgerEntry(p.sha, localId)], box.messages[localId := m])
  }

  /** The row the consumer upserts after an insert. */
  function ArrivalRow(p: Payload, thread: string): IndexRow {
    IndexRow(thread, p.receivedAt, "inbox", "[]", p.rawKey, p.sha)
  }

  /** The row the reindex upserts for an exported message: labels are not in the export. */
  function ExportRow(m: DoMessage): IndexRow {
    IndexRow(m.thread, m.receivedAt, m.state, "[]", m.rawKey, m.sha)
  }

  function Export(box: Mailbox): map<string, IndexRow> {
    map l | l in box.messages :: ExportRow(box.messages[l])
  }

  function EventFor(p: Payload, a: Answer): EventRow {
    match a
    case Inserted(l, _) => EventRow(p.mailbox, Some(l), p.rawKey, Processed, None)
    case Duplicate(l) => EventRow(p.mailbox, Some(l), p.rawKey, Processed, None)
    case Conflict => EventRow(p.mailbox, None, p.rawKey, Failed, Some("message_id_conflict"))
  }

  // What those rows say, field by field.

  /** The index row of a message that has just arrived: in the inbox, without labels. */
  ghost predicate ShowsArrival(row: IndexRow, p: Payload, thread: string) {
    && row.thread == thread && row.receivedAt == p.receivedAt && row.state == "inbox" && row.labels == "[]"
    && row.rawKey == p.rawKey && row.sha == p.sha
  }

  /** The row shows the message where it is filed now, without labels. */
  ghost predicate ShowsMessage(row: IndexRow, m: DoMessage) {
    && row.thread == m.thread && row.receivedAt == m.receivedAt && row.state == m.state && row.labels == "[]"
    && row.rawKey == m.rawKey && row.sha == m.sha
  }

  /** The message the payload announces, as the mailbox first keeps it. */
  ghost predicate Keeps(m: DoMessage, p: Payload, thread: string, parses: bool) {
    && m.idem == p.idem && m.rawKey == p.rawKey && m.sha == p.sha
    && m.thread == thread && m.receivedAt == p.receivedAt && m.state == "inbox"
    && (m.parse.Parsed? <==> parses)
  }

  /** The ingest row says which message the email is, or that its key is another email's. */
  ghost predicate Tells(event: EventRow, p: Payload, a: Answer) {
    && event.mailbox == p.mailbox && event.rawKey == p.rawKey
    && match a
       case Inserted(l, _) => event.status == Processed && event.localId == Some(l) && event.error == None
       case Duplicate(l) => event.status == Processed && event.localId == Some(l) && event.error == None
       case Conflict =>
         event.status == Failed && event.localId == None && event.error == Some("message_id_conflict")
  }

  function WithoutMailbox(index: map<IndexKey, IndexRow>, mailbox: string): map<IndexKey, IndexRow> {
    map k | k in index && k.0 != mailbox :: index[k]
  }

  // ---------------------------------------------------------------- steps

  /** One step of a delivery: an effect of the consumer or of the Durable Object it calls. */
  datatype Action =
    | HeadRaw
    | Precheck
    | Commit(localId: string, thread: string, parses: bool, realtime: bool)
    | WriteIndex
    | WriteEvent
    | WriteOps
    | Notify(sent: bool)
    | Ack
    | Fail

  datatype Step =
    | PutRaw(p: Payload)
    | Send(p: Payload)
    | Replay(p: Payload)
    | Deliver(d: nat, p: Payload)
    | Act(d: nat, action: Action)
    | FileMessage(mailbox: string, localId: string, state: string)
    | StartReindex(x: nat, mailbox: string)
    | ClearIndex(x: nat)
    | ReindexRow(x: nat, localId: string)

  /** What one action changes: its delivery, its mailbox, the rows it upserts, what it logs. */
  datatype Change = Change(
    dv: Delivery, box: Mailbox, index: map<IndexKey, IndexRow>, events: map<string, EventRow>,
    log: seq<Effect>)

  function Only(dv: Delivery, box: Mailbox): Change {
    Change(dv, box, map[], map[], [])
  }

  /** The Durable Object's answer, now held by the consumer. */
  function Give(d: nat, dv: Delivery, box: Mailbox, a: Answer): Change {
    Only(dv.(phase := Answered, answer := Some(a)), box).(log := [AnswerGiven(d, dv.p, a)])
  }

  /** The insert, one transaction: refused when the ledger already has the key. */
  function CommitIngest(d: nat, dv: Delivery, box: Mailbox, c: Action): (r: Option<Change>)
    requires c.Commit?
  {
    match LedgerAnswer(box, dv.p)
    case Some(a) => Some(Give(d, dv, box, a))
    case None =>
      if c.localId in box.messages then None else
      var box' := WithMessage(box, dv.p, c.localId, NewMessage(dv.p, c.thread, c.parses));
      // A failure between the transaction and the reply re-enters the insert and meets its own row.
      if c.parses && !c.realtime then Some(Give(d, dv, box', Duplicate(c.localId)))
      else Some(Give(d, dv, box', Inserted(c.localId, c.thread)))
  }

  /** The consumer's effects once it holds the answer a. */
  function Project(d: nat, dv: Delivery, box: Mailbox, a: Answer, action: Action)
    : (r: Option<Change>)
  {
    match action
    case WriteIndex =>
      if dv.phase != Answered || !a.Inserted? then None else
      var key := (dv.p.mailbox, a.localId);
      var row := ArrivalRow(dv.p, a.thread);
      Some(Change(dv.(phase := Indexed), box, map[key := row], map[], [IndexWritten(d, key, row)]))
    case WriteEvent =>
      if dv.phase != (if a.Inserted? then Indexed else Answered) then None else
      var event := EventFor(dv.p, a);
      Some(Change(dv.(phase := if a.Duplicate? then Finishing else Recorded), box, map[],
                  map[dv.p.idem := event], [EventWritten(d, dv.p.idem, event)]))
    case WriteOps =>
      if dv.phase != Recorded || !a.Conflict? then None else Some(Only(dv.(phase := Finishing), box))
    case Notify(sent) =>
      if dv.phase != Recorded || !a.Inserted? then None
      else if !sent then Some(Only(dv.(phase := Finishing), box))
      else Some(Only(dv.(phase := Finishing, told := true), box)
                  .(log := [NotificationSent(d, dv.p, a)]))
    case Ack =>
      if dv.phase != Finishing then None
      else Some(Only(dv.(phase := Acked), box).(log := [MessageAcked(d, dv.p, a)]))
    case _ => None
  }

  function Perform(d: nat, dv: Delivery, box: Mailbox, stored: bool, action: Action)
    : (r: Option<Change>)
  {
    match action
    case HeadRaw =>
      if dv.phase != Received || !stored then None else Some(Only(dv.(phase := Headed), box))
    case Precheck =>
      if dv.phase != Headed then None else
      (match LedgerAnswer(box, dv.p)
       case Some(a) => Some(Give(d, dv, box, a))
       case None => Some(Only(dv.(phase := Parsing), box)))
    case Commit(_, _, _, _) => if dv.phase != Parsing then None else CommitIngest(d, dv, box, action)
    case Fail =>
      if dv.phase in {Acked, Retried} then None else Some(Only(dv.(phase := Retried), box))
    case _ => if dv.answer.None? then None else Project(d, dv, box, dv.answer.value, action)
  }

  function Performed(w: World, d: nat, action: Action): (r: Option<Change>)
    requires d in w.deliveries
  {
    var dv := w.deliveries[d];
    Perform(d, dv, BoxOf(w.mailboxes, dv.p.mailbox), dv.p.rawKey in w.r2, action)
  }

  function Changed(w: World, d: nat, c: Change): World {
    w.(deliveries := w.deliveries[d := c.dv],
       mailboxes := SetBox(w.mailboxes, c.dv.p.mailbox, c.box),
       index := w.index + c.index,
       events := w.events + c.events,
       log := w.log + c.log)
  }

  /** The effect of one step, or None where the step is not enabled. */
  function Apply(w: World, s: Step): (r: Option<World>) {
    match s
    case PutRaw(p) =>
      if !FromHandler(p) then None
      else Some(w.(r2 := w.r2[p.rawKey := p.sha], stored := w.stored + {p}))
    case Send(p) =>
      if p !in w.stored then None else Some(w.(queue := w.queue + {p}))
    case Replay(p) =>
      if p.rawKey !in w.r2 || w.r2[p.rawKey] != p.sha then None
      else Some(w.(queue := w.queue + {p}))
    case Deliver(d, p) =>
      if p !in w.queue || d in w.deliveries then None
      else Some(w.(deliveries := w.deliveries[d := Delivery(p, Received, None, false)]))
    case Act(d, action) =>
      if d !in w.deliveries then None else
      (match Performed(w, d, action)
       case None => None
       case Some(c) => Some(Changed(w, d, c)))
    case FileMessage(mailbox, localId, state) =>
      if localId !in BoxOf(w.mailboxes, mailbox).messages then None
      else Some(w.(mailboxes := SetBox(w.mailboxes, mailbox, Filed(BoxOf(w.mailboxes, mailbox), localId, state))))
    case StartReindex(x, mailbox) =>
      if x in w.reindexes then None
      else Some(w.(reindexes := w.reindexes[x := Reindexing(mailbox, false, Export(BoxOf(w.mailboxes, mailbox)))]))
    case ClearIndex(x) =>
      if x !in w.reindexes || w.reindexes[x].cleared then None
      else Some(w.(index := WithoutMailbox(w.index, w.reindexes[x].mailbox),
                   reindexes := w.reindexes[x := w.reindexes[x].(cleared := true)]))
    case ReindexRow(x, localId) =>
      if x !in w.reindexes || !w.reindexes[x].cleared || localId !in w.reindexes[x].pending then None
      else
      var r := w.reindexes[x];
      Some(w.(index := w.index[(r.mailbox, localId) := r.pending[localId]],
              reindexes := w.reindexes[x := r.(pending := r.pending - {localId})]))
  }

  /** The world after a schedule, or None as soon as one of its steps is not enabled. */
  function Run(w: World, steps: seq<Step>): (r: Option<World>)
    decreases |steps|
  {
    if steps == [] then Some(w) else
    match Apply(w, steps[0])
    case None => None
    case Some(w') => Run(w', steps[1..])
  }

  lemma {:induction false} RunConcat(w: World, a: seq<Step>, b: seq<Step>)
    requires Run(w, a).Some?
    ensures Run(w, a + b) == Run(Run(w, a).value, b)
    decreases |a|
  {
    if a == [] {
      assert a + b == b;
    } else {
      assert (a + b)[0] == a[0] && (a + b)[1..] == a[1..] + b;
      RunConcat(Apply(w, a[0]).value, a[1..], b);
    }
  }

  // ---------------------------------------------------------------- invariants

  /** Raw objects sit under keys that name their hash; everything on the queue is stored. */
  ghost predicate RawStored(w: World) {
    && (forall k | k in w.r2 && IsRawKey(k) :: w.r2[k] == HashInKey(k))
    && (forall p | p in w.stored :: FromHandler(p) && p.rawKey in w.r2)
    && (forall p | p in w.queue :: p.rawKey in w.r2 && w.r2[p.rawKey] == p.sha)
    && (forall d | d in w.deliveries :: w.deliveries[d].p in w.queue)
  }

  /** A mailbox's ledger and its messages name each other. */
  ghost predicate BoxConsistent(box: Mailbox) {
    && (forall k | k in box.ledger ::
          && box.ledger[k].localId in box.messages
          && box.messages[box.ledger[k].localId].idem == k
          && box.messages[box.ledger[k].localId].sha == box.ledger[k].sha)
    && (forall l | l in box.messages ::
          && box.messages[l].idem in box.ledger
          && box.ledger[box.messages[l].idem].localId == l)
  }

  ghost predicate BoxesConsistent(boxes: Boxes) {
    forall m :: BoxConsistent(BoxOf(boxes, m))
  }

  /** The row describes a stored message of that mailbox. */
  ghost predicate Names(boxes: Boxes, mailbox: string, localId: string, row: IndexRow) {
    var box := BoxOf(boxes, mailbox);
    localId in box.messages && box.messages[localId].rawKey == row.rawKey
    && box.messages[localId].sha == row.sha
  }

  ghost predicate RowsFaithful(boxes: Boxes, index: map<IndexKey, IndexRow>) {
    forall k | k in index :: Names(boxes, k.0, k.1, index[k])
  }

  ghost predicate PendingFaithful(boxes: Boxes, r: Reindexing) {
    forall l | l in r.pending :: Names(boxes, r.mailbox, l, r.pending[l])
  }

  /** Every index row, and every row a reindex is about to write, names a stored message. */
  ghost predicate IndexFaithful(w: World) {
    && RowsFaithful(w.mailboxes, w.index)
    && (forall x | x in w.reindexes :: PendingFaithful(w.mailboxes, w.reindexes[x]))
  }

  /** What an answer says about the mailbox, from the moment it is given on. */
  ghost predicate AnswerHolds(box: Mailbox, p: Payload, a: Answer) {
    && p.idem in box.ledger
    && match a
       case Inserted(l, _) =>
         box.ledger[p.idem] == LedgerEntry(p.sha, l) && l in box.messages
         && box.messages[l].rawKey == p.rawKey && box.messages[l].sha == p.sha
       case Duplicate(l) => box.ledger[p.idem] == LedgerEntry(p.sha, l)
       case Conflict => box.ledger[p.idem].sha != p.sha
  }

  ghost predicate DeliveryHolds(box: Mailbox, dv: Delivery) {
    if dv.answer.None? then
      dv.phase in {Received, Headed, Parsing, Retried} && !dv.told
    else
      && dv.phase !in {Received, Headed, Parsing}
      && AnswerHolds(box, dv.p, dv.answer.value)
      && (dv.told ==> dv.answer.value.Inserted? && dv.phase in {Finishing, Acked, Retried})
  }

  /** Both deliveries were told they inserted the same message. */
  ghost predicate SameInsert(dv: Delivery, ev: Delivery) {
    && dv.answer.Some? && dv.answer.value.Inserted?
    && ev.answer.Some? && ev.answer.value.Inserted?
    && dv.p.mailbox == ev.p.mailbox
    && dv.answer.value.localId == ev.answer.value.localId
  }

  ghost predicate OneInserter(deliveries: map<nat, Delivery>) {
    forall d, e | d in deliveries && e in deliveries && SameInsert(deliveries[d], deliveries[e]) ::
      d == e
  }

  ghost predicate AnswersConsistent(w: World) {
    && (forall d | d in w.deliveries ::
          DeliveryHolds(BoxOf(w.mailboxes, w.deliveries[d].p.mailbox), w.deliveries[d]))
    && OneInserter(w.deliveries)
  }

  function RowWritten(d: nat, p: Payload, a: Answer): Effect
    requires a.Inserted?
  {
    IndexWritten(d, (p.mailbox, a.localId), ArrivalRow(p, a.thread))
  }

  function EventLogged(d: nat, p: Payload, a: Answer): Effect {
    EventWritten(d, p.idem, EventFor(p, a))
  }

  /** What the log already holds at each phase of an answered delivery. */
  ghost predicate PhaseLogged(d: nat, dv: Delivery, log: seq<Effect>) {
    dv.answer.Some? ==>
      var a := dv.answer.value;
      && AnswerGiven(d, dv.p, a) in log
      && (a.Inserted? && dv.phase in {Indexed, Recorded, Finishing, Acked} ==>
            RowWritten(d, dv.p, a) in log)
      && (dv.phase in {Recorded, Finishing, Acked} ==> EventLogged(d, dv.p, a) in log)
  }

  /** The effects that must come before e. */
  ghost predicate Justified(before: seq<Effect>, e: Effect) {
    match e
    case NotificationSent(d, p, a) =>
      a.Inserted? && RowWritten(d, p, a) in before && EventLogged(d, p, a) in before
    case MessageAcked(d, p, a) =>
      && AnswerGiven(d, p, a) in before
      && EventLogged(d, p, a) in before
      && (a.Inserted? ==> RowWritten(d, p, a) in before)
    case _ => true
  }

  ghost predicate LogOrdered(log: seq<Effect>) {
    forall i | 0 <= i < |log| :: Justified(log[..i], log[i])
  }

  /** Each notification was sent by the delivery it names, and no delivery sent two. */
  ghost predicate NotifiedByTeller(deliveries: map<nat, Delivery>, log: seq<Effect>) {
    && (forall i | 0 <= i < |log| && log[i].NotificationSent? ::
          && log[i].d in deliveries
          && deliveries[log[i].d].told
          && deliveries[log[i].d].p == log[i].p
          && deliveries[log[i].d].answer == Some(log[i].answer))
    && (forall i, j | 0 <= i < j < |log| && log[i].NotificationSent? && log[j].NotificationSent? ::
          log[i].d != log[j].d)
  }

  ghost predicate Logged(w: World) {
    && (forall d | d in w.deliveries :: PhaseLogged(d, w.deliveries[d], w.log))
    && LogOrdered(w.log)
    && NotifiedByTeller(w.deliveries, w.log)
  }

  ghost predicate Inv(w: World) {
    && RawStored(w) && BoxesConsistent(w.mailboxes) && IndexFaithful(w)
    && AnswersConsistent(w) && Logged(w)
  }

  /** A platform before any mail: only R2 may already hold objects, under honest raw keys. */
  ghost predicate Fresh(w: World) {
    && (forall k | k in w.r2 && IsRawKey(k) :: w.r2[k] == HashInKey(k))
    && w == World(w.r2, {}, {}, map[], map[], map[], map[], map[], [])
  }

  // ---------------------------------------------------------------- preservation

  /** A mailbox's stored messages keep their identity; its ledger entries are never rewritten. */
  ghost predicate BoxGrows(box: Mailbox, box': Mailbox) {
    && (forall k | k in box.ledger :: k in box'.ledger && box'.ledger[k] == box.ledger[k])
    && (forall l | l in box.messages ::
          && l in box'.messages
          && box'.messages[l].rawKey == box.messages[l].rawKey
          && box'.messages[l].sha == box.messages[l].sha)
  }

  ghost predicate Grows(boxes: Boxes, boxes': Boxes) {
    forall m :: BoxGrows(BoxOf(boxes, m), BoxOf(boxes', m))
  }

  lemma InsertKept(box: Mailbox, p: Payload, localId: string, m: DoMessage)
    requires p.idem !in box.ledger && localId !in box.messages
    requires m.idem == p.idem && m.sha == p.sha
    ensures BoxGrows(box, WithMessage(box, p, localId, m))
    ensures BoxConsistent(box) ==> BoxConsistent(WithMessage(box, p, localId, m))
  {}

  lemma FilingKept(box: Mailbox, localId: string, state: string)
    requires localId in box.messages
    ensures BoxGrows(box, Filed(box, localId, state))
    ensures BoxConsistent(box) ==> BoxConsistent(Filed(box, localId, state))
  {}

  /** One action: its box stays consistent, its delivery stays truthful, what it logs is justified. */
  lemma ActionKept(d: nat, dv: Delivery, box: Mailbox, stored: bool, action: Action, c: Change)
    requires Perform(d, dv, box, stored, action) == Some(c)
    requires BoxConsistent(box) && DeliveryHolds(box, dv)
    ensures BoxGrows(box, c.box) && BoxConsistent(c.box) && DeliveryHolds(c.box, c.dv)
    ensures c.dv.p == dv.p && (dv.told ==> c.dv.told)
    ensures dv.answer.Some? ==> c.dv.answer == dv.answer
    ensures dv.answer.None? && c.dv.answer.Some? && c.dv.answer.value.Inserted? ==>
              c.dv.answer.value.localId !in box.messages
  {
    if action.Commit? && LedgerAnswer(box, dv.p).None? {
      InsertKept(box, dv.p, action.localId, NewMessage(dv.p, action.thread, action.parses));
    } else {
      assert c.box == box;
    }
  }

  lemma ActionRows(d: nat, dv: Delivery, box: Mailbox, stored: bool, action: Action, c: Change)
    requires Perform(d, dv, box, stored, action) == Some(c) && DeliveryHolds(box, dv)
    ensures c.index == map[] || (action.WriteIndex? && dv.answer.Some? && dv.answer.value.Inserted?
              && c.index == map[(dv.p.mailbox, dv.answer.value.localId) :=
                                ArrivalRow(dv.p, dv.answer.value.thread)])
  {}

  lemma ActionLogged(d: nat, dv: Delivery, box: Mailbox, stored: bool, action: Action, c: Change,
                     log: seq<Effect>)
    requires Perform(d, dv, box, stored, action) == Some(c)
    requires DeliveryHolds(box, dv) && PhaseLogged(d, dv, log)
    ensures PhaseLogged(d, c.dv, log + c.log)
    ensures |c.log| <= 1
    ensures forall e | e in c.log ::
              Justified(log, e) && e.d == d && (e.NotificationSent? ==>
                !dv.told && c.dv.told && e.p == c.dv.p && Some(e.answer) == c.dv.answer)
  {
  }

  lemma OneBoxGrows(boxes: Boxes, mailbox: string, box: Mailbox)
    requires BoxGrows(BoxOf(boxes, mailbox), box)
    ensures Grows(boxes, SetBox(boxes, mailbox, box))
    ensures BoxesConsistent(boxes) && BoxConsistent(box) ==>
              BoxesConsistent(SetBox(boxes, mailbox, box))
  {}

  lemma IndexCarried(w: World, boxes': Boxes)
    requires Grows(w.mailboxes, boxes') && IndexFaithful(w)
    ensures IndexFaithful(w.(mailboxes := boxes'))
  {
    forall k | k in w.index ensures Names(boxes', k.0, k.1, w.index[k]) {
      assert BoxGrows(BoxOf(w.mailboxes, k.0), BoxOf(boxes', k.0));
    }
    forall x | x in w.reindexes ensures PendingFaithful(boxes', w.reindexes[x]) {
      assert BoxGrows(BoxOf(w.mailboxes, w.reindexes[x].mailbox), BoxOf(boxes', w.reindexes[x].mailbox));
      assert PendingFaithful(w.mailboxes, w.reindexes[x]);
    }
  }

  lemma RowAdded(boxes: Boxes, index: map<IndexKey, IndexRow>, key: IndexKey, row: IndexRow)
    requires RowsFaithful(boxes, index) && Names(boxes, key.0, key.1, row)
    ensures RowsFaithful(boxes, index[key := row])
  {}

  lemma AnswersCarried(boxes: Boxes, boxes': Boxes, deliveries: map<nat, Delivery>)
    requires Grows(boxes, boxes')
    requires forall d | d in deliveries :: DeliveryHolds(BoxOf(boxes, deliveries[d].p.mailbox), deliveries[d])
    ensures forall d | d in deliveries :: DeliveryHolds(BoxOf(boxes', deliveries[d].p.mailbox), deliveries[d])
  {
    forall d | d in deliveries
      ensures DeliveryHolds(BoxOf(boxes', deliveries[d].p.mailbox), deliveries[d])
    {
      assert BoxGrows(BoxOf(boxes, deliveries[d].p.mailbox), BoxOf(boxes', deliveries[d].p.mailbox));
    }
  }

  /** A delivery answered `inserted` is the first to hold that local id. */
  lemma OneInserterKept(boxes: Boxes, deliveries: map<nat, Delivery>, d: nat, dv: Delivery)
    requires forall e | e in deliveries ::
               DeliveryHolds(BoxOf(boxes, deliveries[e].p.mailbox), deliveries[e])
    requires OneInserter(deliveries) && d in deliveries && dv.p == deliveries[d].p
    requires deliveries[d].answer.Some? ==> dv.answer == deliveries[d].answer
    requires deliveries[d].answer.None? && dv.answer.Some? && dv.answer.value.Inserted? ==>
               dv.answer.value.localId !in BoxOf(boxes, dv.p.mailbox).messages
    ensures OneInserter(deliveries[d := dv])
  {
    var after := deliveries[d := dv];
    forall e | e in deliveries && e != d ensures !SameInsert(dv, deliveries[e]) {
      assert DeliveryHolds(BoxOf(boxes, deliveries[e].p.mailbox), deliveries[e]);
      assert !SameInsert(deliveries[d], deliveries[e]);
    }
  }

  lemma LogExtended(log: seq<Effect>, more: seq<Effect>)
    requires LogOrdered(log) && |more| <= 1 && forall e | e in more :: Justified(log, e)
    ensures LogOrdered(log + more)
  {
    var all := log + more;
    forall i | 0 <= i < |all| ensures Justified(all[..i], all[i]) {
      assert all[..i] == log[..i];
    }
  }

  lemma TellerKept(deliveries: map<nat, Delivery>, log: seq<Effect>, d: nat, dv: Delivery, more: seq<Effect>)
    requires NotifiedByTeller(deliveries, log) && d in deliveries && |more| <= 1
    requires dv.p == deliveries[d].p && (deliveries[d].told ==> dv.told)
    requires deliveries[d].answer.Some? ==> dv.answer == deliveries[d].answer
    requires forall e | e in more :: e.d == d && (e.NotificationSent? ==>
               !deliveries[d].told && dv.told && e.p == dv.p && Some(e.answer) == dv.answer)
    ensures NotifiedByTeller(deliveries[d := dv], log + more)
  {
    if more != [] { assert more[0] in more; }
  }

  lemma ActKept(w: World, d: nat, action: Action, c: Change)
    requires Inv(w) && d in w.deliveries && Performed(w, d, action) == Some(c)
    ensures Inv(Changed(w, d, c))
  {
    var dv := w.deliveries[d];
    var box := BoxOf(w.mailboxes, dv.p.mailbox);
    assert DeliveryHolds(box, dv) && PhaseLogged(d, dv, w.log);
    ActionKept(d, dv, box, dv.p.rawKey in w.r2, action, c);
    ActStoresKept(w, d, c);
    ActIndexKept(w, d, action, c);
    ActAnswersKept(w, d, c);
    ActLoggedKept(w, d, action, c);
  }

  lemma ActStoresKept(w: World, d: nat, c: Change)
    requires RawStored(w) && BoxesConsistent(w.mailboxes) && d in w.deliveries
    requires c.dv.p == w.deliveries[d].p
    requires BoxGrows(BoxOf(w.mailboxes, c.dv.p.mailbox), c.box) && BoxConsistent(c.box)
    ensures RawStored(Changed(w, d, c)) && BoxesConsistent(Changed(w, d, c).mailboxes)
  {
    OneBoxGrows(w.mailboxes, c.dv.p.mailbox, c.box);
  }

  lemma ActIndexKept(w: World, d: nat, action: Action, c: Change)
    requires IndexFaithful(w) && d in w.deliveries && Performed(w, d, action) == Some(c)
    requires var dv := w.deliveries[d];
             var box := BoxOf(w.mailboxes, dv.p.mailbox);
             DeliveryHolds(box, dv) && BoxGrows(box, c.box) && c.dv.p == dv.p
    ensures IndexFaithful(Changed(w, d, c))
  {
    var dv := w.deliveries[d];
    var boxes' := Changed(w, d, c).mailboxes;
    OneBoxGrows(w.mailboxes, dv.p.mailbox, c.box);
    IndexCarried(w, boxes');
    ActRowsKept(d, dv, BoxOf(w.mailboxes, dv.p.mailbox), dv.p.rawKey in w.r2, action, c,
                boxes', w.index);
  }

  lemma ActAnswersKept(w: World, d: nat, c: Change)
    requires AnswersConsistent(w) && d in w.deliveries
    requires var dv := w.deliveries[d];
             var box := BoxOf(w.mailboxes, dv.p.mailbox);
             && c.dv.p == dv.p && BoxGrows(box, c.box) && DeliveryHolds(c.box, c.dv)
             && (dv.answer.Some? ==> c.dv.answer == dv.answer)
             && (dv.answer.None? && c.dv.answer.Some? && c.dv.answer.value.Inserted? ==>
                   c.dv.answer.value.localId !in box.messages)
    ensures AnswersConsistent(Changed(w, d, c))
  {
    OneBoxGrows(w.mailboxes, c.dv.p.mailbox, c.box);
    AnswersCarried(w.mailboxes, Changed(w, d, c).mailboxes, w.deliveries);
    OneInserterKept(w.mailboxes, w.deliveries, d, c.dv);
  }

  lemma ActRowsKept(d: nat, dv: Delivery, box: Mailbox, stored: bool, action: Action, c: Change,
                    boxes': Boxes, index: map<IndexKey, IndexRow>)
    requires Perform(d, dv, box, stored, action) == Some(c) && DeliveryHolds(box, dv)
    requires BoxGrows(box, BoxOf(boxes', dv.p.mailbox)) && RowsFaithful(boxes', index)
    ensures RowsFaithful(boxes', index + c.index)
  {
    ActionRows(d, dv, box, stored, action, c);
    if c.index == map[] {
      assert index + c.index == index;
    } else {
      var key := (dv.p.mailbox, dv.answer.value.localId);
      var row := ArrivalRow(dv.p, dv.answer.value.thread);
      assert index + c.index == index[key := row];
      RowAdded(boxes', index, key, row);
    }
  }

  lemma ActLoggedKept(w: World, d: nat, action: Action, c: Change)
    requires Logged(w) && d in w.deliveries && Performed(w, d, action) == Some(c)
    requires var dv := w.deliveries[d];
             DeliveryHolds(BoxOf(w.mailboxes, dv.p.mailbox), dv)
             && c.dv.p == dv.p && (dv.told ==> c.dv.told)
             && (dv.answer.Some? ==> c.dv.answer == dv.answer)
    ensures Logged(Changed(w, d, c))
  {
    var dv := w.deliveries[d];
    ActionLogged(d, dv, BoxOf(w.mailboxes, dv.p.mailbox), dv.p.rawKey in w.r2, action, c, w.log);
    LogExtended(w.log, c.log);
    TellerKept(w.deliveries, w.log, d, c.dv, c.log);
  }

  lemma ReindexKept(w: World, s: Step, w': World)
    requires IndexFaithful(w) && (s.StartReindex? || s.ClearIndex? || s.ReindexRow?)
    requires Apply(w, s) == Some(w')
    ensures IndexFaithful(w')
  {
    if s.ReindexRow? {
      var r := w.reindexes[s.x];
      assert PendingFaithful(w.mailboxes, r);
      RowAdded(w.mailboxes, w.index, (r.mailbox, s.localId), r.pending[s.localId]);
    }
  }

  lemma ReindexStepKept(w: World, s: Step, w': World)
    requires Inv(w) && (s.StartReindex? || s.ClearIndex? || s.ReindexRow?) && Apply(w, s) == Some(w')
    ensures Inv(w')
  {
    ReindexKept(w, s, w');
    assert w' == w.(index := w'.index, reindexes := w'.reindexes);
  }

  lemma StoreStepKept(w: World, s: Step, w': World)
    requires Inv(w) && (s.PutRaw? || s.Send? || s.Replay?) && Apply(w, s) == Some(w')
    ensures Inv(w')
  {
    assert w' == w.(r2 := w'.r2, stored := w'.stored, queue := w'.queue);
  }

  lemma StepKept(w: World, s: Step, w': World)
    requires Inv(w) && Apply(w, s) == Some(w')
    ensures Inv(w')
  {
    match s
    case Act(d, action) => ActKept(w, d, action, Performed(w, d, action).value);
    case FileMessage(mailbox, localId, state) => FileKept(w, mailbox, localId, state);
    case StartReindex(_, _) => ReindexStepKept(w, s, w');
    case ClearIndex(_) => ReindexStepKept(w, s, w');
    case ReindexRow(_, _) => ReindexStepKept(w, s, w');
    case Deliver(d, p) => DeliverKept(w, d, p);
    case _ => StoreStepKept(w, s, w');
  }

  lemma FileKept(w: World, mailbox: string, localId: string, state: string)
    requires Inv(w) && localId in BoxOf(w.mailboxes, mailbox).messages
    ensures Inv(w.(mailboxes := SetBox(w.mailboxes, mailbox,
                                       Filed(BoxOf(w.mailboxes, mailbox), localId, state))))
  {
    var boxes' := SetBox(w.mailboxes, mailbox, Filed(BoxOf(w.mailboxes, mailbox), localId, state));
    FilingKept(BoxOf(w.mailboxes, mailbox), localId, state);
    OneBoxGrows(w.mailboxes, mailbox, Filed(BoxOf(w.mailboxes, mailbox), localId, state));
    IndexCarried(w, boxes');
    AnswersCarried(w.mailboxes, boxes', w.deliveries);
  }

  lemma DeliverKept(w: World, d: nat, p: Payload)
    requires Inv(w) && p in w.queue && d !in w.deliveries
    ensures Inv(w.(deliveries := w.deliveries[d := Delivery(p, Received, None, false)]))
  {
    DeliverAnswers(w.mailboxes, w.deliveries, d, p);
    DeliverLogged(w, d, p);
  }

  lemma DeliverAnswers(boxes: Boxes, deliveries: map<nat, Delivery>, d: nat, p: Payload)
    requires forall e | e in deliveries ::
               DeliveryHolds(BoxOf(boxes, deliveries[e].p.mailbox), deliveries[e])
    requires OneInserter(deliveries) && d !in deliveries
    ensures var after := deliveries[d := Delivery(p, Received, None, false)];
            OneInserter(after) && forall e | e in after ::
              DeliveryHolds(BoxOf(boxes, after[e].p.mailbox), after[e])
  {}

  lemma DeliverLogged(w: World, d: nat, p: Payload)
    requires Logged(w) && d !in w.deliveries
    ensures Logged(w.(deliveries := w.deliveries[d := Delivery(p, Received, None, false)]))
  {
    var dv := Delivery(p, Received, None, false);
    assert PhaseLogged(d, dv, w.log);
  }

  lemma {:induction false} RunKept(w: World, steps: seq<Step>)
    requires Inv(w) && Run(w, steps).Some?
    ensures Inv(Run(w, steps).value)
    decreases |steps|
  {
    if steps != [] {
      var w' := Apply(w, steps[0]).value;
      StepKept(w, steps[0], w');
      RunKept(w', steps[1..]);
    }
  }

  lemma FreshInv(w: World)
    requires Fresh(w)
    ensures Inv(w)
  {}
}
