/**
 * The three workers of the inbound pipeline in the form they run: the email handler, the queue
 * consumer's loop over a batch, and the admin reindex. Each is proved to be a run of the step
 * system in Pipeline, so every invariant of that system holds through it.
 */
module Consumer {
  import opened Common
  import opened Pipeline
  import opened PipelineSafety
  import I = Idempotency
  import R = Routing
  import Text

  const MAX_QUEUE_BYTES := 128 * 1024
  const MAX_EMAIL_BYTES := 25 * 1024 * 1024
  const MAX_RETRIES := 3

  /** An email as the handler sees it; `payloadSize` is that of the queue message it would build. */
  datatype Inbound = Inbound(
    rawSize: nat, sha: string, messageId: Option<string>, day: string, millis: string,
    receivedAt: string, payloadSize: nat)

  /** Threw: an exception ended the handler, once the message had been forwarded to these. */
  datatype HandlerOutcome =
    | Rejected(reason: string)
    | Forwarded(targets: seq<string>)
    | Queued(p: Payload)
    | Oversized(p: Payload)
    | Threw(forwarded: seq<string>)

  /** A call to another service: one that failed may have taken effect all the same. */
  datatype Call = Fine | Lost | FailedDone

  /** What befalls one run of the handler: its R2 put, its send, its ops row, its first failing forward. */
  datatype Weather = Weather(put: Call, send: Call, ops: Call, forwards: nat)

  function PayloadOf(mailbox: string, mail: Inbound): Payload {
    Payload(mailbox, RawEmailR2Key(mailbox, mail.day, mail.millis, mail.sha), mail.sha,
            I.InboundIdempotencyKey(mailbox, I.NormalizeMessageId(mail.messageId), mail.sha), mail.receivedAt)
  }

  /** The queue message of an email stored for the mailbox, field by field. */
  ghost predicate Carries(p: Payload, mailbox: string, mail: Inbound) {
    && p.mailbox == mailbox && p.sha == mail.sha && p.receivedAt == mail.receivedAt
    && p.rawKey == "raw/dev/" + mailbox + "/" + mail.day + "/" + mail.millis + "-" + mail.sha + ".eml"
    && p.idem == I.InboundIdempotencyKey(mailbox, I.NormalizeMessageId(mail.messageId), mail.sha)
  }

  /** What the handler makes of an email routed so. */
  function Handled(mail: Inbound, routed: R.Resolution, weather: Weather): HandlerOutcome {
    if mail.rawSize > MAX_EMAIL_BYTES then
      if weather.ops.Fine? then Rejected("Message too large") else Threw([])
    else
      match routed
      case Rejected(reason, _, _) => if weather.ops.Fine? then Rejected(reason) else Threw([])
      case Forwarded(targets, _, _) =>
        if weather.forwards < |targets| then Threw(targets[..weather.forwards])
        else if weather.ops.Fine? then Forwarded(targets) else Threw(targets)
      case Stored(mailbox, _, _) =>
        if !weather.put.Fine? then Threw([])
        else if mail.payloadSize > MAX_QUEUE_BYTES then Oversized(PayloadOf(mailbox, mail))
        else if weather.send.Fine? then Queued(PayloadOf(mailbox, mail)) else Threw([])
  }

  /** The handler got as far as storing the raw bytes. */
  predicate Puts(mail: Inbound, routed: R.Resolution, weather: Weather) {
    mail.rawSize <= MAX_EMAIL_BYTES && routed.Stored? && !weather.put.Lost?
  }

  predicate Sends(mail: Inbound, routed: R.Resolution, weather: Weather) {
    Puts(mail, routed, weather) && weather.put.Fine? && mail.payloadSize <= MAX_QUEUE_BYTES && !weather.send.Lost?
  }

  datatype Settlement = AckedMessage | RetriedMessage | Unreached

  /**
   * What befalls one delivery: an exception stops it once `effects` of its effects are committed,
   * `localId` is the identifier an insert would mint, and the rest says how the MIME parser, the
   * realtime log, the notify queue and the ops log behave.
   */
  datatype Fate = Fate(
    effects: nat, localId: string, thread: string, parses: bool, realtime: bool, notifies: bool,
    opsFails: bool)

  datatype Received = Received(body: Body, attempts: nat, fate: Fate)

  /** Effects that must commit without throwing before the ack. */
  function EffectsNeeded(a: Answer): nat {
    if a.Duplicate? then 4 else 5
  }

  /** What the Durable Object answers to p. */
  function AnswerTo(box: Mailbox, p: Payload, fate: Fate): Answer {
    match LedgerAnswer(box, p)
    case Some(a) => a
    case None =>
      if fate.parses && !fate.realtime then Duplicate(fate.localId)
      else Inserted(fate.localId, fate.thread)
  }

  /** The mailbox once p has been ingested: unchanged when its ledger already answers. */
  function Ingested(box: Mailbox, p: Payload, fate: Fate): Mailbox {
    if LedgerAnswer(box, p).Some? then box
    else WithMessage(box, p, fate.localId, NewMessage(p, fate.thread, fate.parses))
  }

  /** The index once `effects` of the delivery's effects are committed. */
  function IndexAfter(index: map<IndexKey, IndexRow>, p: Payload, a: Answer, effects: nat)
    : map<IndexKey, IndexRow>
  {
    if a.Inserted? && effects >= 3
    then index[(p.mailbox, a.localId) := ArrivalRow(p, a.thread)] else index
  }

  /** The ingest log, likewise: one effect later where an index row comes first. */
  function EventsAfter(events: map<string, EventRow>, p: Payload, a: Answer, effects: nat)
    : map<string, EventRow>
  {
    if effects >= (if a.Inserted? then 4 else 3) then events[p.idem := EventFor(p, a)] else events
  }

  /** Where a delivery of p stands after `reached` effects: it threw unless that was all of them. */
  ghost predicate Consumed(
    index: map<IndexKey, IndexRow>, events: map<string, EventRow>, boxes: Boxes, p: Payload,
    fate: Fate, reached: nat, threw: bool,
    index': map<IndexKey, IndexRow>, events': map<string, EventRow>, boxes': Boxes)
  {
    var box := BoxOf(boxes, p.mailbox);
    var a := AnswerTo(box, p, fate);
    && threw == (reached < if a.Duplicate? then 4 else 5)
    && index' == IndexAfter(index, p, a, reached)
    && events' == EventsAfter(events, p, a, reached)
    && boxes' == if reached < 2 then boxes else SetBox(boxes, p.mailbox, Ingested(box, p, fate))
  }

  /** Every step belongs to delivery d. */
  ghost predicate StepsOf(steps: seq<Step>, d: nat) {
    forall i | 0 <= i < |steps| :: (steps[i].Deliver? || steps[i].Act?) && steps[i].d == d
  }

  lemma RunExtends(w: World, steps: seq<Step>, w1: World, s: Step, w2: World)
    requires Run(w, steps) == Some(w1) && Apply(w1, s) == Some(w2)
    ensures Run(w, steps + [s]) == Some(w2)
  {
    RunConcat(w, steps, [s]);
    assert Run(w2, []) == Some(w2);
    assert Run(w1, [s]) == Run(w2, [s][1..]);
  }

  /** No message from i on would mint an identifier a mailbox already uses. */
  ghost predicate FreshIds(boxes: Boxes, batch: seq<Received>, i: nat) {
    forall j, mailbox | i <= j < |batch| :: batch[j].fate.localId !in BoxOf(boxes, mailbox).messages
  }

  ghost predicate OnlyMints(boxes: Boxes, boxes': Boxes, localId: string) {
    forall m, l | l in BoxOf(boxes', m).messages :: l == localId || l in BoxOf(boxes, m).messages
  }

  ghost predicate DistinctIds(batch: seq<Received>) {
    forall i, j | 0 <= i < j < |batch| :: batch[i].fate.localId != batch[j].fate.localId
  }

  /** Something in the delivery can throw. */
  predicate Faulty(m: Received, r2: map<string, string>) {
    match m.body
    case Malformed => m.fate.effects == 0
    case Email(p) => p.rawKey !in r2 || m.fate.effects < 5
  }

  /** A failed delivery out of attempts whose ops row cannot be written ends the invocation. */
  predicate GaveUp(m: Received, r2: map<string, string>) {
    m.attempts >= MAX_RETRIES && m.fate.opsFails && Faulty(m, r2)
  }

  /** The settlement says how the delivery ended, and a faultless one is never left unacked. */
  ghost predicate SettledAs(m: Received, d: nat, deliveries: map<nat, Delivery>, s: Settlement,
                            r2: map<string, string>)
  {
    match m.body
    case Malformed => s != AckedMessage && d !in deliveries
    case Email(p) =>
      && (s == AckedMessage <==> d in deliveries && deliveries[d].phase == Acked)
      && (s == RetriedMessage <==> d in deliveries && deliveries[d].phase == Phase.Retried)
      && (d in deliveries ==> deliveries[d].p == p)
      && (s == AckedMessage ==> p.rawKey in r2)
      && (s == RetriedMessage ==> Faulty(m, r2))
  }

  /** The settlements so far, and nothing but their deliveries added since `start`. */
  ghost predicate AllSettled(batch: seq<Received>, base: nat, start: map<nat, Delivery>,
                             deliveries: map<nat, Delivery>, settled: seq<Settlement>,
                             r2: map<string, string>)
  {
    && |settled| <= |batch|
    && (forall d | d in deliveries :: d in start || base <= d < base + |settled|)
    && (forall d | d in start :: d < base && d in deliveries && deliveries[d] == start[d])
    && (forall i | 0 <= i < |settled| ::
          SettledAs(batch[i], base + i, deliveries, settled[i], r2))
  }

  lemma Settles(batch: seq<Received>, base: nat, start: map<nat, Delivery>,
                before: map<nat, Delivery>, after: map<nat, Delivery>,
                settled: seq<Settlement>, one: Settlement, r2: map<string, string>)
    requires |settled| < |batch| && AllSettled(batch, base, start, before, settled, r2)
    requires var d := base + |settled|;
             after == before || (d in after && after == before[d := after[d]])
    requires SettledAs(batch[|settled|], base + |settled|, after, one, r2)
    ensures AllSettled(batch, base, start, after, settled + [one], r2)
  {
    forall i | 0 <= i < |settled|
      ensures SettledAs(batch[i], base + i, after, settled[i], r2)
    {
      assert SettledAs(batch[i], base + i, before, settled[i], r2);
    }
  }

  /** The messages after the one that ended the invocation were not looked at. */
  lemma RestUnreached(batch: seq<Received>, base: nat, start: map<nat, Delivery>,
                      deliveries: map<nat, Delivery>, settled: seq<Settlement>,
                      rest: seq<Settlement>, r2: map<string, string>)
    requires |settled + rest| == |batch| && AllSettled(batch, base, start, deliveries, settled, r2)
    requires forall i | 0 <= i < |rest| :: rest[i] == Unreached
    ensures AllSettled(batch, base, start, deliveries, settled + rest, r2)
  {
    var all := settled + rest;
    forall i | 0 <= i < |all| ensures SettledAs(batch[i], base + i, deliveries, all[i], r2) {
      if i < |settled| { assert SettledAs(batch[i], base + i, deliveries, settled[i], r2); }
    }
  }

  lemma IdsStayFresh(boxes: Boxes, boxes': Boxes, batch: seq<Received>, i: nat)
    requires i < |batch| && FreshIds(boxes, batch, i) && DistinctIds(batch)
    requires OnlyMints(boxes, boxes', batch[i].fate.localId)
    ensures FreshIds(boxes', batch, i + 1)
  {}

  /** The index midway through a reindex that has still to write `pending`. */
  ghost predicate Rebuilding(before: map<IndexKey, IndexRow>, mailbox: string, box: Mailbox,
                             pending: map<string, IndexRow>, index: map<IndexKey, IndexRow>)
  {
    && (forall l | l in pending :: l in box.messages && pending[l] == ExportRow(box.messages[l]))
    && (forall k :: k in index <==>
          if k.0 == mailbox then k.1 in box.messages && k.1 !in pending else k in before)
    && (forall k | k in index && k.0 == mailbox :: ShowsMessage(index[k], box.messages[k.1]))
    && (forall k | k in index && k.0 != mailbox :: index[k] == before[k])
  }

  lemma RowRebuilt(before: map<IndexKey, IndexRow>, mailbox: string, box: Mailbox,
                   pending: map<string, IndexRow>, index: map<IndexKey, IndexRow>, l: string)
    requires Rebuilding(before, mailbox, box, pending, index) && l in pending
    ensures Rebuilding(before, mailbox, box, pending - {l}, index[(mailbox, l) := pending[l]])
  {}

  lemma RowsRebuilt(before: map<IndexKey, IndexRow>, mailbox: string, box: Mailbox,
                    index: map<IndexKey, IndexRow>)
    requires Rebuilding(before, mailbox, box, map[], index)
    ensures Rebuilt(before, mailbox, box, index)
  {}

  lemma ClearedRebuilding(before: map<IndexKey, IndexRow>, mailbox: string, box: Mailbox)
    ensures Rebuilding(before, mailbox, box, Export(box), WithoutMailbox(before, mailbox))
    ensures |Export(box)| == |box.messages|
  {
    assert Export(box).Keys == box.messages.Keys;
    assert |Export(box)| == |Export(box).Keys| && |box.messages| == |box.messages.Keys|;
  }

  /** The mailbox the payload names has ingested it, and the others are as they were. */
  ghost predicate Landed(boxes: Boxes, boxes': Boxes, p: Payload, fate: Fate) {
    var box, box' := BoxOf(boxes, p.mailbox), BoxOf(boxes', p.mailbox);
    && (forall m | m != p.mailbox :: BoxOf(boxes', m) == BoxOf(boxes, m))
    && p.idem in box'.ledger
    && if p.idem in box.ledger then box' == box
       else box'.ledger == box.ledger[p.idem := LedgerEntry(p.sha, fate.localId)]
            && fate.localId in box'.messages && Keeps(box'.messages[fate.localId], p, fate.thread, fate.parses)
            && box'.messages == box.messages[fate.localId := box'.messages[fate.localId]]
  }

  /** The ingest log after the delivery: one row, which tells the answer, and nothing else changed. */
  ghost predicate EventToldOf(events: map<string, EventRow>, events': map<string, EventRow>, p: Payload, a: Answer) {
    p.idem in events' && Tells(events'[p.idem], p, a) && events' == events[p.idem := events'[p.idem]]
  }

  /** The index after the delivery: the arrival's row where the message was inserted, and nothing else changed. */
  ghost predicate IndexShows(index: map<IndexKey, IndexRow>, index': map<IndexKey, IndexRow>, p: Payload, a: Answer) {
    if a.Inserted? then
      var key := (p.mailbox, a.localId);
      key in index' && ShowsArrival(index'[key], p, a.thread) && index' == index[key := index'[key]]
    else index' == index
  }

  /** What the Durable Object has to answer, by what its ledger holds under the key. */
  ghost predicate Answers(box: Mailbox, p: Payload, fate: Fate, a: Answer) {
    if p.idem !in box.ledger then
      a == if fate.parses && !fate.realtime then Duplicate(fate.localId) else Inserted(fate.localId, fate.thread)
    else if box.ledger[p.idem].sha == p.sha then a == Duplicate(box.ledger[p.idem].localId)
    else a == Conflict
  }

  /** A delivery that met no fault. */
  lemma ConsumedLanded(index: map<IndexKey, IndexRow>, events: map<string, EventRow>, boxes: Boxes, p: Payload,
                       fate: Fate, reached: nat, threw: bool, index': map<IndexKey, IndexRow>,
                       events': map<string, EventRow>, boxes': Boxes)
    requires Consumed(index, events, boxes, p, fate, reached, threw, index', events', boxes') && reached >= 5
    ensures !threw && Landed(boxes, boxes', p, fate)
    ensures var a := AnswerTo(BoxOf(boxes, p.mailbox), p, fate);
            Answers(BoxOf(boxes, p.mailbox), p, fate, a) && EventToldOf(events, events', p, a)
            && IndexShows(index, index', p, a)
  {}

  lemma OneFewer(pending: map<string, IndexRow>, l: string)
    requires l in pending
    ensures |pending - {l}| == |pending| - 1
  {
    assert (pending - {l}).Keys == pending.Keys - {l};
    assert |pending - {l}| == |(pending - {l}).Keys| && |pending| == |pending.Keys|;
  }

  ghost predicate Unminted(boxes: Boxes, localId: string) {
    forall mailbox :: localId !in BoxOf(boxes, mailbox).messages
  }

  ghost predicate Unseen(box: Mailbox, p: Payload) {
    p.idem !in box.ledger
  }

  /** One email received twice, as far as the pipeline can tell. */
  ghost predicate SameEmail(mail: Inbound, mail': Inbound) {
    I.SameMail(I.NormalizeMessageId(mail.messageId), mail.sha, I.NormalizeMessageId(mail'.messageId), mail'.sha)
  }

  /** The mailbox keeps the email under this id, newly arrived. */
  ghost predicate Holds(box: Mailbox, localId: string, mail: Inbound) {
    && localId in box.messages
    && box.messages[localId].sha == mail.sha && box.messages[localId].receivedAt == mail.receivedAt
    && box.messages[localId].state == "inbox"
  }

  lemma LandedMints(boxes: Boxes, boxes': Boxes, p: Payload, fate: Fate, localId: string)
    requires Landed(boxes, boxes', p, fate) && Unminted(boxes, localId) && localId != fate.localId
    ensures Unminted(boxes', localId)
  {
    forall mailbox ensures localId !in BoxOf(boxes', mailbox).messages {
      assert localId !in BoxOf(boxes, mailbox).messages;
    }
  }

  lemma BothLanded(boxes: Boxes, mid: Boxes, boxes': Boxes, p: Payload, fate: Fate, mail: Inbound,
                   p': Payload, fate': Fate, mail': Inbound)
    requires Landed(boxes, mid, p, fate) && Landed(mid, boxes', p', fate') && fate.localId != fate'.localId
    requires Unminted(mid, fate'.localId) && p.mailbox == p'.mailbox
    requires Carries(p, p.mailbox, mail) && Carries(p', p.mailbox, mail') && |mail.sha| == |mail'.sha|
    ensures var box := BoxOf(boxes, p.mailbox);
            Unseen(box, p) && Unseen(box, p') ==>
              var box' := BoxOf(boxes', p.mailbox);
              && Holds(box', fate.localId, mail)
              && if SameEmail(mail, mail') then fate'.localId !in box'.messages else Holds(box', fate'.localId, mail')
  {
    I.SameKeyIff(p.mailbox, I.NormalizeMessageId(mail.messageId), mail.sha,
                 I.NormalizeMessageId(mail'.messageId), mail'.sha);
  }

  class Platform {
    var r2: map<string, string>
    var queue: set<Payload>
    var mailboxes: Boxes
    var index: map<IndexKey, IndexRow>
    var events: map<string, EventRow>
    ghost var stored: set<Payload>
    ghost var deliveries: map<nat, Delivery>
    ghost var reindexes: map<nat, Reindexing>
    ghost var log: seq<Effect>

    ghost function Snapshot(): World
      reads this
    {
      World(r2, stored, queue, mailboxes, index, events, deliveries, reindexes, log)
    }

    /** Store the raw bytes of an email for a mailbox, check the size of its queue message, enqueue it. */
    method StoreAndSend(mail: Inbound, mailbox: string, weather: Weather)
      returns (outcome: HandlerOutcome, ghost steps: seq<Step>)
      requires |mail.sha| == HASH_LENGTH
      modifies this`r2, this`stored, this`queue
      ensures Run(old(Snapshot()), steps) == Some(Snapshot())
      ensures outcome == if !weather.put.Fine? then Threw([])
                         else if mail.payloadSize > MAX_QUEUE_BYTES then Oversized(PayloadOf(mailbox, mail))
                         else if weather.send.Fine? then Queued(PayloadOf(mailbox, mail)) else Threw([])
      ensures r2 == if weather.put.Lost? then old(r2)
                    else old(r2)[PayloadOf(mailbox, mail).rawKey := mail.sha]
      ensures queue == old(queue) + (if weather.put.Fine? && mail.payloadSize <= MAX_QUEUE_BYTES && !weather.send.Lost?
                                     then {PayloadOf(mailbox, mail)} else {})
    {
      var p := PayloadOf(mailbox, mail);
      ghost var before := Snapshot();
      steps := [];
      if !weather.put.Lost? {
        RawKeyNamesItsHash(mailbox, mail.day, mail.millis, mail.sha);
        r2 := r2[p.rawKey := mail.sha];
        stored := stored + {p};
        RunExtends(before, [], before, PutRaw(p), Snapshot());
        steps := [] + [PutRaw(p)];
      }
      if !weather.put.Fine? { return Threw([]), steps; }
      if mail.payloadSize > MAX_QUEUE_BYTES { return Oversized(p), steps; }
      if !weather.send.Lost? {
        ghost var mid := Snapshot();
        queue := queue + {p};
        RunExtends(before, steps, mid, Send(p), Snapshot());
        steps := steps + [Send(p)];
      }
      outcome := if weather.send.Fine? then Queued(p) else Threw([]);
    }

    /** Forward to each target in turn, up to the first that fails. */
    method ForwardAll(targets: seq<string>, weather: Weather) returns (passed: seq<string>, failed: bool)
      ensures failed <==> weather.forwards < |targets|
      ensures passed == if failed then targets[..weather.forwards] else targets
    {
      passed, failed := [], false;
      for i := 0 to |targets|
        invariant passed == targets[..i] && i <= weather.forwards
      {
        if i == weather.forwards { return passed, true; }
        passed := passed + [targets[i]];
      }
    }

    /** What is done with an email small enough, once it is routed. */
    method HandleRouted(mail: Inbound, routed: R.Resolution, weather: Weather)
      returns (outcome: HandlerOutcome, ghost steps: seq<Step>)
      requires |mail.sha| == HASH_LENGTH && mail.rawSize <= MAX_EMAIL_BYTES
      modifies this`r2, this`stored, this`queue
      ensures Run(old(Snapshot()), steps) == Some(Snapshot())
      ensures outcome == Handled(mail, routed, weather)
      ensures r2 == if Puts(mail, routed, weather)
                    then old(r2)[PayloadOf(routed.mailbox, mail).rawKey := mail.sha] else old(r2)
      ensures queue == old(queue) + (if Sends(mail, routed, weather) then {PayloadOf(routed.mailbox, mail)} else {})
    {
      match routed
      case Rejected(reason, _, _) =>
        outcome, steps := if weather.ops.Fine? then Rejected(reason) else Threw([]), [];
      case Forwarded(targets, _, _) =>
        var passed, failed := ForwardAll(targets, weather);
        outcome, steps := if failed || !weather.ops.Fine? then Threw(passed) else Forwarded(targets), [];
      case Stored(mailbox, _, _) => outcome, steps := StoreAndSend(mail, mailbox, weather);
    }

    /**
     * src/cloudflare/email-handler.ts: check the size, resolve the recipient against the control-plane
     * tables, then reject, forward or store and enqueue.
     */
    method HandleEmail(db: R.Db, recipient: string, mail: Inbound, weather: Weather)
      returns (routed: R.Resolution, outcome: HandlerOutcome, ghost steps: seq<Step>)
      requires |mail.sha| == HASH_LENGTH && R.Constrained(db)
      modifies this`r2, this`stored, this`queue
      ensures Run(old(Snapshot()), steps) == Some(Snapshot())
      ensures if mail.rawSize <= MAX_EMAIL_BYTES then R.Resolves(db, Text.Canonical(recipient), routed)
              else routed == R.Rejected("email_too_large", None, Text.Canonical(recipient))
      ensures outcome == Handled(mail, routed, weather)
      ensures r2 == if Puts(mail, routed, weather)
                    then old(r2)[PayloadOf(routed.mailbox, mail).rawKey := mail.sha] else old(r2)
      ensures queue == old(queue) + (if Sends(mail, routed, weather) then {PayloadOf(routed.mailbox, mail)} else {})
    {
      if mail.rawSize > MAX_EMAIL_BYTES {
        routed, steps := R.Rejected("email_too_large", None, Text.Canonical(recipient)), [];
        outcome := if weather.ops.Fine? then Rejected("Message too large") else Threw([]);
      } else {
        routed := R.ResolveRecipient(db, recipient);
        outcome, steps := HandleRouted(mail, routed, weather);
      }
    }

    /** Brings the ghost history up to date with an effect the real fields already show. */
    ghost method Track(start: World, steps: seq<Step>, prior: World, d: nat, action: Action, c: Change)
      returns (steps': seq<Step>)
      requires Run(start, steps) == Some(prior)
      requires d in prior.deliveries && Performed(prior, d, action) == Some(c)
      requires deliveries == prior.deliveries && log == prior.log
      requires Snapshot() == Changed(prior, d, c).(deliveries := deliveries, log := log)
      modifies this`deliveries, this`log
      ensures Snapshot() == Changed(prior, d, c)
      ensures steps' == steps + [Act(d, action)] && Run(start, steps') == Some(Snapshot())
    {
      deliveries := deliveries[d := c.dv];
      log := log + c.log;
      steps' := steps + [Act(d, action)];
      assert Apply(prior, Act(d, action)) == Some(Changed(prior, d, c));
      RunExtends(start, steps, prior, Act(d, action), Changed(prior, d, c));
    }

    /** An action of the Durable Object or a read: no table changes. */
    ghost method TrackQuiet(start: World, steps: seq<Step>, d: nat, action: Action, c: Change)
      returns (steps': seq<Step>)
      requires Run(start, steps) == Some(Snapshot())
      requires d in deliveries && Performed(Snapshot(), d, action) == Some(c)
      requires c.box == BoxOf(mailboxes, c.dv.p.mailbox) && c.index == map[] && c.events == map[]
      modifies this`deliveries, this`log
      ensures deliveries == old(deliveries)[d := c.dv] && log == old(log) + c.log
      ensures steps' == steps + [Act(d, action)] && Run(start, steps') == Some(Snapshot())
    {
      assert index + map[] == index && events + map[] == events;
      steps' := Track(start, steps, Snapshot(), d, action, c);
    }

    /** The insert transaction for a key the ledger does not hold, and the reply to the consumer. */
    method CommitNew(d: nat, p: Payload, fate: Fate, ghost start: World, ghost steps: seq<Step>)
      returns (answer: Answer, ghost steps': seq<Step>)
      requires Run(start, steps) == Some(Snapshot()) && StepsOf(steps, d)
      requires d in deliveries && deliveries[d] == Delivery(p, Parsing, None, false)
      requires fate.localId !in BoxOf(mailboxes, p.mailbox).messages
      requires LedgerAnswer(BoxOf(mailboxes, p.mailbox), p).None?
      modifies this`mailboxes, this`deliveries, this`log
      ensures Run(start, steps') == Some(Snapshot()) && StepsOf(steps', d)
      ensures answer == AnswerTo(BoxOf(old(mailboxes), p.mailbox), p, fate)
      ensures mailboxes == SetBox(old(mailboxes), p.mailbox,
                                  Ingested(BoxOf(old(mailboxes), p.mailbox), p, fate))
      ensures deliveries == old(deliveries)[d := Delivery(p, Answered, Some(answer), false)]
    {
      ghost var prior := Snapshot();
      var box := BoxOf(mailboxes, p.mailbox);
      var box' := WithMessage(box, p, fate.localId, NewMessage(p, fate.thread, fate.parses));
      mailboxes := SetBox(mailboxes, p.mailbox, box');
      answer := if fate.parses && !fate.realtime then Duplicate(fate.localId)
                else Inserted(fate.localId, fate.thread);
      ghost var action := Commit(fate.localId, fate.thread, fate.parses, fate.realtime);
      ghost var c := Give(d, deliveries[d], box', answer);
      assert CommitIngest(d, deliveries[d], box, action) == Some(c);
      assert index + map[] == index && events + map[] == events;
      steps' := Track(start, steps, prior, d, action, c);
    }

    /** The call into the mailbox's Durable Object: look the key up, else parse and commit. */
    method Ingest(d: nat, p: Payload, fate: Fate, ghost start: World, ghost steps: seq<Step>)
      returns (answer: Answer, ghost steps': seq<Step>)
      requires Run(start, steps) == Some(Snapshot()) && StepsOf(steps, d)
      requires d in deliveries && deliveries[d] == Delivery(p, Headed, None, false)
      requires fate.localId !in BoxOf(mailboxes, p.mailbox).messages
      modifies this`mailboxes, this`deliveries, this`log
      ensures Run(start, steps') == Some(Snapshot()) && StepsOf(steps', d)
      ensures answer == AnswerTo(BoxOf(old(mailboxes), p.mailbox), p, fate)
      ensures mailboxes == SetBox(old(mailboxes), p.mailbox,
                                  Ingested(BoxOf(old(mailboxes), p.mailbox), p, fate))
      ensures deliveries == old(deliveries)[d := Delivery(p, Answered, Some(answer), false)]
    {
      var box := BoxOf(mailboxes, p.mailbox);
      var known := LedgerAnswer(box, p);
      ghost var c := if known.Some? then Give(d, deliveries[d], box, known.value)
                     else Only(deliveries[d].(phase := Parsing), box);
      assert Performed(Snapshot(), d, Precheck) == Some(c);
      steps' := TrackQuiet(start, steps, d, Precheck, c);
      if known.Some? {
        answer := known.value;
      } else {
        answer, steps' := CommitNew(d, p, fate, start, steps');
      }
    }

    /** `upsertMessageIndex` after an insert. */
    method WriteIndexRow(d: nat, p: Payload, a: Answer, ghost start: World, ghost steps: seq<Step>)
      returns (ghost steps': seq<Step>)
      requires Run(start, steps) == Some(Snapshot()) && StepsOf(steps, d) && a.Inserted?
      requires d in deliveries && deliveries[d] == Delivery(p, Answered, Some(a), false)
      modifies this`index, this`deliveries, this`log
      ensures Run(start, steps') == Some(Snapshot()) && StepsOf(steps', d)
      ensures IndexShows(old(index), index, p, a)
      ensures index == old(index)[(p.mailbox, a.localId) := ArrivalRow(p, a.thread)]
      ensures deliveries == old(deliveries)[d := Delivery(p, Indexed, Some(a), false)]
    {
      ghost var prior := Snapshot();
      ghost var key, row := (p.mailbox, a.localId), ArrivalRow(p, a.thread);
      ghost var box := BoxOf(mailboxes, p.mailbox);
      index := index[(p.mailbox, a.localId) := ArrivalRow(p, a.thread)];
      assert index == prior.index + map[key := row] && events + map[] == events;
      steps' := Track(start, steps, prior, d, WriteIndex,
                      Change(deliveries[d].(phase := Indexed), box, map[key := row], map[],
                             [IndexWritten(d, key, row)]));
    }

    /** `upsertIngestEvent` with the row the answer calls for. */
    method WriteEventRow(d: nat, p: Payload, a: Answer, ghost start: World, ghost steps: seq<Step>)
      returns (ghost steps': seq<Step>)
      requires Run(start, steps) == Some(Snapshot()) && StepsOf(steps, d)
      requires d in deliveries && deliveries[d] ==
               Delivery(p, if a.Inserted? then Indexed else Answered, Some(a), false)
      modifies this`events, this`deliveries, this`log
      ensures Run(start, steps') == Some(Snapshot()) && StepsOf(steps', d)
      ensures EventToldOf(old(events), events, p, a) && events == old(events)[p.idem := EventFor(p, a)]
      ensures deliveries == old(deliveries)[
                d := Delivery(p, if a.Duplicate? then Finishing else Recorded, Some(a), false)]
    {
      ghost var prior := Snapshot();
      ghost var event := EventFor(p, a);
      ghost var box := BoxOf(mailboxes, p.mailbox);
      ghost var dv1 := deliveries[d].(phase := if a.Duplicate? then Finishing else Recorded);
      events := events[p.idem := EventFor(p, a)];
      assert events == prior.events + map[p.idem := event] && index + map[] == index;
      steps' := Track(start, steps, prior, d, WriteEvent,
                      Change(dv1, box, map[], map[p.idem := event], [EventLogged(d, p, a)]));
    }

    /** The notification, whose failure is swallowed, or the ops row of a conflict. */
    ghost method Announce(d: nat, p: Payload, a: Answer, notifies: bool, start: World, steps: seq<Step>)
      returns (steps': seq<Step>)
      requires Run(start, steps) == Some(Snapshot()) && StepsOf(steps, d)
      requires d in deliveries && deliveries[d] ==
               Delivery(p, if a.Duplicate? then Finishing else Recorded, Some(a), false)
      modifies this`deliveries, this`log
      ensures Run(start, steps') == Some(Snapshot()) && StepsOf(steps', d)
      ensures deliveries == old(deliveries)[
                d := Delivery(p, Finishing, Some(a), a.Inserted? && notifies)]
    {
      steps' := steps;
      if a.Duplicate? { return; }
      var box := BoxOf(mailboxes, p.mailbox);
      var action := if a.Inserted? then Notify(notifies) else WriteOps;
      var c := Only(Delivery(p, Finishing, Some(a), a.Inserted? && notifies), box)
                 .(log := if a.Inserted? && notifies then [NotificationSent(d, p, a)] else []);
      assert Performed(Snapshot(), d, action) == Some(c);
      steps' := TrackQuiet(start, steps, d, action, c);
    }

    ghost method Settle(d: nat, p: Payload, a: Answer, start: World, steps: seq<Step>)
      returns (steps': seq<Step>)
      requires Run(start, steps) == Some(Snapshot()) && StepsOf(steps, d)
      requires d in deliveries && deliveries[d].p == p && deliveries[d].phase == Finishing
      requires deliveries[d].answer == Some(a)
      modifies this`deliveries, this`log
      ensures Run(start, steps') == Some(Snapshot()) && StepsOf(steps', d)
      ensures deliveries == old(deliveries)[d := old(deliveries)[d].(phase := Acked)]
    {
      var c := Only(deliveries[d].(phase := Acked), BoxOf(mailboxes, p.mailbox))
                 .(log := [MessageAcked(d, p, a)]);
      assert Performed(Snapshot(), d, Ack) == Some(c);
      steps' := TrackQuiet(start, steps, d, Ack, c);
    }

    /** The consumer's own effects, in order, once it holds the answer; two are already committed. */
    method Record(d: nat, p: Payload, a: Answer, fate: Fate, ghost start: World, ghost steps: seq<Step>)
      returns (threw: bool, ghost steps': seq<Step>)
      requires Run(start, steps) == Some(Snapshot()) && StepsOf(steps, d) && fate.effects >= 2
      requires d in deliveries && deliveries[d] == Delivery(p, Answered, Some(a), false)
      modifies this`index, this`events, this`deliveries, this`log
      ensures Run(start, steps') == Some(Snapshot()) && StepsOf(steps', d)
      ensures threw == (fate.effects < EffectsNeeded(a))
      ensures index == IndexAfter(old(index), p, a, fate.effects)
      ensures events == EventsAfter(old(events), p, a, fate.effects)
      ensures d in deliveries && deliveries == old(deliveries)[d := deliveries[d]]
      ensures deliveries[d].p == p && deliveries[d].answer == Some(a)
      ensures (deliveries[d].phase == Acked) == !threw && deliveries[d].phase != Phase.Retried
      ensures deliveries[d].told == (!threw && a.Inserted? && fate.notifies)
    {
      threw, steps' := true, steps;
      if a.Inserted? {
        if fate.effects < 3 { return; }
        steps' := WriteIndexRow(d, p, a, start, steps');
      }
      if fate.effects < (if a.Inserted? then 4 else 3) { return; }
      steps' := WriteEventRow(d, p, a, start, steps');
      if fate.effects < EffectsNeeded(a) { return; }
      steps' := Announce(d, p, a, fate.notifies, start, steps');
      steps' := Settle(d, p, a, start, steps');
      threw := false;
    }

    /** The queue hands message p to the consumer, whose first effect finds the raw object. */
    ghost method Receive(d: nat, p: Payload, found: bool) returns (steps: seq<Step>)
      requires p in queue && d !in deliveries && (found ==> p.rawKey in r2)
      modifies this`deliveries, this`log
      ensures Run(old(Snapshot()), steps) == Some(Snapshot()) && StepsOf(steps, d)
      ensures deliveries == old(deliveries)[
                d := Delivery(p, if found then Headed else Phase.Received, None, false)]
    {
      var start := Snapshot();
      var dv := Delivery(p, Phase.Received, None, false);
      deliveries := deliveries[d := dv];
      steps := [Deliver(d, p)];
      assert Run(Snapshot(), []) == Some(Snapshot());
      assert Run(start, steps) == Some(Snapshot());
      if found {
        steps := TrackQuiet(start, steps, d, HeadRaw,
                            Only(dv.(phase := Headed), BoxOf(mailboxes, p.mailbox)));
      }
    }

    /** Ingest and record a delivery whose raw object was found. */
    method Attend(d: nat, p: Payload, fate: Fate, ghost start: World, ghost steps: seq<Step>)
      returns (threw: bool, ghost steps': seq<Step>)
      requires Run(start, steps) == Some(Snapshot()) && StepsOf(steps, d) && fate.effects >= 1
      requires d in deliveries && deliveries[d] == Delivery(p, Headed, None, false)
      requires fate.localId !in BoxOf(mailboxes, p.mailbox).messages
      modifies this`mailboxes, this`index, this`events, this`deliveries, this`log
      ensures Run(start, steps') == Some(Snapshot()) && StepsOf(steps', d)
      ensures Consumed(old(index), old(events), old(mailboxes), p, fate, fate.effects,
                       threw, index, events, mailboxes)
      ensures d in deliveries && deliveries == old(deliveries)[d := deliveries[d]]
      ensures deliveries[d].p == p && deliveries[d].phase != Phase.Retried
      ensures (deliveries[d].phase == Acked) == !threw
      ensures var a := AnswerTo(BoxOf(old(mailboxes), p.mailbox), p, fate);
              deliveries[d].told == (!threw && a.Inserted? && fate.notifies)
    {
      threw, steps' := true, steps;
      if fate.effects < 2 { return; }
      var a;
      a, steps' := Ingest(d, p, fate, start, steps);
      threw, steps' := Record(d, p, a, fate, start, steps');
    }

    /**
     * One message of the batch, up to its ack or to the exception that stops it: what is then in
     * each table is a function of how many effects had been committed.
     */
    method Consume(d: nat, p: Payload, fate: Fate) returns (threw: bool, ghost steps: seq<Step>)
      requires p in queue && d !in deliveries
      requires fate.localId !in BoxOf(mailboxes, p.mailbox).messages
      modifies this`mailboxes, this`index, this`events, this`deliveries, this`log
      ensures Run(old(Snapshot()), steps) == Some(Snapshot()) && StepsOf(steps, d)
      ensures Consumed(old(index), old(events), old(mailboxes), p, fate,
                       if p.rawKey in r2 then fate.effects else 0,
                       threw, index, events, mailboxes)
      ensures d in deliveries && deliveries == old(deliveries)[d := deliveries[d]]
      ensures deliveries[d].p == p && deliveries[d].phase != Phase.Retried
      ensures (deliveries[d].phase == Acked) == !threw
      ensures var a := AnswerTo(BoxOf(old(mailboxes), p.mailbox), p, fate);
              deliveries[d].told == (!threw && a.Inserted? && fate.notifies)
    {
      ghost var start := Snapshot();
      if fate.effects == 0 || p.rawKey !in r2 {
        threw := true;
        steps := Receive(d, p, false);
      } else {
        steps := Receive(d, p, true);
        threw, steps := Attend(d, p, fate, start, steps);
      }
    }

    /**
     * Where stored mail ends up: an email that is enqueued was routed to an active mailbox, and once it is
     * consumed without a fault that mailbox's Durable Object, and no other, has ingested it; an insert is
     * indexed there, and the ingest log says what was answered.
     */
    method ReceiveEmail(db: R.Db, recipient: string, mail: Inbound, weather: Weather, d: nat, fate: Fate)
      returns (routed: R.Resolution, outcome: HandlerOutcome, threw: bool)
      requires |mail.sha| == HASH_LENGTH && R.Constrained(db) && R.Sound(db) && d !in deliveries
      requires forall mailbox :: fate.localId !in BoxOf(mailboxes, mailbox).messages
      modifies this`r2, this`stored, this`queue, this`mailboxes, this`index, this`events, this`deliveries, this`log
      ensures mail.rawSize <= MAX_EMAIL_BYTES ==> R.Resolves(db, Text.Canonical(recipient), routed)
      ensures outcome == Handled(mail, routed, weather)
      ensures deliveries == old(deliveries) || (d in deliveries && deliveries == old(deliveries)[d := deliveries[d]])
      ensures !outcome.Queued? ==> !threw && mailboxes == old(mailboxes) && index == old(index) && events == old(events)
      ensures outcome.Queued? ==> R.MailboxActive(db, routed.mailbox) && Carries(outcome.p, routed.mailbox, mail)
      ensures outcome.Queued? && fate.effects >= 5 ==> !threw && Landed(old(mailboxes), mailboxes, outcome.p, fate)
      ensures outcome.Queued? && fate.effects >= 5 ==>
                var a := AnswerTo(BoxOf(old(mailboxes), outcome.p.mailbox), outcome.p, fate);
                && Answers(BoxOf(old(mailboxes), outcome.p.mailbox), outcome.p, fate, a)
                && EventToldOf(old(events), events, outcome.p, a) && IndexShows(old(index), index, outcome.p, a)
    {
      ghost var steps;
      routed, outcome, steps := HandleEmail(db, recipient, mail, weather);
      threw := false;
      if outcome.Queued? {
        R.StoredIsActive(db, Text.Canonical(recipient), routed);
        ghost var before := Snapshot();
        threw, steps := Consume(d, outcome.p, fate);
        if fate.effects >= 5 {
          ConsumedLanded(before.index, before.events, before.mailboxes, outcome.p, fate, fate.effects, threw,
                         index, events, mailboxes);
        }
      }
    }

    /**
     * Two emails for one mailbox, received one after the other without a fault, neither known there before:
     * the mailbox then holds the first, and the second too exactly when it is another email.
     */
    method ReceiveTwo(db: R.Db, to: string, mail: Inbound, fate: Fate, to': string, mail': Inbound, fate': Fate,
                      weather: Weather, d: nat)
      returns (route: R.Resolution, first: HandlerOutcome, route': R.Resolution, second: HandlerOutcome)
      requires |mail.sha| == HASH_LENGTH && |mail'.sha| == HASH_LENGTH && R.Constrained(db) && R.Sound(db)
      requires d !in deliveries && d + 1 !in deliveries && fate.effects >= 5 && fate'.effects >= 5
      requires Unminted(mailboxes, fate.localId) && Unminted(mailboxes, fate'.localId) && fate.localId != fate'.localId
      modifies this`r2, this`stored, this`queue, this`mailboxes, this`index, this`events, this`deliveries, this`log
      ensures first == Handled(mail, route, weather) && second == Handled(mail', route', weather)
      ensures mail.rawSize <= MAX_EMAIL_BYTES ==> R.Resolves(db, Text.Canonical(to), route)
      ensures mail'.rawSize <= MAX_EMAIL_BYTES ==> R.Resolves(db, Text.Canonical(to'), route')
      ensures first.Queued? && second.Queued? && first.p.mailbox == second.p.mailbox
              && Unseen(BoxOf(old(mailboxes), first.p.mailbox), first.p)
              && Unseen(BoxOf(old(mailboxes), first.p.mailbox), second.p) ==>
                var box := BoxOf(mailboxes, first.p.mailbox);
                && Holds(box, fate.localId, mail)
                && if SameEmail(mail, mail') then fate'.localId !in box.messages else Holds(box, fate'.localId, mail')
    {
      var threw;
      ghost var before := mailboxes;
      route, first, threw := ReceiveEmail(db, to, mail, weather, d, fate);
      ghost var mid := mailboxes;
      assert Unminted(mid, fate'.localId) by {
        if first.Queued? { LandedMints(before, mid, first.p, fate, fate'.localId); }
      }
      route', second, threw := ReceiveEmail(db, to', mail', weather, d + 1, fate');
      if first.Queued? && second.Queued? && first.p.mailbox == second.p.mailbox {
        BothLanded(before, mid, mailboxes, first.p, fate, mail, second.p, fate', mail');
      }
    }

    /** `message.retry()` after an exception: the delivery ends without an ack. */
    ghost method Retry(d: nat, start: World, steps: seq<Step>) returns (steps': seq<Step>)
      requires Run(start, steps) == Some(Snapshot()) && StepsOf(steps, d)
      requires d in deliveries && deliveries[d].phase !in {Acked, Phase.Retried}
      modifies this`deliveries, this`log
      ensures Run(start, steps') == Some(Snapshot()) && StepsOf(steps', d)
      ensures deliveries == old(deliveries)[d := old(deliveries)[d].(phase := Phase.Retried)]
    {
      var c := Only(deliveries[d].(phase := Phase.Retried), BoxOf(mailboxes, deliveries[d].p.mailbox));
      assert Performed(Snapshot(), d, Fail) == Some(c);
      steps' := TrackQuiet(start, steps, d, Fail, c);
    }

    /** Consume a message as the next steps of a run already under way, and retry it if it threw. */
    method Attempt(d: nat, p: Payload, fate: Fate, retries: bool,
                   ghost start: World, ghost steps: seq<Step>)
      returns (threw: bool, ghost steps': seq<Step>)
      requires Run(start, steps) == Some(Snapshot())
      requires p in queue && d !in deliveries
      requires fate.localId !in BoxOf(mailboxes, p.mailbox).messages
      modifies this`mailboxes, this`index, this`events, this`deliveries, this`log
      ensures Run(start, steps') == Some(Snapshot())
      ensures steps <= steps' && StepsOf(steps'[|steps|..], d)
      ensures Consumed(old(index), old(events), old(mailboxes), p, fate,
                       if p.rawKey in r2 then fate.effects else 0,
                       threw, index, events, mailboxes)
      ensures d in deliveries && deliveries == old(deliveries)[d := deliveries[d]]
      ensures deliveries[d].p == p && (deliveries[d].phase == Acked) == !threw
      ensures (deliveries[d].phase == Phase.Retried) == (threw && retries)
    {
      ghost var mid, more := Snapshot(), [];
      threw, more := Consume(d, p, fate);
      if threw && retries { more := Retry(d, mid, more); }
      RunConcat(start, steps, more);
      steps' := steps + more;
    }

    /** The loop body: consume, and on an exception log it once attempts ran out, then retry. */
    method HandleMessage(d: nat, m: Received, ghost start: World, ghost steps: seq<Step>)
      returns (settled: Settlement, ghost steps': seq<Step>)
      requires Run(start, steps) == Some(Snapshot())
      requires d !in deliveries && (m.body.Email? ==> m.body.payload in queue)
      requires forall mailbox :: m.fate.localId !in BoxOf(mailboxes, mailbox).messages
      modifies this`mailboxes, this`index, this`events, this`deliveries, this`log
      ensures Run(start, steps') == Some(Snapshot())
      ensures steps <= steps' && StepsOf(steps'[|steps|..], d)
      ensures OnlyMints(old(mailboxes), mailboxes, m.fate.localId)
      ensures deliveries == old(deliveries) ||
              (d in deliveries && deliveries == old(deliveries)[d := deliveries[d]])
      ensures SettledAs(m, d, deliveries, settled, r2)
      ensures settled == Unreached ==> GaveUp(m, r2)
      ensures m.body.Malformed? ==>
                settled == (if GaveUp(m, r2) then Unreached else RetriedMessage)
                && steps' == steps && old(Snapshot()) == Snapshot()
      ensures m.body.Email? ==>
                Consumed(old(index), old(events), old(mailboxes), m.body.payload, m.fate,
                         if m.body.payload.rawKey in r2 then m.fate.effects else 0,
                         settled != AckedMessage, index, events, mailboxes)
    {
      steps' := steps;
      var givesUp := m.attempts >= MAX_RETRIES && m.fate.opsFails;
      var threw := m.fate.effects == 0;
      if m.body.Email? {
        threw, steps' := Attempt(d, m.body.payload, m.fate, !givesUp, start, steps);
      }
      settled := if threw && givesUp then Unreached
                 else if threw || m.body.Malformed? then RetriedMessage
                 else AckedMessage;
    }

    /** One turn of the batch loop. */
    method HandleNext(batch: seq<Received>, base: nat, settled: seq<Settlement>,
                      ghost start: World, ghost steps: seq<Step>)
      returns (one: Settlement, ghost steps': seq<Step>)
      requires |settled| < |batch| && Run(start, steps) == Some(Snapshot())
      requires forall i | 0 <= i < |batch| && batch[i].body.Email? :: batch[i].body.payload in queue
      requires FreshIds(mailboxes, batch, |settled|) && DistinctIds(batch)
      requires AllSettled(batch, base, start.deliveries, deliveries, settled, r2)
      modifies this`mailboxes, this`index, this`events, this`deliveries, this`log
      ensures Run(start, steps') == Some(Snapshot())
      ensures FreshIds(mailboxes, batch, |settled| + 1)
      ensures AllSettled(batch, base, start.deliveries, deliveries, settled + [one], r2)
      ensures one == Unreached ==> GaveUp(batch[|settled|], r2)
    {
      ghost var before, boxes := deliveries, mailboxes;
      one, steps' := HandleMessage(base + |settled|, batch[|settled|], start, steps);
      Settles(batch, base, start.deliveries, before, deliveries, settled, one, r2);
      IdsStayFresh(boxes, mailboxes, batch, |settled|);
    }

    /**
     * src/cloudflare/queue-consumer.ts: the batch loop. It is a run of the step system; a message
     * is acked exactly when its delivery went all the way, a message that meets no fault always
     * is, and only a failing ops log on a message out of attempts leaves the rest unreached.
     */
    method HandleInboundQueue(batch: seq<Received>, base: nat)
      returns (settled: seq<Settlement>, reached: nat, ghost steps: seq<Step>)
      requires forall i | 0 <= i < |batch| && batch[i].body.Email? :: batch[i].body.payload in queue
      requires forall d | d in deliveries :: d < base
      requires FreshIds(mailboxes, batch, 0) && DistinctIds(batch)
      modifies this`mailboxes, this`index, this`events, this`deliveries, this`log
      ensures Run(old(Snapshot()), steps) == Some(Snapshot())
      ensures |settled| == |batch| && reached <= |batch|
      ensures forall i | 0 <= i < |batch| :: settled[i] == Unreached <==> i >= reached
      ensures reached < |batch| ==> GaveUp(batch[reached], r2)
      ensures AllSettled(batch, base, old(deliveries), deliveries, settled, r2)
    {
      settled, reached, steps := [], 0, [];
      ghost var start := Snapshot();
      assert Run(start, []) == Some(start);
      while reached < |batch|
        invariant reached <= |batch| && |settled| == reached
        invariant Run(start, steps) == Some(Snapshot())
        invariant FreshIds(mailboxes, batch, reached)
        invariant forall i | 0 <= i < reached :: settled[i] != Unreached
        invariant AllSettled(batch, base, start.deliveries, deliveries, settled, r2)
      {
        var one;
        one, steps := HandleNext(batch, base, settled, start, steps);
        if one == Unreached {
          var rest := seq(|batch| - reached - 1, _ => Unreached);
          RestUnreached(batch, base, start.deliveries, deliveries, settled + [one], rest, r2);
          settled := settled + [one] + rest;
          return;
        }
        settled := settled + [one];
        reached := reached + 1;
      }
    }

    /** The export the reindex works from. */
    method ExportRows(mailbox: string, ghost x: nat)
      returns (pending: map<string, IndexRow>, ghost steps: seq<Step>)
      requires x !in reindexes
      modifies this`reindexes
      ensures Run(old(Snapshot()), steps) == Some(Snapshot())
      ensures pending == Export(BoxOf(mailboxes, mailbox))
      ensures reindexes == old(reindexes)[x := Reindexing(mailbox, false, pending)]
    {
      ghost var start := Snapshot();
      assert Run(start, []) == Some(start);
      pending := Export(BoxOf(mailboxes, mailbox));
      reindexes := reindexes[x := Reindexing(mailbox, false, pending)];
      RunExtends(start, [], start, StartReindex(x, mailbox), Snapshot());
      steps := [] + [StartReindex(x, mailbox)];
    }

    /** Delete the mailbox's rows. */
    method ClearRows(mailbox: string, ghost x: nat, pending: map<string, IndexRow>,
                     ghost start: World, ghost steps: seq<Step>)
      returns (ghost steps': seq<Step>)
      requires Run(start, steps) == Some(Snapshot())
      requires x in reindexes && reindexes[x] == Reindexing(mailbox, false, pending)
      modifies this`index, this`reindexes
      ensures Run(start, steps') == Some(Snapshot())
      ensures index == WithoutMailbox(old(index), mailbox)
      ensures x in reindexes && reindexes[x] == Reindexing(mailbox, true, pending)
    {
      ghost var prior := Snapshot();
      index := WithoutMailbox(index, mailbox);
      reindexes := reindexes[x := Reindexing(mailbox, true, pending)];
      RunExtends(start, steps, prior, ClearIndex(x), Snapshot());
      steps' := steps + [ClearIndex(x)];
    }

    /** One turn of the reindex loop. */
    method WriteExported(mailbox: string, ghost x: nat, pending: map<string, IndexRow>, l: string,
                         ghost start: World, ghost steps: seq<Step>)
      returns (ghost steps': seq<Step>)
      requires Run(start, steps) == Some(Snapshot()) && l in pending
      requires x in reindexes && reindexes[x] == Reindexing(mailbox, true, pending)
      requires Rebuilding(start.index, mailbox, BoxOf(mailboxes, mailbox), pending, index)
      modifies this`index, this`reindexes
      ensures Run(start, steps') == Some(Snapshot())
      ensures reindexes == old(reindexes)[x := Reindexing(mailbox, true, pending - {l})]
      ensures Rebuilding(start.index, mailbox, BoxOf(mailboxes, mailbox), pending - {l}, index)
    {
      ghost var prior := Snapshot();
      RowRebuilt(start.index, mailbox, BoxOf(mailboxes, mailbox), pending, index, l);
      index := index[(mailbox, l) := pending[l]];
      reindexes := reindexes[x := Reindexing(mailbox, true, pending - {l})];
      RunExtends(start, steps, prior, ReindexRow(x, l), Snapshot());
      steps' := steps + [ReindexRow(x, l)];
    }

    /** The reindex loop, while its statements go through. */
    method WriteRows(mailbox: string, ghost x: nat, pending: map<string, IndexRow>, writes: nat,
                     ghost start: World, ghost steps: seq<Step>)
      returns (left: map<string, IndexRow>, done: nat, ghost steps': seq<Step>)
      requires Run(start, steps) == Some(Snapshot())
      requires x in reindexes && reindexes[x] == Reindexing(mailbox, true, pending)
      requires Rebuilding(start.index, mailbox, BoxOf(mailboxes, mailbox), pending, index)
      modifies this`index, this`reindexes
      ensures Run(start, steps') == Some(Snapshot())
      ensures Rebuilding(start.index, mailbox, BoxOf(mailboxes, mailbox), left, index)
      ensures done <= writes && |left| == |pending| - done && (left == map[] || done == writes)
    {
      left, done, steps' := pending, 0, steps;
      while left != map[] && done < writes
        invariant Run(start, steps') == Some(Snapshot())
        invariant x in reindexes && reindexes[x] == Reindexing(mailbox, true, left)
        invariant Rebuilding(start.index, mailbox, BoxOf(mailboxes, mailbox), left, index)
        invariant done <= writes && |left| == |pending| - done
        decreases left.Keys
      {
        var l :| l in left;
        steps' := WriteExported(mailbox, x, left, l, start, steps');
        OneFewer(left, l);
        left := left - {l};
        done := done + 1;
      }
    }

    /**
     * src/api/mailbox-routes.ts: the admin reindex, with no delivery running beside it. The first `writes` of
     * its D1 statements go through: the delete, a row each, the ops row. `left` is what it did not write.
     */
    method Reindex(mailbox: string, exportFails: bool, writes: nat, ghost x: nat)
      returns (ok: bool, count: nat, left: map<string, IndexRow>, ghost steps: seq<Step>)
      requires x !in reindexes
      modifies this`index, this`reindexes
      ensures Run(old(Snapshot()), steps) == Some(Snapshot())
      ensures exportFails || writes == 0 ==> index == old(index)
      ensures !exportFails && writes > 0 ==> Rebuilding(old(index), mailbox, BoxOf(mailboxes, mailbox), left, index)
      ensures !exportFails && writes > 0 ==> |left| == if writes <= |BoxOf(mailboxes, mailbox).messages|
                then |BoxOf(mailboxes, mailbox).messages| + 1 - writes else 0
      ensures !exportFails && writes > |BoxOf(mailboxes, mailbox).messages| ==>
                Rebuilt(old(index), mailbox, BoxOf(mailboxes, mailbox), index)
      ensures ok <==> !exportFails && writes >= |BoxOf(mailboxes, mailbox).messages| + 2
      ensures ok ==> count == |BoxOf(mailboxes, mailbox).messages|
    {
      ghost var start := Snapshot();
      ok, count, left, steps := false, 0, map[], [];
      assert Run(start, []) == Some(start);
      if exportFails { return; }
      left, steps := ExportRows(mailbox, x);
      count := |left|;
      ClearedRebuilding(start.index, mailbox, BoxOf(mailboxes, mailbox));
      if writes == 0 { return; }
      steps := ClearRows(mailbox, x, left, start, steps);
      var done;
      left, done, steps := WriteRows(mailbox, x, left, writes - 1, start, steps);
      if left != map[] { return; }
      RowsRebuilt(start.index, mailbox, BoxOf(mailboxes, mailbox), index);
      ok := done < writes - 1;
    }
  }
}
