/**
 * Whether a sending domain's lifecycle events reach the worker's queue
 * (scripts/lib/event-subscriptions.ts), and the step that makes them
 * (scripts/setup-sending.ts: ensureEventSubscription).
 */
module Feedback {
  import opened Common
  import opened Text

  datatype Subscription = Subscription(
    id: string, enabled: bool, source: string, domain: Option<string>, zoneId: Option<string>,
    queue: Option<string>, events: seq<string>)

  const SOURCE := "email.sending"

  const EVENTS := ["message.delivered", "message.deferred", "message.bounced", "message.rejected",
                   "message.complained", "message.failed"]

  datatype Verdict =
    | Live(ids: seq<string>)
    | NoSubscription
    | Disabled(ids: seq<string>)
    | WrongQueue(ids: seq<string>)
    | Partial(ids: seq<string>, missing: seq<string>)

  // ---------------------------------------------------------------- the verdict

  predicate ForDomain(s: Subscription, domain: string) {
    s.source == SOURCE && s.domain.Some? && Lower(s.domain.value) == Canonical(domain)
  }

  predicate Usable(s: Subscription, domain: string, queue: string) {
    ForDomain(s, domain) && s.enabled && s.queue == Some(queue)
  }

  function Candidates(subs: seq<Subscription>, domain: string): (r: seq<Subscription>)
    ensures forall s :: s in r <==> s in subs && ForDomain(s, domain)
  {
    if subs == [] then []
    else (if ForDomain(subs[0], domain) then [subs[0]] else []) + Candidates(subs[1..], domain)
  }

  function Enabled(subs: seq<Subscription>): (r: seq<Subscription>)
    ensures forall s :: s in r <==> s in subs && s.enabled
  {
    if subs == [] then []
    else (if subs[0].enabled then [subs[0]] else []) + Enabled(subs[1..])
  }

  function OnQueue(subs: seq<Subscription>, queue: string): (r: seq<Subscription>)
    ensures forall s :: s in r <==> s in subs && s.queue == Some(queue)
  {
    if subs == [] then []
    else (if subs[0].queue == Some(queue) then [subs[0]] else []) + OnQueue(subs[1..], queue)
  }

  predicate Covered(subs: seq<Subscription>, event: string) {
    exists i | 0 <= i < |subs| :: event in subs[i].events
  }

  function Missing(subs: seq<Subscription>, events: seq<string>): (r: seq<string>)
    ensures forall e :: e in r <==> e in events && !Covered(subs, e)
  {
    if events == [] then []
    else (if Covered(subs, events[0]) then [] else [events[0]]) + Missing(subs, events[1..])
  }

  function Ids(subs: seq<Subscription>): (r: seq<string>)
    ensures |r| == |subs| && forall i | 0 <= i < |subs| :: r[i] == subs[i].id
  {
    seq(|subs|, i requires 0 <= i < |subs| => subs[i].id)
  }

  function Evaluate(subs: seq<Subscription>, domain: string, queue: string): Verdict {
    var candidates := Candidates(subs, domain);
    if candidates == [] then NoSubscription
    else
      var enabled := Enabled(candidates);
      if enabled == [] then Disabled(Ids(candidates))
      else
        var usable := OnQueue(enabled, queue);
        if usable == [] then WrongQueue(Ids(enabled))
        else
          var missing := Missing(usable, EVENTS);
          if missing != [] then Partial(Ids(usable), missing) else Live(Ids(usable))
  }

  /** A sending subscription of the domain, in either case and whatever blanks are about the name asked for. */
  ghost predicate Concerns(s: Subscription, domain: string) {
    s.source == "email.sending" && s.domain.Some? && SameUpToCase(s.domain.value, Trim(domain))
  }

  lemma ConcernsIff(s: Subscription, domain: string)
    ensures ForDomain(s, domain) <==> Concerns(s, domain)
  {
    if s.domain.Some? { FoldedAlike(s.domain.value, Trim(domain)); }
  }

  /** Some enabled subscription of the domain carries this event to the queue. */
  ghost predicate Reaches(subs: seq<Subscription>, domain: string, queue: string, event: string) {
    exists s :: s in subs && Concerns(s, domain) && s.enabled && s.queue == Some(queue) && event in s.events
  }

  lemma CoveredReaches(subs: seq<Subscription>, domain: string, queue: string, event: string)
    requires Covered(OnQueue(Enabled(Candidates(subs, domain)), queue), event)
    ensures Reaches(subs, domain, queue, event)
  {
    forall s ensures ForDomain(s, domain) <==> Concerns(s, domain) { ConcernsIff(s, domain); }
  }

  lemma ReachingIsCovered(subs: seq<Subscription>, domain: string, queue: string, event: string)
    requires Reaches(subs, domain, queue, event)
    ensures Covered(OnQueue(Enabled(Candidates(subs, domain)), queue), event)
  {
    forall s ensures ForDomain(s, domain) <==> Concerns(s, domain) { ConcernsIff(s, domain); }
  }

  lemma NothingMissing(subs: seq<Subscription>, domain: string, queue: string, events: seq<string>)
    requires events != []
    ensures (var usable := OnQueue(Enabled(Candidates(subs, domain)), queue);
             usable != [] && Missing(usable, events) == [])
       <==> forall e | e in events :: Reaches(subs, domain, queue, e)
  {
    var usable := OnQueue(Enabled(Candidates(subs, domain)), queue);
    var missing := Missing(usable, events);
    forall e | e in events ensures Covered(usable, e) <==> Reaches(subs, domain, queue, e) {
      if Covered(usable, e) { CoveredReaches(subs, domain, queue, e); }
      if Reaches(subs, domain, queue, e) { ReachingIsCovered(subs, domain, queue, e); }
    }
    assert events[0] in events;
    if missing != [] { assert missing[0] in missing; }
    if usable == [] { assert !Covered(usable, events[0]); }
  }

  ghost predicate IsEvent(e: string) {
    e in {"message.delivered", "message.deferred", "message.bounced", "message.rejected", "message.complained",
          "message.failed"}
  }

  lemma EventIff(e: string)
    ensures IsEvent(e) <==> e in EVENTS
  {
    assert EVENTS[0] == "message.delivered" && EVENTS[1] == "message.deferred" && EVENTS[2] == "message.bounced";
    assert EVENTS[3] == "message.rejected" && EVENTS[4] == "message.complained" && EVENTS[5] == "message.failed";
  }

  lemma LiveIffCovered(subs: seq<Subscription>, domain: string, queue: string)
    ensures Evaluate(subs, domain, queue).Live? <==> forall e | e in EVENTS :: Reaches(subs, domain, queue, e)
  {
    NothingMissing(subs, domain, queue, EVENTS);
  }

  /** Live says exactly that each of the six events reaches the queue. */
  lemma LiveIffEveryEventReaches(subs: seq<Subscription>, domain: string, queue: string)
    ensures Evaluate(subs, domain, queue).Live? <==> forall e | IsEvent(e) :: Reaches(subs, domain, queue, e)
  {
    LiveIffCovered(subs, domain, queue);
    forall e ensures IsEvent(e) <==> e in EVENTS { EventIff(e); }
  }

  lemma VerdictFound(subs: seq<Subscription>, domain: string, queue: string)
    ensures match Evaluate(subs, domain, queue)
            case NoSubscription => forall s | s in subs :: !ForDomain(s, domain)
            case Disabled(ids) =>
              ids != [] && (forall s | s in subs && ForDomain(s, domain) :: !s.enabled)
              && exists s :: s in subs && ForDomain(s, domain) && s.id == ids[0]
            case WrongQueue(ids) =>
              ids != [] && (forall s | s in subs && ForDomain(s, domain) && s.enabled :: s.queue != Some(queue))
            case Partial(ids, missing) =>
              ids != [] && missing != []
              && exists s :: s in subs && Usable(s, domain, queue) && s.id == ids[0]
            case Live(ids) => true
  {
    var candidates := Candidates(subs, domain);
    var enabled := Enabled(candidates);
    var usable := OnQueue(enabled, queue);
    if candidates != [] { assert candidates[0] in candidates; }
    if usable != [] { assert usable[0] in usable; }
    forall s | s in subs && ForDomain(s, domain) && s.enabled ensures s in enabled {}
  }

  /** The ids are those of the domain's subscriptions that `keep` accepts. */
  ghost predicate IdsOf(ids: seq<string>, subs: seq<Subscription>, domain: string, keep: Subscription -> bool) {
    forall id :: id in ids <==> exists s :: s in subs && Concerns(s, domain) && keep(s) && s.id == id
  }

  lemma IdsAre(ids: seq<string>, kept: seq<Subscription>, subs: seq<Subscription>, domain: string,
               keep: Subscription -> bool)
    requires ids == Ids(kept) && forall s :: s in kept <==> s in subs && ForDomain(s, domain) && keep(s)
    ensures IdsOf(ids, subs, domain, keep)
  {
    forall s ensures ForDomain(s, domain) <==> Concerns(s, domain) { ConcernsIff(s, domain); }
    forall id ensures id in ids <==> exists s :: s in subs && Concerns(s, domain) && keep(s) && s.id == id {
      if id in ids {
        var i :| 0 <= i < |ids| && ids[i] == id;
        assert kept[i] in kept;
      }
      if s :| s in subs && Concerns(s, domain) && keep(s) && s.id == id {
        var i :| 0 <= i < |kept| && kept[i] == s;
        assert ids[i] == id;
      }
    }
  }

  /** What each verdict says, and whose ids it lists. */
  lemma VerdictMeans(subs: seq<Subscription>, domain: string, queue: string)
    ensures match Evaluate(subs, domain, queue)
            case NoSubscription => forall s | s in subs :: !Concerns(s, domain)
            case Disabled(ids) =>
              && ids != [] && IdsOf(ids, subs, domain, s => true)
              && forall s | s in subs && Concerns(s, domain) :: !s.enabled
            case WrongQueue(ids) =>
              && ids != [] && IdsOf(ids, subs, domain, (s: Subscription) => s.enabled)
              && forall s | s in subs && Concerns(s, domain) && s.enabled :: s.queue != Some(queue)
            case Partial(ids, missing) =>
              && ids != [] && IdsOf(ids, subs, domain, (s: Subscription) => s.enabled && s.queue == Some(queue))
              && missing != [] && forall e :: e in missing <==> IsEvent(e) && !Reaches(subs, domain, queue, e)
            case Live(ids) =>
              ids != [] && IdsOf(ids, subs, domain, (s: Subscription) => s.enabled && s.queue == Some(queue))
  {
    var candidates := Candidates(subs, domain);
    var enabled := Enabled(candidates);
    var usable := OnQueue(enabled, queue);
    IdsAre(Ids(candidates), candidates, subs, domain, s => true);
    IdsAre(Ids(enabled), enabled, subs, domain, (s: Subscription) => s.enabled);
    IdsAre(Ids(usable), usable, subs, domain, (s: Subscription) => s.enabled && s.queue == Some(queue));
    forall s ensures ForDomain(s, domain) <==> Concerns(s, domain) { ConcernsIff(s, domain); }
    forall s | s in subs && ForDomain(s, domain) && s.enabled ensures s in enabled {}
    forall s | s in enabled && s.queue == Some(queue) ensures s in usable {}
    forall e ensures e in Missing(usable, EVENTS) <==> IsEvent(e) && !Reaches(subs, domain, queue, e) {
      EventIff(e);
      if Covered(usable, e) { CoveredReaches(subs, domain, queue, e); }
      if Reaches(subs, domain, queue, e) { ReachingIsCovered(subs, domain, queue, e); }
    }
  }

  // ---------------------------------------------------------------- the step

  datatype Outcome = Verified | Unresolved | Skipped

  datatype Mutation = Created(domain: string, zoneId: Option<string>, queue: string) | Updated(id: string)

  /** Which of the step's reads and calls fail. */
  datatype Weather = Weather(list: bool, queues: bool, help: bool, mutate: Call, recheck: bool)

  /** A create or update works, has no effect, or has its effect and is reported as failed. */
  datatype Call = Works | FailsBefore | FailsAfter

  const Fair := Weather(false, false, false, Works, false)

  ghost predicate IdsOnce(subs: seq<Subscription>) {
    forall i, j | 0 <= i < j < |subs| :: subs[i].id != subs[j].id
  }

  /** `zoneId ?? ` the zone id another subscription of the zone carries. */
  function ZoneIdFor(subs: seq<Subscription>, zone: string, zoneId: Option<string>): Option<string>
    decreases |subs|
  {
    if zoneId.Some? then zoneId
    else if subs == [] then None
    else
      var s := subs[0];
      if s.source == SOURCE && s.zoneId.Some? && s.zoneId.value != "" && s.domain.Some?
         && (Lower(s.domain.value) == zone || EndsWith(Lower(s.domain.value), "." + zone))
      then s.zoneId
      else ZoneIdFor(subs[1..], zone, None)
  }

  /** A sending subscription that carries a zone id, of the zone itself or of a name under it. */
  ghost predicate InZone(s: Subscription, zone: string) {
    && s.source == "email.sending" && s.zoneId.Some? && s.zoneId.value != "" && s.domain.Some?
    && (Lower(s.domain.value) == zone || exists front :: Lower(s.domain.value) == front + ("." + zone))
  }

  lemma InZoneIff(s: Subscription, zone: string)
    requires s.domain.Some?
    ensures EndsWith(Lower(s.domain.value), "." + zone) <==>
            exists front :: Lower(s.domain.value) == front + ("." + zone)
  {
    var d := Lower(s.domain.value);
    if EndsWith(d, "." + zone) { assert d == d[..|d| - |zone| - 1] + ("." + zone); }
  }

  /** The id that was looked up, or that of the first subscription of the zone to carry one. */
  lemma {:induction false} ZoneIdMeans(subs: seq<Subscription>, zone: string, zoneId: Option<string>)
    ensures zoneId.Some? ==> ZoneIdFor(subs, zone, zoneId) == zoneId
    ensures zoneId.None? ==>
              match ZoneIdFor(subs, zone, zoneId)
              case None => forall j | 0 <= j < |subs| :: !InZone(subs[j], zone)
              case Some(id) => exists i :: FirstInZone(subs, zone, i) && subs[i].zoneId == Some(id)
    decreases |subs|
  {
    if zoneId.None? && subs != [] {
      if subs[0].domain.Some? { InZoneIff(subs[0], zone); }
      if InZone(subs[0], zone) {
        assert FirstInZone(subs, zone, 0);
      } else {
        ZoneIdMeans(subs[1..], zone, None);
        if ZoneIdFor(subs, zone, None).Some? {
          var i :| FirstInZone(subs[1..], zone, i) && subs[1..][i].zoneId == ZoneIdFor(subs, zone, None);
          assert forall j | 0 < j <= i + 1 :: subs[j] == subs[1..][j - 1];
          assert FirstInZone(subs, zone, i + 1);
        } else {
          assert forall j | 0 < j < |subs| :: subs[j] == subs[1..][j - 1];
        }
      }
    }
  }

  ghost predicate FirstInZone(subs: seq<Subscription>, zone: string, i: int) {
    0 <= i < |subs| && InZone(subs[i], zone) && forall j | 0 <= j < i :: !InZone(subs[j], zone)
  }

  function Switched(s: Subscription): Subscription {
    s.(enabled := true, events := EVENTS)
  }

  /** A subscription switched on carries the six events, and the rest of it stays. */
  lemma SwitchedMeans(s: Subscription)
    ensures Switched(s).enabled && Switched(s).(enabled := s.enabled, events := s.events) == s
    ensures forall e :: e in Switched(s).events <==> IsEvent(e)
  {
    forall e ensures e in EVENTS <==> IsEvent(e) { EventIff(e); }
  }

  function FirstFor(subs: seq<Subscription>, domain: string): Option<Subscription> {
    if subs == [] then None
    else if ForDomain(subs[0], domain) then Some(subs[0]) else FirstFor(subs[1..], domain)
  }

  lemma {:induction false} FirstCandidate(subs: seq<Subscription>, domain: string)
    ensures Candidates(subs, domain) == [] <==> FirstFor(subs, domain).None?
    ensures Candidates(subs, domain) != [] ==> FirstFor(subs, domain) == Some(Candidates(subs, domain)[0])
  {
    if subs != [] { FirstCandidate(subs[1..], domain); }
  }

  class Account {
    var subs: seq<Subscription>

    constructor (subs: seq<Subscription>)
      ensures this.subs == subs
    {
      this.subs := subs;
    }

    /** `queues subscription update --id --events <six> --enabled true`. */
    method Update(id: string)
      modifies this
      ensures UpdatedFrom(old(subs), subs, id)
    {
      var l: seq<Subscription> := [];
      for i := 0 to |subs|
        invariant |l| == i && subs == old(subs)
        invariant forall j | 0 <= j < i ::
                    l[j] == if subs[j].id == id then Switched(subs[j]) else subs[j]
      {
        l := l + [if subs[i].id == id then Switched(subs[i]) else subs[i]];
      }
      subs := l;
    }

    /** `queues subscription create --source email.sending --events <six>`. */
    method Subscribe(domain: string, known: Option<string>, queue: string, minted: string)
      requires IdsOnce(subs) && Trimmed(domain) && forall i | 0 <= i < |subs| :: subs[i].id != minted
      modifies this
      ensures IdsOnce(subs) && Only(old(subs), Created(domain, known, queue), subs)
      ensures Evaluate(subs, domain, queue).Live?
    {
      ghost var before := subs;
      subs := subs + [Subscription(minted, true, SOURCE, Some(domain), known, Some(queue), EVENTS)];
      CreateMends(before, subs, domain, queue);
    }

    /** Switch on what the verdict names, or subscribe afresh; `minted` names a new subscription. */
    method Mend(verdict: Verdict, domain: string, known: Option<string>, queue: string, weather: Weather,
                minted: string)
      returns (made: Option<Mutation>, ok: bool)
      requires IdsOnce(subs) && Trimmed(domain) && verdict == Evaluate(subs, domain, queue)
      requires !verdict.Live? && !verdict.WrongQueue? && forall i | 0 <= i < |subs| :: subs[i].id != minted
      modifies this
      ensures IdsOnce(subs)
      ensures made.None? ==> subs == old(subs)
      ensures made.Some? ==> Only(old(subs), made.value, subs)
      ensures made.Some? ==> Issued(verdict, domain, known, queue, made.value)
      ensures made.Some? <==>
                !weather.mutate.FailsBefore? && (verdict.NoSubscription? ==> known !in [None, Some("")])
      ensures ok <==> made.Some? && weather.mutate.Works?
      ensures made.Some? ==>
                (Evaluate(subs, domain, queue).Live? <==>
                   (verdict.Disabled? ==> FirstFor(old(subs), domain).Some?
                                          && FirstFor(old(subs), domain).value.queue == Some(queue)))
    {
      made, ok := None, false;
      VerdictFound(subs, domain, queue);
      ghost var before := subs;
      if weather.mutate.FailsBefore? { return; }
      if verdict.Disabled? || verdict.Partial? {
        Update(verdict.ids[0]);
        made := Some(Updated(verdict.ids[0]));
        UpdateMends(before, subs, domain, queue, verdict.ids[0]);
      } else {
        if known.None? || known.value == "" { return; }
        Subscribe(domain, known, queue, minted);
        made := Some(Created(domain, known, queue));
      }
      ok := weather.mutate.Works?;
    }

    /** scripts/setup-sending.ts: ensureEventSubscription. */
    method Ensure(domain: string, zone: string, zoneId: Option<string>, queue: string, apply: bool,
                  skip: bool, weather: Weather, minted: string)
      returns (o: Outcome, made: Option<Mutation>)
      requires IdsOnce(subs) && Trimmed(domain) && forall i | 0 <= i < |subs| :: subs[i].id != minted
      modifies this
      ensures IdsOnce(subs)
      ensures made.None? ==> subs == old(subs)
      ensures made.Some? ==> Only(old(subs), made.value, subs)
      ensures made.Some? ==>
                var verdict, known := Evaluate(old(subs), domain, queue), ZoneIdFor(old(subs), zone, zoneId);
                Issued(verdict, domain, known, queue, made.value)
      ensures var verdict, known := Evaluate(old(subs), domain, queue), ZoneIdFor(old(subs), zone, zoneId);
              made.Some? <==> !skip && Attempts(verdict, known, apply, weather)
      ensures o.Skipped? <==> skip
      ensures made.None? ==>
                (o.Verified? <==>
                   !skip && !weather.list && !weather.queues && Evaluate(subs, domain, queue).Live?)
      ensures made.Some? ==>
                (o.Verified? <==>
                   weather.mutate.Works? && !weather.recheck && Evaluate(subs, domain, queue).Live?)
      ensures apply && !skip && weather == Fair ==>
                (o.Verified? <==> Mendable(old(subs), domain, zone, zoneId, queue))
    {
      if skip { return Skipped, None; }
      if weather.list || weather.queues { return Unresolved, None; }
      var verdict := Evaluate(subs, domain, queue);
      if verdict.Live? { return Verified, None; }
      var known := ZoneIdFor(subs, zone, zoneId);
      if !apply || verdict.WrongQueue? || weather.help { return Unresolved, None; }
      var ok;
      made, ok := Mend(verdict, domain, known, queue, weather, minted);
      if !ok || weather.recheck { return Unresolved, made; }
      var after := Evaluate(subs, domain, queue);
      o := if after.Live? then Verified else Unresolved;
    }
  }

  /** A call is made and takes effect: on a readable channel that one call may mend. */
  ghost predicate Attempts(verdict: Verdict, known: Option<string>, apply: bool, weather: Weather) {
    && apply && !weather.list && !weather.queues && !weather.help && !weather.mutate.FailsBefore?
    && (verdict.Disabled? || verdict.Partial? || (verdict.NoSubscription? && known !in [None, Some("")]))
  }

  /** A subscription is created where there is none, and otherwise the first one named is updated. */
  ghost predicate Issued(verdict: Verdict, domain: string, known: Option<string>, queue: string, made: Mutation) {
    match verdict
    case NoSubscription => made == Created(domain, known, queue)
    case Disabled(ids) => ids != [] && made == Updated(ids[0])
    case Partial(ids, _) => ids != [] && made == Updated(ids[0])
    case _ => false
  }

  /** What a mutation does, and all it does. */
  ghost predicate Only(before: seq<Subscription>, made: Mutation, after: seq<Subscription>) {
    match made
    case Created(domain, zoneId, queue) =>
      |after| == |before| + 1 && after[..|before|] == before
      && after[|before|] == Switched(Subscription(after[|before|].id, true, "email.sending", Some(domain), zoneId,
                                                  Some(queue), []))
    case Updated(id) => UpdatedFrom(before, after, id)
  }

  /** One apply is enough. */
  ghost predicate Mendable(subs: seq<Subscription>, domain: string, zone: string, zoneId: Option<string>,
                           queue: string)
  {
    match Evaluate(subs, domain, queue)
    case Live(_) => true
    case Partial(_, _) => true
    case NoSubscription => ZoneIdFor(subs, zone, zoneId) !in [None, Some("")]
    case Disabled(_) => FirstFor(subs, domain).Some? && FirstFor(subs, domain).value.queue == Some(queue)
    case WrongQueue(_) => false
  }

  lemma OneIsEnough(subs: seq<Subscription>, domain: string, queue: string, s: Subscription)
    requires s in subs && Usable(s, domain, queue) && s.events == EVENTS
    ensures Evaluate(subs, domain, queue).Live?
  {
    ConcernsIff(s, domain);
    forall e | e in EVENTS ensures Reaches(subs, domain, queue, e) {}
    LiveIffCovered(subs, domain, queue);
  }

  lemma CreateMends(before: seq<Subscription>, after: seq<Subscription>, domain: string, queue: string)
    requires Trimmed(domain) && |after| == |before| + 1
    requires after[|before|].enabled && after[|before|].source == SOURCE
    requires after[|before|].domain == Some(domain) && after[|before|].queue == Some(queue)
    requires after[|before|].events == EVENTS
    ensures Evaluate(after, domain, queue).Live?
  {
    TrimSettles(domain);
    OneIsEnough(after, domain, queue, after[|before|]);
  }

  /** `after` is `before` with the subscription `id` switched on for every event. */
  ghost predicate UpdatedFrom(before: seq<Subscription>, after: seq<Subscription>, id: string) {
    |after| == |before|
    && forall i | 0 <= i < |after| :: after[i] == if before[i].id == id then Switched(before[i]) else before[i]
  }

  lemma PartialMends(before: seq<Subscription>, after: seq<Subscription>, domain: string, queue: string, id: string)
    requires UpdatedFrom(before, after, id)
    requires Evaluate(before, domain, queue).Partial? && Evaluate(before, domain, queue).ids[0] == id
    ensures Evaluate(after, domain, queue).Live?
  {
    VerdictFound(before, domain, queue);
    var s :| s in before && Usable(s, domain, queue) && s.id == id;
    var i :| 0 <= i < |before| && before[i] == s;
    assert after[i] in after;
    OneIsEnough(after, domain, queue, after[i]);
  }

  /** A disabled channel comes up exactly when its first subscription is already on the queue. */
  lemma DisabledMendsIff(before: seq<Subscription>, after: seq<Subscription>, domain: string, queue: string, id: string)
    requires IdsOnce(before) && UpdatedFrom(before, after, id)
    requires Evaluate(before, domain, queue).Disabled? && Evaluate(before, domain, queue).ids[0] == id
    ensures FirstFor(before, domain).Some?
    ensures Evaluate(after, domain, queue).Live? <==> FirstFor(before, domain).value.queue == Some(queue)
  {
    VerdictFound(before, domain, queue);
    FirstCandidate(before, domain);
    var s := Candidates(before, domain)[0];
    assert s in Candidates(before, domain);
    var i :| 0 <= i < |before| && before[i] == s;
    assert after[i] in after && Ids(Candidates(before, domain))[0] == s.id;
    if s.queue == Some(queue) {
      OneIsEnough(after, domain, queue, after[i]);
    } else {
      DisabledElsewhere(before, after, domain, queue, i);
    }
  }

  lemma UpdateMends(before: seq<Subscription>, after: seq<Subscription>, domain: string, queue: string, id: string)
    requires IdsOnce(before) && UpdatedFrom(before, after, id)
    requires Evaluate(before, domain, queue).Disabled? || Evaluate(before, domain, queue).Partial?
    requires Evaluate(before, domain, queue).ids != [] && Evaluate(before, domain, queue).ids[0] == id
    ensures IdsOnce(after)
    ensures Evaluate(after, domain, queue).Live?
       <==> (Evaluate(before, domain, queue).Disabled? ==> FirstFor(before, domain).Some?
                                                           && FirstFor(before, domain).value.queue == Some(queue))
  {
    if Evaluate(before, domain, queue).Partial? {
      PartialMends(before, after, domain, queue, id);
    } else {
      DisabledMendsIff(before, after, domain, queue, id);
    }
  }

  lemma DisabledElsewhere(before: seq<Subscription>, after: seq<Subscription>, domain: string, queue: string, i: int)
    requires IdsOnce(before) && |after| == |before| && 0 <= i < |before|
    requires forall j | 0 <= j < |after| :: after[j] == if j == i then Switched(before[j]) else before[j]
    requires forall s | s in before && ForDomain(s, domain) :: !s.enabled
    requires before[i].queue != Some(queue)
    ensures !Evaluate(after, domain, queue).Live?
  {}
}
