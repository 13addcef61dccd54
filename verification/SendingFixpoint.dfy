/**
 * When a run of setup:sending leaves a name alone, and what one run achieves: the decision of
 * scripts/lib/onboard-core.ts over public DNS against the upserts of scripts/setup-sending.ts over
 * the zone that public DNS shows.
 */
module SendingFixpoint {
  import opened Common
  import opened Text
  import opened Upserts
  import opened SendingTarget
  import Feedback
  import Plans = SendingPlan

  // ---------------------------------------------------------------- the zone behind the observation

  /** What each record says, in order. */
  function Said(rs: seq<Txt>): seq<string> {
    if rs == [] then [] else [NormalizeTxt(rs[0].content)] + Said(rs[1..])
  }

  /** Public DNS gives the zone's texts, in any order and spelling. */
  predicate ShowsTxt(texts: Option<seq<string>>, rs: seq<Txt>) {
    texts.Some? && multiset(Forms(texts.value)) == multiset(Said(rs))
  }

  function AnswersOf(rs: seq<MxRecord>): (r: seq<Answer>)
    ensures |r| == |rs| && forall i | 0 <= i < |r| :: r[i] == Answer(Host(rs[i].content), rs[i].priority)
  {
    seq(|rs|, i requires 0 <= i < |rs| => Answer(Host(rs[i].content), rs[i].priority))
  }

  predicate ShowsMx(answers: Option<seq<Answer>>, rs: seq<MxRecord>) {
    answers.Some? && multiset(answers.value) == multiset(AnswersOf(rs))
  }

  predicate Shows(seen: Seen, spf: seq<Txt>, dmarc: seq<Txt>, dkim: seq<Txt>, mx: seq<MxRecord>) {
    ShowsTxt(seen.spf, spf) && ShowsTxt(seen.dmarc, dmarc) && ShowsTxt(seen.dkim, dkim) && ShowsMx(seen.mx, mx)
  }

  /** The first record of the wanted exchange has another priority. */
  predicate Shadowed(rs: seq<MxRecord>, w: MxWant) {
    exists i | 0 <= i < |rs| ::
      Host(rs[i].content) == Host(w.content) && rs[i].priority != w.priority
      && forall j | 0 <= j < i :: Host(rs[j].content) != Host(w.content)
  }

  lemma {:induction false} SaidManaged(rs: seq<Txt>, prefix: string)
    ensures Said(Managed(rs, prefix)) == Starting(Said(rs), prefix)
    ensures |Said(rs)| == |rs|
  {
    if rs != [] {
      SaidManaged(rs[1..], prefix);
      if Owning(prefix)(rs[0]) { SaidFirst(rs[0], Managed(rs[1..], prefix)); }
    }
  }

  lemma SaidFirst(r: Txt, rest: seq<Txt>)
    ensures Said([r] + rest) == [NormalizeTxt(r.content)] + Said(rest)
  {}

  lemma {:induction false} StartingCounts(forms: seq<string>, prefix: string, x: string)
    ensures multiset(Starting(forms, prefix))[x] == if Starts(x, prefix) then multiset(forms)[x] else 0
  {
    if forms != [] {
      StartingCounts(forms[1..], prefix, x);
      assert forms == [forms[0]] + forms[1..];
    }
  }

  lemma {:induction false} TaggedCounts(forms: seq<string>, x: string)
    ensures multiset(Tagged(forms))[x] == if DmarcTagged(x) then multiset(forms)[x] else 0
  {
    if forms != [] {
      TaggedCounts(forms[1..], x);
      assert forms == [forms[0]] + forms[1..];
    }
  }

  lemma Alone(a: seq<string>, b: seq<string>, x: string)
    requires Only(a, x) && forall y :: multiset(a)[y] == multiset(b)[y]
    ensures b == [x]
  {
    assert multiset(a) == multiset(b);
    assert a == [x] && |b| == |multiset(b)| == 1;
    assert b[0] in multiset(b);
    assert b[0] in multiset([x]);
  }

  lemma SettledSays(rs: seq<Txt>, prefix: string, desired: string)
    ensures Settled(rs, prefix, desired) <==> Only(Starting(Said(rs), prefix), NormalizeTxt(desired))
  {
    SaidManaged(rs, prefix);
    SaidManaged(Managed(rs, prefix), prefix);
  }

  lemma SpfUntouched(texts: seq<string>, rs: seq<Txt>, plan: Plan)
    requires Proper(plan) && ShowsTxt(Some(texts), rs) && Only(Starting(Forms(texts), SPF), plan.spf)
    ensures Settled(rs, SPF, plan.spf)
  {
    forall y ensures multiset(Starting(Forms(texts), SPF))[y] == multiset(Starting(Said(rs), SPF))[y] {
      StartingCounts(Forms(texts), SPF, y);
      StartingCounts(Said(rs), SPF, y);
    }
    Alone(Starting(Forms(texts), SPF), Starting(Said(rs), SPF), plan.spf);
    SettledSays(rs, SPF, plan.spf);
  }

  /** Given one tagged record saying what is wanted, the DMARC upsert is idle unless a look-alike stands beside it. */
  lemma DmarcUntouchedIff(texts: seq<string>, rs: seq<Txt>, plan: Plan)
    requires Proper(plan) && ShowsTxt(Some(texts), rs) && Only(Tagged(Forms(texts)), NormalizeTxt(plan.dmarc))
    ensures Settled(rs, DMARC, plan.dmarc) <==> forall x | x in Said(rs) :: !LookAlike(x)
  {
    var w, said := NormalizeTxt(plan.dmarc), Said(rs);
    Words();
    NormalizeKeeps(plan.dmarc, DMARC_TAG);
    TagStarts(w);
    forall y ensures multiset(Tagged(Forms(texts)))[y] == multiset(Tagged(said))[y] {
      TaggedCounts(Forms(texts), y);
      TaggedCounts(said, y);
    }
    Alone(Tagged(Forms(texts)), Tagged(said), w);
    SettledSays(rs, DMARC, plan.dmarc);
    LookAlikesDecide(said, w);
  }

  function StartsWith(prefix: string): string -> bool {
    (s: string) => Starts(s, prefix)
  }

  function IsTagged(): string -> bool {
    (s: string) => DmarcTagged(s)
  }

  /** `kept` is what the filter leaves of `said`, in some order. */
  ghost predicate Filters(said: seq<string>, kept: seq<string>, p: string -> bool) {
    forall y :: multiset(kept)[y] == if p(y) then multiset(said)[y] else 0
  }

  lemma StartingFilters(said: seq<string>, prefix: string)
    ensures Filters(said, Starting(said, prefix), StartsWith(prefix))
  {
    forall y ensures multiset(Starting(said, prefix))[y] == if StartsWith(prefix)(y) then multiset(said)[y] else 0 {
      StartingCounts(said, prefix, y);
    }
  }

  lemma TaggedFilters(said: seq<string>)
    ensures Filters(said, Tagged(said), IsTagged())
  {
    forall y ensures multiset(Tagged(said))[y] == if IsTagged()(y) then multiset(said)[y] else 0 {
      TaggedCounts(said, y);
    }
  }

  /** When one filter keeps just `w`, another that keeps `w` agrees exactly if all it keeps passes the first. */
  lemma FiltersAgreeIff(said: seq<string>, a: seq<string>, b: seq<string>, p: string -> bool, q: string -> bool,
                        w: string)
    requires Filters(said, a, p) && Filters(said, b, q)
    requires Only(a, w) && q(w)
    ensures Only(b, w) <==> forall x | x in said :: q(x) ==> p(x)
  {
    assert a == [w] && w in multiset(a);
    assert p(w) && multiset(a)[w] == 1;
    if forall x | x in said :: q(x) ==> p(x) {
      forall y ensures multiset(a)[y] == multiset(b)[y] {
        if y in multiset(said) { assert y in said; }
      }
      Alone(a, b, w);
    } else {
      var x :| x in said && q(x) && !p(x);
      assert x in multiset(said) && x in multiset(b);
      assert Only(b, w) ==> b == [w];
    }
  }

  lemma LookAlikesDecide(said: seq<string>, w: string)
    requires Only(Tagged(said), w) && Starts(w, DMARC)
    ensures Only(Starting(said, DMARC), w) <==> forall x | x in said :: !LookAlike(x)
  {
    TaggedFilters(said);
    StartingFilters(said, DMARC);
    FiltersAgreeIff(said, Tagged(said), Starting(said, DMARC), IsTagged(), StartsWith(DMARC), w);
    forall x | x in said ensures (StartsWith(DMARC)(x) ==> IsTagged()(x)) <==> !LookAlike(x) {
      LookAlikeIff(x);
    }
  }

  lemma LookAlikeIff(x: string)
    ensures (StartsWith(DMARC)(x) ==> IsTagged()(x)) <==> !LookAlike(x)
  {
    if Starts(x, DMARC) { PrefixTagged(x); }
  }

  lemma DkimUntouchedIff(texts: seq<string>, rs: seq<Txt>, key: string)
    requires Starts(Trim(key), DKIM) && ShowsTxt(Some(texts), rs) && NormalizeTxt(key) in Forms(texts)
    ensures Settled(rs, DKIM, key) <==> |Managed(rs, DKIM)| == 1
  {
    Words();
    NormalizeKeeps(key, DKIM);
    var k, said := NormalizeTxt(key), Said(rs);
    StartingCounts(said, DKIM, k);
    assert k in multiset(Forms(texts)) && k in multiset(Starting(said, DKIM));
    SaidManaged(rs, DKIM);
    SaidManaged(Managed(rs, DKIM), DKIM);
    SettledSays(rs, DKIM, key);
  }

  lemma MxUntouchedIff(answers: seq<Answer>, rs: seq<MxRecord>, wants: seq<MxWant>)
    requires ShowsMx(Some(answers), rs) && AllAnswered(answers, wants)
    ensures AllFirst(rs, wants) <==> forall w | w in wants :: !Shadowed(rs, w)
  {
    forall n | 0 <= n < |wants| ensures FirstHas(rs, wants[n]) <==> !Shadowed(rs, wants[n]) {
      var w := wants[n];
      assert Answered(answers, w) && Answer(Host(w.content), w.priority) in multiset(AnswersOf(rs));
      var i :| 0 <= i < |rs| && AnswersOf(rs)[i] == Answer(Host(w.content), w.priority);
      assert Hosts(rs)[i] == Host(w.content);
      FirstShadowed(rs, w);
    }
    if AllFirst(rs, wants) {
      forall w | w in wants ensures !Shadowed(rs, w) {
        var n :| 0 <= n < |wants| && wants[n] == w;
        assert FirstHas(rs, wants[n]);
      }
    }
  }

  lemma FirstShadowed(rs: seq<MxRecord>, w: MxWant)
    requires Host(w.content) in Hosts(rs)
    ensures FirstHas(rs, w) <==> !Shadowed(rs, w)
  {
    var host := Host(w.content);
    var k := First(Hosts(rs), host).value;
    assert forall j | 0 <= j < |rs| :: Host(rs[j].content) == Hosts(rs)[j];
    if Shadowed(rs, w) {
      var i :| 0 <= i < |rs| && Host(rs[i].content) == host && rs[i].priority != w.priority
               && forall j | 0 <= j < i :: Host(rs[j].content) != host;
      assert i == k;
    }
  }

  /**
   * A name found whole is left alone by the upserts exactly when the zone holds no DMARC look-alike,
   * one DKIM record, and no wanted exchange behind a record of another priority.
   */
  lemma AlreadyUntouchedIff(seen: Seen, plan: Plan, spf: seq<Txt>, dmarc: seq<Txt>, dkim: seq<Txt>, mx: seq<MxRecord>)
    requires Proper(plan) && Whole(FactsOf(seen, plan)) && Shows(seen, spf, dmarc, dkim, mx)
    ensures Untouched(spf, dmarc, dkim, mx, plan, KeyOf(seen.provider, plan), WantsOf(seen.provider, plan))
       <==> (forall x | x in Said(dmarc) :: !LookAlike(x)) && |Managed(dkim, DKIM)| == 1
            && forall w | w in WantsOf(seen.provider, plan) :: !Shadowed(mx, w)
  {
    KeyStarts(seen.provider, plan);
    SpfUntouched(seen.spf.value, spf, plan);
    DmarcUntouchedIff(seen.dmarc.value, dmarc, plan);
    DkimUntouchedIff(seen.dkim.value, dkim, KeyOf(seen.provider, plan).value);
    MxUntouchedIff(seen.mx.value, mx, WantsOf(seen.provider, plan));
  }

  // ---------------------------------------------------------------- what one run achieves

  /** The DMARC record is written as `v = DMARC1`: the observation counts it, the upsert does not manage it. */
  predicate Spaced(s: string) {
    DmarcTagged(s) && !Starts(s, DMARC)
  }

  lemma SpacedDecide(said: seq<string>, w: string)
    requires Only(Starting(said, DMARC), w) && DmarcTagged(w)
    ensures Only(Tagged(said), w) <==> forall x | x in said :: !Spaced(x)
  {
    TaggedFilters(said);
    StartingFilters(said, DMARC);
    FiltersAgreeIff(said, Starting(said, DMARC), Tagged(said), StartsWith(DMARC), IsTagged(), w);
    forall x | x in said ensures (IsTagged()(x) ==> StartsWith(DMARC)(x)) <==> !Spaced(x) { SpacedIff(x); }
  }

  lemma SpacedIff(x: string)
    ensures (IsTagged()(x) ==> StartsWith(DMARC)(x)) <==> !Spaced(x)
  {}

  lemma DmarcStandsIff(texts: seq<string>, rs: seq<Txt>, plan: Plan)
    requires Proper(plan) && ShowsTxt(Some(texts), rs) && Settled(rs, DMARC, plan.dmarc)
    ensures Only(Tagged(Forms(texts)), NormalizeTxt(plan.dmarc)) <==> forall x | x in Said(rs) :: !Spaced(x)
  {
    var w, said := NormalizeTxt(plan.dmarc), Said(rs);
    Words();
    NormalizeKeeps(plan.dmarc, DMARC_TAG);
    TagStarts(w);
    SettledSays(rs, DMARC, plan.dmarc);
    SpacedDecide(said, w);
    forall y ensures multiset(Tagged(Forms(texts)))[y] == multiset(Tagged(said))[y] {
      TaggedCounts(Forms(texts), y);
      TaggedCounts(said, y);
    }
    if Only(Tagged(said), w) { Alone(Tagged(said), Tagged(Forms(texts)), w); }
    if Only(Tagged(Forms(texts)), w) { Alone(Tagged(Forms(texts)), Tagged(said), w); }
  }

  lemma SpfStands(texts: seq<string>, rs: seq<Txt>, plan: Plan)
    requires Proper(plan) && ShowsTxt(Some(texts), rs) && Settled(rs, SPF, plan.spf)
    ensures Only(Starting(Forms(texts), SPF), plan.spf)
  {
    SettledSays(rs, SPF, plan.spf);
    forall y ensures multiset(Starting(Said(rs), SPF))[y] == multiset(Starting(Forms(texts), SPF))[y] {
      StartingCounts(Forms(texts), SPF, y);
      StartingCounts(Said(rs), SPF, y);
    }
    Alone(Starting(Said(rs), SPF), Starting(Forms(texts), SPF), plan.spf);
  }

  lemma DkimStands(texts: seq<string>, rs: seq<Txt>, key: string)
    requires ShowsTxt(Some(texts), rs) && Settled(rs, DKIM, key)
    ensures NormalizeTxt(key) in Forms(texts)
  {
    SettledSays(rs, DKIM, key);
    var k, said := NormalizeTxt(key), Said(rs);
    StartingCounts(said, DKIM, k);
    assert k in Starting(said, DKIM) && k in multiset(Starting(said, DKIM));
    assert k in multiset(Forms(texts));
  }

  lemma MxStands(answers: seq<Answer>, rs: seq<MxRecord>, wants: seq<MxWant>)
    requires ShowsMx(Some(answers), rs) && AllFirst(rs, wants)
    ensures AllAnswered(answers, wants)
  {
    forall n | 0 <= n < |wants| ensures Answered(answers, wants[n]) {
      assert FirstHas(rs, wants[n]);
      var k := First(Hosts(rs), Host(wants[n].content)).value;
      assert Hosts(rs)[k] == Host(rs[k].content) && AnswersOf(rs)[k] in multiset(AnswersOf(rs));
    }
  }

  lemma TextsStand(seen: Seen, plan: Plan, spf: seq<Txt>, dmarc: seq<Txt>)
    requires Proper(plan) && ShowsTxt(seen.spf, spf) && ShowsTxt(seen.dmarc, dmarc)
    requires Settled(spf, SPF, plan.spf) && Settled(dmarc, DMARC, plan.dmarc)
    ensures SpfStanding(seen, plan).Held?
    ensures DmarcStanding(seen, plan).Held? <==> forall x | x in Said(dmarc) :: !Spaced(x)
  {
    SpfStands(seen.spf.value, spf, plan);
    DmarcStandsIff(seen.dmarc.value, dmarc, plan);
  }

  lemma ProvidedStand(seen: Seen, plan: Plan, dkim: seq<Txt>, mx: seq<MxRecord>)
    requires ShowsTxt(seen.dkim, dkim) && ShowsMx(seen.mx, mx)
    requires KeyOf(seen.provider, plan).Some? && WantsOf(seen.provider, plan) != []
    requires Settled(dkim, DKIM, KeyOf(seen.provider, plan).value) && AllFirst(mx, WantsOf(seen.provider, plan))
    ensures DkimStanding(seen, plan).Held? && MxStanding(seen, plan).Held?
  {
    DkimStands(seen.dkim.value, dkim, KeyOf(seen.provider, plan).value);
    MxStands(seen.mx.value, mx, WantsOf(seen.provider, plan));
  }

  /** What a run leaves is seen as whole, but for a DMARC record spelled with spaces, which no run removes. */
  lemma UntouchedStands(seen: Seen, plan: Plan, spf: seq<Txt>, dmarc: seq<Txt>, dkim: seq<Txt>, mx: seq<MxRecord>)
    requires Proper(plan) && Shows(seen, spf, dmarc, dkim, mx)
    requires KeyOf(seen.provider, plan).Some? && WantsOf(seen.provider, plan) != []
    requires Untouched(spf, dmarc, dkim, mx, plan, KeyOf(seen.provider, plan), WantsOf(seen.provider, plan))
    requires seen.enabled == Some(true) && seen.feedback.Some? && seen.feedback.value.Live?
    ensures Whole(FactsOf(seen, plan)) <==> forall x | x in Said(dmarc) :: !Spaced(x)
  {
    TextsStand(seen, plan, spf, dmarc);
    ProvidedStand(seen, plan, dkim, mx);
  }

  lemma {:induction false} SaidBy(rs: seq<Txt>, x: string)
    ensures x in Said(rs) <==> exists r | r in rs :: NormalizeTxt(r.content) == x
  {
    if rs != [] { SaidBy(rs[1..], x); }
  }

  lemma {:induction false} InOthers(rs: seq<Txt>, p: Txt -> bool, r: Txt)
    ensures r in Others(rs, p) <==> r in rs && !p(r)
  {
    if rs != [] {
      InOthers(rs[1..], p, r);
      Unfolded(rs[0], Others(rs[1..], p), p, 0);
    }
  }

  /** No run touches a record spelled with spaces, nor leaves one that was not there. */
  lemma SpacedSurvives(before: seq<Txt>, after: seq<Txt>, x: string)
    requires Spared(before, after, DMARC) && Spaced(x)
    ensures x in Said(before) <==> x in Said(after)
  {
    SaidBy(before, x);
    SaidBy(after, x);
    forall r: Txt | NormalizeTxt(r.content) == x ensures r in before <==> r in after {
      InOthers(before, Owning(DMARC), r);
      InOthers(after, Owning(DMARC), r);
    }
  }

  lemma SpacedIsCounted(texts: seq<string>, rs: seq<Txt>, x: string)
    requires ShowsTxt(Some(texts), rs) && x in Said(rs) && Spaced(x)
    ensures x in Tagged(Forms(texts))
  {
    assert x in multiset(Said(rs));
    TaggedCounts(Forms(texts), x);
    assert x in multiset(Tagged(Forms(texts)));
  }

  lemma WantedNotSpaced(plan: Plan)
    requires Proper(plan)
    ensures !Spaced(NormalizeTxt(plan.dmarc))
  {
    Words();
    NormalizeKeeps(plan.dmarc, DMARC_TAG);
    TagStarts(NormalizeTxt(plan.dmarc));
  }

  /** And while it is there the name is not whole. */
  lemma SpacedIsNeverWhole(seen: Seen, plan: Plan, dmarc: seq<Txt>, x: string)
    requires Proper(plan) && ShowsTxt(seen.dmarc, dmarc) && x in Said(dmarc) && Spaced(x)
    ensures !Whole(FactsOf(seen, plan))
  {
    SpacedIsCounted(seen.dmarc.value, dmarc, x);
    WantedNotSpaced(plan);
    OnlyOne(Tagged(Forms(seen.dmarc.value)), NormalizeTxt(plan.dmarc), x);
  }

  lemma OnlyOne(texts: seq<string>, wanted: string, x: string)
    requires x in texts && x != wanted
    ensures !Only(texts, wanted)
  {}

  /** `v = DMARC1` is such a record. */
  lemma SpacedExists(s: string)
    requires s == "v = DMARC1"
    ensures Spaced(NormalizeTxt(s))
  {
    SpacedBare(s);
    NormalizeBare(s);
    SpacedWord(s, " = DMARC1", "= DMARC1", " DMARC1");
  }

  lemma SpacedBare(s: string)
    requires s == "v = DMARC1"
    ensures Bare(s) && Trimmed(s)
  {}

  lemma SpacedWord(s: string, a: string, b: string, c: string)
    requires |s| > 1 && s[0] == 'v' && s[1] == ' ' && s[1..] == a
    requires |a| > 1 && a[0] == ' ' && a[1] == '=' && a[1..] == b
    requires |b| > 1 && b[0] == '=' && b[1..] == c && c == " DMARC1"
    ensures Spaced(s)
  {
    assert LowerChar(s[1]) == ' ' != DMARC[1];
    assert b[0] == '=' && Blanks(b) == 0;
    assert Blanks(a) == 1;
    SpacedTail(c, "DMARC1");
  }

  lemma SpacedTail(s: string, t: string)
    requires s == " DMARC1" && t == "DMARC1"
    ensures Starts(Skip(s), "dmarc1") && |Skip(s)| == 6
  {
    assert s[1..] == t && Blanks(t) == 0;
    assert Skip(s) == t;
  }

  // ---------------------------------------------------------------- decide, apply, decide

  /** The zone and the account, as a run finds or leaves them. */
  datatype State = State(
    spf: seq<Txt>, dmarc: seq<Txt>, dkim: seq<Txt>, mx: seq<MxRecord>, subs: seq<Feedback.Subscription>)

  /** An observation of an enabled name that misses nothing: the zone, the provider's records, the channel. */
  ghost predicate Observes(seen: Seen, z: State, provider: Option<seq<Provided>>, plan: Plan, queue: string) {
    && Shows(seen, z.spf, z.dmarc, z.dkim, z.mx)
    && seen.enabled == Some(true) && seen.provider == provider
    && seen.feedback == Some(Feedback.Evaluate(z.subs, plan.domain, queue))
  }

  /** Once the wanted records are upserted over these, public DNS gives this one. */
  predicate Served(rs: seq<MxRecord>, wants: seq<MxWant>, w: MxWant) {
    || LastWant(wants, Host(w.content)) == Some(w.priority)
    || exists i | 0 <= i < |rs| ::
         !Ahead(Hosts(rs), i) && Host(rs[i].content) == Host(w.content) && rs[i].priority == w.priority
  }

  predicate Gives(rs: seq<MxRecord>, w: MxWant) {
    exists i | 0 <= i < |rs| :: Host(rs[i].content) == Host(w.content) && rs[i].priority == w.priority
  }

  lemma GivesIfServed(start: seq<MxRecord>, now: seq<MxRecord>, wants: seq<MxWant>, w: MxWant)
    requires Swept(start, now, wants) && w in wants && Served(start, wants, w)
    ensures Gives(now, w)
  {
    var host := Host(w.content);
    if LastWant(wants, host) == Some(w.priority) {
      assert Priority(now, host) == Some(w.priority);
    } else {
      var i :| 0 <= i < |start| && !Ahead(Hosts(start), i) && Host(start[i].content) == host
               && start[i].priority == w.priority;
      assert now[i] == start[i];
    }
  }

  lemma ServedIfGiven(start: seq<MxRecord>, now: seq<MxRecord>, wants: seq<MxWant>, w: MxWant)
    requires Swept(start, now, wants) && w in wants && Gives(now, w)
    ensures Served(start, wants, w)
  {
    var host := Host(w.content);
    var i :| 0 <= i < |now| && Host(now[i].content) == host && now[i].priority == w.priority;
    if Ahead(Hosts(now), i) {
      LastWantIs(wants, host);
      AheadIsFirst(now, i);
    } else {
      PrefixAhead(Hosts(start), Hosts(now), i);
      assert now[i] == start[i];
    }
  }

  lemma {:induction false} FirstAt(hosts: seq<string>, i: int)
    requires 0 <= i < |hosts| && Ahead(hosts, i)
    ensures First(hosts, hosts[i]) == Some(i)
  {
    if i > 0 {
      assert hosts[0] != hosts[i];
      assert forall j | 0 <= j < |hosts| - 1 :: hosts[1..][j] == hosts[j + 1];
      FirstAt(hosts[1..], i - 1);
    }
  }

  lemma AheadIsFirst(rs: seq<MxRecord>, i: int)
    requires 0 <= i < |rs| && Ahead(Hosts(rs), i)
    ensures Priority(rs, Host(rs[i].content)) == Some(rs[i].priority)
  {
    FirstAt(Hosts(rs), i);
  }

  lemma PrefixAhead(a: seq<string>, b: seq<string>, i: int)
    requires |a| <= |b| && b[..|a|] == a && 0 <= i < |a| && !Ahead(b, i)
    ensures !Ahead(a, i)
  {
    assert forall j | 0 <= j <= i :: b[..|a|][j] == b[j];
  }

  /** Wants that do not contradict each other are all given. */
  lemma ConsistentServed(rs: seq<MxRecord>, wants: seq<MxWant>)
    requires Consistent(wants)
    ensures forall w | w in wants :: Served(rs, wants, w)
  {
    forall w | w in wants ensures Served(rs, wants, w) {
      var i :| 0 <= i < |wants| && wants[i] == w;
      LastWantConsistent(wants, i);
    }
  }

  lemma AnsweredIff(answers: seq<Answer>, rs: seq<MxRecord>, w: MxWant)
    requires ShowsMx(Some(answers), rs)
    ensures Answered(answers, w) <==> Gives(rs, w)
  {
    var a := Answer(Host(w.content), w.priority);
    assert a in multiset(answers) <==> a in multiset(AnswersOf(rs));
    if Answered(answers, w) {
      var i :| 0 <= i < |rs| && AnswersOf(rs)[i] == a;
    }
    if i :| 0 <= i < |rs| && Host(rs[i].content) == Host(w.content) && rs[i].priority == w.priority {
      assert AnswersOf(rs)[i] == a;
    }
  }

  lemma MxAnsweredIff(answers: seq<Answer>, start: seq<MxRecord>, now: seq<MxRecord>, wants: seq<MxWant>)
    requires ShowsMx(Some(answers), now) && Swept(start, now, wants)
    ensures AllAnswered(answers, wants) <==> forall w | w in wants :: Served(start, wants, w)
  {
    forall w | w in wants ensures Answered(answers, w) <==> Served(start, wants, w) {
      AnsweredIff(answers, now, w);
      if Served(start, wants, w) { GivesIfServed(start, now, wants, w); }
      if Gives(now, w) { ServedIfGiven(start, now, wants, w); }
    }
    if AllAnswered(answers, wants) {
      forall w | w in wants ensures Served(start, wants, w) {
        var n :| 0 <= n < |wants| && wants[n] == w;
        assert Answered(answers, wants[n]);
      }
    }
  }

  /** What one run needs of the name it starts from to leave it whole. */
  ghost predicate Repairable(z: State, provider: Option<seq<Provided>>, plan: Plan, zone: string,
                             zoneId: Option<string>, queue: string)
  {
    && KeyOf(provider, plan).Some? && WantsOf(provider, plan) != []
    && (forall w | w in WantsOf(provider, plan) :: Served(z.mx, WantsOf(provider, plan), w))
    && (forall x | x in Said(z.dmarc) :: !Spaced(x))
    && Feedback.Mendable(z.subs, plan.domain, zone, zoneId, queue)
  }

  /** What an unrefused run in which nothing failed makes of a name. */
  ghost predicate Ran(before: State, after: State, provider: Option<seq<Provided>>, plan: Plan, zone: string,
                      zoneId: Option<string>, queue: string)
  {
    && Written(after.spf, after.dmarc, after.dkim, plan, KeyOf(provider, plan))
    && Swept(before.mx, after.mx, WantsOf(provider, plan)) && Spared(before.dmarc, after.dmarc, DMARC)
    && (Feedback.Evaluate(after.subs, plan.domain, queue).Live?
        <==> Feedback.Mendable(before.subs, plan.domain, zone, zoneId, queue))
  }

  lemma ProvidedStandIff(seen: Seen, plan: Plan, start: seq<MxRecord>, dkim: seq<Txt>, mx: seq<MxRecord>)
    requires seen.provider.Some? && ShowsTxt(seen.dkim, dkim) && ShowsMx(seen.mx, mx)
    requires KeyOf(seen.provider, plan).Some? ==> Settled(dkim, DKIM, KeyOf(seen.provider, plan).value)
    requires Swept(start, mx, WantsOf(seen.provider, plan))
    ensures DkimStanding(seen, plan).Held? <==> KeyOf(seen.provider, plan).Some?
    ensures MxStanding(seen, plan).Held? <==>
              (WantsOf(seen.provider, plan) != []
               && forall w | w in WantsOf(seen.provider, plan) :: Served(start, WantsOf(seen.provider, plan), w))
  {
    if KeyOf(seen.provider, plan).Some? { DkimStands(seen.dkim.value, dkim, KeyOf(seen.provider, plan).value); }
    MxAnsweredIff(seen.mx.value, start, mx, WantsOf(seen.provider, plan));
  }

  lemma DmarcRepairsIff(before: seq<Txt>, after: seq<Txt>)
    requires Spared(before, after, DMARC)
    ensures (forall x | x in Said(before) :: !Spaced(x)) <==> (forall x | x in Said(after) :: !Spaced(x))
  {
    forall x | Spaced(x) ensures x in Said(before) <==> x in Said(after) {
      SpacedSurvives(before, after, x);
    }
  }

  /** After such a run the name is seen whole exactly if it was repairable. */
  lemma RunRepairsIff(before: State, after: State, seen: Seen, provider: Option<seq<Provided>>, plan: Plan,
                      zone: string, zoneId: Option<string>, queue: string)
    requires Proper(plan) && Observes(seen, after, provider, plan, queue)
    requires Ran(before, after, provider, plan, zone, zoneId, queue)
    ensures Whole(FactsOf(seen, plan)) <==> Repairable(before, provider, plan, zone, zoneId, queue)
  {
    DmarcRepairsIff(before.dmarc, after.dmarc);
    WholeAfterIff(before.mx, after, seen, plan, queue);
  }

  /** What is seen of a name whose texts are written and whose exchanges are swept. */
  lemma WholeAfterIff(mx: seq<MxRecord>, after: State, seen: Seen, plan: Plan, queue: string)
    requires Proper(plan) && Observes(seen, after, seen.provider, plan, queue)
    requires Written(after.spf, after.dmarc, after.dkim, plan, KeyOf(seen.provider, plan))
    requires Swept(mx, after.mx, WantsOf(seen.provider, plan))
    ensures Whole(FactsOf(seen, plan)) <==>
              (KeyOf(seen.provider, plan).Some? && WantsOf(seen.provider, plan) != []
               && (forall w | w in WantsOf(seen.provider, plan) :: Served(mx, WantsOf(seen.provider, plan), w))
               && (forall x | x in Said(after.dmarc) :: !Spaced(x))
               && Feedback.Evaluate(after.subs, plan.domain, queue).Live?)
  {
    TextsStand(seen, plan, after.spf, after.dmarc);
    if seen.provider.Some? { ProvidedStandIff(seen, plan, mx, after.dkim, after.mx); }
  }

  /** What is observed of a name, from what it holds. */
  ghost predicate Faithful(observe: State -> Seen, provider: Option<seq<Provided>>, plan: Plan, queue: string) {
    forall z :: Observes(observe(z), z, provider, plan, queue)
  }

  /**
   * Decide; if there is something to do, run; decide again. `observe` is what public DNS and the account
   * show of a name once enabled. From a `todo`, when nothing fails and nothing is refused, the second decision
   * is `already` exactly if the name was repairable.
   */
  method DecideApplyDecide(sender: Sender, spf: TxtName, dmarc: TxtName, dkim: TxtName, mx: MxName,
                           account: Feedback.Account, plan: Plan, seen: Seen, observe: State -> Seen,
                           provider: Option<seq<Provided>>, zone: string, queue: string, run: Run, minted: string)
    returns (first: Decision, end: Ending, second: Decision)
    requires spf != dmarc && spf != dkim && dmarc != dkim
    requires spf.Valid() && dmarc.Valid() && dkim.Valid() && mx.Valid() && Proper(plan)
    requires Feedback.IdsOnce(account.subs) && Trimmed(plan.domain)
    requires forall i | 0 <= i < |account.subs| :: account.subs[i].id != minted
    requires Faithful(observe, provider, plan, queue)
    modifies sender, spf, dmarc, dkim, mx, account
    ensures first.Already? <==> Whole(FactsOf(seen, plan))
    ensures first.Blocked? <==> Stopped(FactsOf(seen, plan))
    ensures !first.Todo? ==> end == Done && spf.records == old(spf.records) && dmarc.records == old(dmarc.records)
                             && dkim.records == old(dkim.records) && mx.records == old(mx.records)
                             && account.subs == old(account.subs)
    ensures first.Todo? && run.token && run.weather == Feedback.Fair && end.Done? ==>
              (second.Already? <==>
                 Repairable(State(old(spf.records), old(dmarc.records), old(dkim.records), old(mx.records),
                                  old(account.subs)),
                            provider, plan, zone, run.zoneId, queue))
    ensures first.Todo? && run.token
            && FairRun(run, CallsNeeded(old(spf.records), old(dmarc.records), old(dkim.records),
                                        WantsOf(provider, plan)))
            ==> (end.Done? <==> |Managed(old(spf.records), SPF)| <= 1
                                && (KeyOf(provider, plan).Some? ==> |Managed(old(dkim.records), DKIM)| <= 1))
  {
    ghost var before := State(spf.records, dmarc.records, dkim.records, mx.records, account.subs);
    first := DecideSendingTarget(seen, plan);
    end := Done;
    if first.Todo? {
      var changes, feedback, made;
      end, changes, feedback, made :=
        SetupSending(sender, spf, dmarc, dkim, mx, account, plan, provider, zone, queue, run, minted);
    }
    var after := State(spf.records, dmarc.records, dkim.records, mx.records, account.subs);
    second := DecideSendingTarget(observe(after), plan);
    assert Observes(observe(after), after, provider, plan, queue);
    if first.Todo? && run.token && run.weather == Feedback.Fair && end.Done? {
      RunRepairsIff(before, after, observe(after), provider, plan, zone, run.zoneId, queue);
    }
  }

  // ---------------------------------------------------------------- whole, and still written to

  lemma LookAlikeWord(s: string)
    requires s == "v=DMARC1x"
    ensures LookAlike(s) && Bare(s) && Trimmed(s)
  {}

  lemma LookAlikeExists(s: string)
    requires s == "v=DMARC1x"
    ensures LookAlike(NormalizeTxt(s))
  {
    LookAlikeWord(s);
    NormalizeBare(s);
  }

  /** Beside any whole and untouched name, one look-alike goes unseen and makes the next run write. */
  lemma LookAlikeIsCollapsed(seen: Seen, plan: Plan, spf: seq<Txt>, dmarc: seq<Txt>, dkim: seq<Txt>,
                             mx: seq<MxRecord>, r: Txt)
    requires Proper(plan) && Whole(FactsOf(seen, plan)) && Shows(seen, spf, dmarc, dkim, mx)
    requires LookAlike(NormalizeTxt(r.content))
    ensures var seen' := seen.(dmarc := Some([r.content] + seen.dmarc.value));
            Whole(FactsOf(seen', plan)) && Shows(seen', spf, [r] + dmarc, dkim, mx)
            && !Untouched(spf, [r] + dmarc, dkim, mx, plan, KeyOf(seen.provider, plan), WantsOf(seen.provider, plan))
  {
    var texts := [r.content] + seen.dmarc.value;
    PrefixTagged(NormalizeTxt(r.content));
    AddedTexts(r.content, seen.dmarc.value);
    AddedRecord(r, dmarc);
    AlreadyUntouchedIff(seen.(dmarc := Some(texts)), plan, spf, [r] + dmarc, dkim, mx);
  }

  lemma FormsAdded(text: string, texts: seq<string>)
    ensures Forms([text] + texts) == [NormalizeTxt(text)] + Forms(texts)
  {}

  lemma TaggedAdded(form: string, forms: seq<string>)
    requires !DmarcTagged(form)
    ensures Tagged([form] + forms) == Tagged(forms)
  {
    assert ([form] + forms)[1..] == forms;
  }

  lemma AddedTexts(text: string, texts: seq<string>)
    requires !DmarcTagged(NormalizeTxt(text))
    ensures Forms([text] + texts) == [NormalizeTxt(text)] + Forms(texts)
    ensures Tagged(Forms([text] + texts)) == Tagged(Forms(texts))
  {
    FormsAdded(text, texts);
    TaggedAdded(NormalizeTxt(text), Forms(texts));
  }

  lemma AddedRecord(r: Txt, rs: seq<Txt>)
    ensures Said([r] + rs) == [NormalizeTxt(r.content)] + Said(rs)
    ensures NormalizeTxt(r.content) in Said([r] + rs)
  {}

  /** A second DKIM record goes unseen too, and the next run refuses to pick one. */
  lemma SecondKeyIsRefused(seen: Seen, plan: Plan, spf: seq<Txt>, dmarc: seq<Txt>, dkim: seq<Txt>,
                           mx: seq<MxRecord>, r: Txt)
    requires Whole(FactsOf(seen, plan)) && Shows(seen, spf, dmarc, dkim, mx)
    requires Settled(dkim, DKIM, KeyOf(seen.provider, plan).value) && Owning(DKIM)(r)
    ensures var seen' := seen.(dkim := Some([r.content] + seen.dkim.value));
            Whole(FactsOf(seen', plan)) && Shows(seen', spf, dmarc, [r] + dkim, mx)
            && |Managed([r] + dkim, DKIM)| > 1
  {
    KeyStillSeen(seen, plan, r.content);
    AddedRecord(r, dkim);
    Unfolded(r, dkim, Owning(DKIM), 0);
  }

  lemma KeyStillSeen(seen: Seen, plan: Plan, text: string)
    requires Whole(FactsOf(seen, plan)) && seen.dkim.Some?
    ensures Whole(FactsOf(seen.(dkim := Some([text] + seen.dkim.value)), plan))
    ensures Forms([text] + seen.dkim.value) == [NormalizeTxt(text)] + Forms(seen.dkim.value)
  {
    FormsAdded(text, seen.dkim.value);
  }

  /** So does a record of a wanted exchange put first with another priority. */
  lemma ShadowIsRepatched(seen: Seen, plan: Plan, spf: seq<Txt>, dmarc: seq<Txt>, dkim: seq<Txt>,
                          mx: seq<MxRecord>, w: MxWant, r: MxRecord)
    requires Proper(plan) && Whole(FactsOf(seen, plan)) && Shows(seen, spf, dmarc, dkim, mx)
    requires w in WantsOf(seen.provider, plan) && Host(r.content) == Host(w.content) && r.priority != w.priority
    ensures var seen' := seen.(mx := Some([Answer(Host(r.content), r.priority)] + seen.mx.value));
            Whole(FactsOf(seen', plan)) && Shows(seen', spf, dmarc, dkim, [r] + mx)
            && !Untouched(spf, dmarc, dkim, [r] + mx, plan, KeyOf(seen.provider, plan), WantsOf(seen.provider, plan))
  {
    var a := Answer(Host(r.content), r.priority);
    StillWhole(seen, plan, a);
    PutFirst(mx, w, r, seen.mx.value);
    AlreadyUntouchedIff(seen.(mx := Some([a] + seen.mx.value)), plan, spf, dmarc, dkim, [r] + mx);
  }

  lemma PutFirst(mx: seq<MxRecord>, w: MxWant, r: MxRecord, answers: seq<Answer>)
    requires ShowsMx(Some(answers), mx) && Host(r.content) == Host(w.content) && r.priority != w.priority
    ensures Shadowed([r] + mx, w) && ShowsMx(Some([Answer(Host(r.content), r.priority)] + answers), [r] + mx)
  {
    var a, rs := Answer(Host(r.content), r.priority), [r] + mx;
    assert AnswersOf(rs) == [a] + AnswersOf(mx);
    assert rs[0] == r;
  }

  lemma StillWhole(seen: Seen, plan: Plan, a: Answer)
    requires Whole(FactsOf(seen, plan)) && seen.mx.Some?
    ensures Whole(FactsOf(seen.(mx := Some([a] + seen.mx.value)), plan))
  {
    MoreAnswered(seen.mx.value, a, WantsOf(seen.provider, plan));
  }

  lemma MoreAnswered(answers: seq<Answer>, a: Answer, wants: seq<MxWant>)
    requires AllAnswered(answers, wants)
    ensures AllAnswered([a] + answers, wants)
  {}

  // ---------------------------------------------------------------- such names

  function Contents(rs: seq<Txt>): seq<string> {
    if rs == [] then [] else [rs[0].content] + Contents(rs[1..])
  }

  lemma {:induction false} ContentsShown(rs: seq<Txt>)
    ensures Forms(Contents(rs)) == Said(rs)
  {
    if rs != [] {
      ContentsShown(rs[1..]);
      FormsAdded(rs[0].content, Contents(rs[1..]));
    }
  }

  /** The plainest observation: every record as the zone spells it, in the zone's order. */
  function Plainly(z: State, provider: Option<seq<Provided>>, plan: Plan, queue: string, token: bool): Seen {
    Seen(Some(true), provider, Some(Contents(z.spf)), Some(Contents(z.dkim)), Some(AnswersOf(z.mx)),
         Some(Contents(z.dmarc)), Some(Feedback.Evaluate(z.subs, plan.domain, queue)), token)
  }

  lemma PlainlyObserves(z: State, provider: Option<seq<Provided>>, plan: Plan, queue: string, token: bool)
    ensures Observes(Plainly(z, provider, plan, queue, token), z, provider, plan, queue)
  {
    ContentsShown(z.spf);
    ContentsShown(z.dkim);
    ContentsShown(z.dmarc);
  }

  /** A plan as the program makes them, for a name without a final dot. */
  predicate Named(plan: Plan) {
    Proper(plan) && Trimmed(plan.domain) && plan.domain != "" && plan.domain[|plan.domain| - 1] != '.'
  }

  lemma PlanExists() returns (plan: Plan)
    ensures Named(plan)
  {
    var zone := "b.c";
    ZoneWord(zone);
    PlansAreProper(Plans.Target(zone, None), Plans.DmarcPlan("none", "relaxed", None));
    plan := PlanFor(Plans.Target(zone, None), Plans.DmarcPlan("none", "relaxed", None));
    PlanNamed(plan, zone);
  }

  lemma ZoneWord(zone: string)
    requires zone == "b.c"
    ensures Trimmed(zone) && zone != "" && zone[|zone| - 1] != '.'
  {}

  lemma PlanNamed(plan: Plan, zone: string)
    requires Proper(plan) && plan.domain == zone && Trimmed(zone) && zone != "" && zone[|zone| - 1] != '.'
    ensures Named(plan)
  {}

  lemma NameIs(p: Provided, front: string, domain: string)
    requires p.name == front + domain && domain != "" && domain[|domain| - 1] != '.'
    ensures Name(p) == Lower(p.name) && EndsWith(Name(p), Lower(domain))
  {
    LowerJoin(front, domain);
    assert Lower(p.name)[|p.name| - 1] == LowerChar(domain[|domain| - 1]);
  }

  lemma KeyFound(sd: string, key: Provided, rest: seq<Provided>, selector: string)
    requires sd != "" && sd[|sd| - 1] != '.' && key.ProvidedTxt? && Starts(Trim(key.content), DKIM)
    requires key.name == selector + ("._domainkey." + sd)
    ensures SelectDkim([key] + rest, sd) == Some(key.content) && SelectMx([key] + rest, sd) == SelectMx(rest, sd)
  {
    NameIs(key, selector, "._domainkey." + sd);
    assert ([key] + rest)[1..] == rest;
  }

  lemma OneMx(mx: Provided, sd: string)
    requires mx.ProvidedMx? && Name(mx) == Lower("cf-bounce." + sd)
    ensures SelectMx([mx], sd) == [MxWant(mx.content, PriorityOr(mx))]
  {
    assert [mx][1..] == [];
  }

  lemma MxFound(sd: string, mx: Provided, front: string)
    requires sd != "" && sd[|sd| - 1] != '.' && front == "cf-bounce."
    requires mx.ProvidedMx? && mx.name == front + sd
    ensures SelectMx([mx], sd) == [MxWant(mx.content, PriorityOr(mx))]
  {
    NameIs(mx, front, sd);
    OneMx(mx, sd);
  }

  /** The provider's DKIM record for a selector, and its MX, are found in its output. */
  lemma ProviderFound(plan: Plan, selector: string, content: string) returns (provider: Option<seq<Provided>>)
    requires Named(plan) && Starts(Trim(content), DKIM)
    ensures KeyOf(provider, plan) == Some(content) && WantsOf(provider, plan) == [MxWant("mx", 10)]
    ensures provider.Some?
  {
    var key := ProvidedTxt(selector + ("._domainkey." + plan.domain), content);
    var mx := ProvidedMx("cf-bounce." + plan.domain, "mx", Some(10));
    KeyFound(plan.domain, key, [mx], selector);
    MxFound(plan.domain, mx, "cf-bounce.");
    provider := Some([key] + [mx]);
  }

  lemma OneSettled(r: Txt, prefix: string)
    requires Word(prefix) && Starts(Trim(r.content), prefix)
    ensures Settled([r], prefix, r.content) && Said([r]) == [NormalizeTxt(r.content)]
  {
    NormalizeKeeps(r.content, prefix);
    Unfolded(r, [], Owning(prefix), 0);
    assert [r] + [] == [r] && [r][1..] == [];
  }

  lemma OneFirst(r: MxRecord)
    ensures AllFirst([r], [MxWant(r.content, r.priority)])
  {
    assert Hosts([r])[0] == Host(r.content);
    FirstAt(Hosts([r]), 0);
  }

  lemma OneLive(plan: Plan, queue: string) returns (subs: seq<Feedback.Subscription>)
    requires Trimmed(plan.domain)
    ensures Feedback.Evaluate(subs, plan.domain, queue).Live?
  {
    subs := [Feedback.Subscription("s", true, Feedback.SOURCE, Some(plan.domain), None, Some(queue), Feedback.EVENTS)];
    Feedback.CreateMends([], subs, plan.domain, queue);
  }

  /** A whole name: one key and one exchange from the provider, one record of each kind, all as wanted. */
  lemma WholeName(plan: Plan, queue: string, key: string) returns (seen: Seen, z: State)
    requires Named(plan) && Starts(Trim(key), DKIM)
    ensures Shows(seen, z.spf, z.dmarc, z.dkim, z.mx) && Whole(FactsOf(seen, plan))
    ensures KeyOf(seen.provider, plan) == Some(key) && WantsOf(seen.provider, plan) == [MxWant("mx", 10)]
    ensures Untouched(z.spf, z.dmarc, z.dkim, z.mx, plan, KeyOf(seen.provider, plan), WantsOf(seen.provider, plan))
  {
    var provider := ProviderFound(plan, "k", key);
    var subs := OneLive(plan, queue);
    z := State([Txt(0, plan.spf)], [Txt(0, plan.dmarc)], [Txt(0, key)], [MxRecord(0, "mx", 10)], subs);
    seen := Plainly(z, provider, plan, queue, true);
    PlainlyObserves(z, provider, plan, queue, true);
    WholeNameUntouched(plan, key, z);
    WholeSeen(plan, z, seen, queue);
  }

  lemma WholeSeen(plan: Plan, z: State, seen: Seen, queue: string)
    requires Proper(plan) && Observes(seen, z, seen.provider, plan, queue)
    requires Said(z.dmarc) == [NormalizeTxt(plan.dmarc)] && Feedback.Evaluate(z.subs, plan.domain, queue).Live?
    requires KeyOf(seen.provider, plan).Some? && WantsOf(seen.provider, plan) != []
    requires Untouched(z.spf, z.dmarc, z.dkim, z.mx, plan, KeyOf(seen.provider, plan), WantsOf(seen.provider, plan))
    ensures Whole(FactsOf(seen, plan))
  {
    WantedNotSpaced(plan);
    UntouchedStands(seen, plan, z.spf, z.dmarc, z.dkim, z.mx);
  }

  lemma WholeNameUntouched(plan: Plan, key: string, z: State)
    requires Proper(plan) && Starts(Trim(key), DKIM)
    requires z.spf == [Txt(0, plan.spf)] && z.dmarc == [Txt(0, plan.dmarc)] && z.dkim == [Txt(0, key)]
    requires z.mx == [MxRecord(0, "mx", 10)]
    ensures Untouched(z.spf, z.dmarc, z.dkim, z.mx, plan, Some(key), [MxWant("mx", 10)])
    ensures Said(z.dmarc) == [NormalizeTxt(plan.dmarc)]
  {
    Words();
    TagStarts(Trim(plan.dmarc));
    OneSettled(z.spf[0], SPF);
    OneSettled(z.dmarc[0], DMARC);
    OneSettled(z.dkim[0], DKIM);
    OneFirst(z.mx[0]);
  }

  lemma KeyWord(key: string)
    requires key == "v=DKIM1"
    ensures Starts(Trim(key), DKIM) && Starts(NormalizeTxt(key), DKIM)
  {
    Words();
    assert Starts(key, DKIM);
    TrimKeeps(key, DKIM);
    NormalizeKeeps(key, DKIM);
  }

  /** Names found whole that the next run nevertheless writes to, or refuses: one of each kind. */
  lemma QuietFaultsExist(plan: Plan, queue: string) returns (seen: Seen, z: State)
    requires Named(plan)
    ensures Shows(seen, z.spf, z.dmarc, z.dkim, z.mx) && Whole(FactsOf(seen, plan))
    ensures LookAlike(NormalizeTxt("v=DMARC1x")) && Owning(DKIM)(Txt(1, "v=DKIM1"))
    ensures var key, wants := KeyOf(seen.provider, plan), WantsOf(seen.provider, plan);
            && !Untouched(z.spf, [Txt(1, "v=DMARC1x")] + z.dmarc, z.dkim, z.mx, plan, key, wants)
            && Whole(FactsOf(seen.(dmarc := Some(["v=DMARC1x"] + seen.dmarc.value)), plan))
            && Shows(seen.(dmarc := Some(["v=DMARC1x"] + seen.dmarc.value)), z.spf,
                     [Txt(1, "v=DMARC1x")] + z.dmarc, z.dkim, z.mx)
    ensures |Managed([Txt(1, "v=DKIM1")] + z.dkim, DKIM)| > 1
            && Whole(FactsOf(seen.(dkim := Some(["v=DKIM1"] + seen.dkim.value)), plan))
            && Shows(seen.(dkim := Some(["v=DKIM1"] + seen.dkim.value)), z.spf, z.dmarc,
                     [Txt(1, "v=DKIM1")] + z.dkim, z.mx)
    ensures var key, wants := KeyOf(seen.provider, plan), WantsOf(seen.provider, plan);
            && !Untouched(z.spf, z.dmarc, z.dkim, [MxRecord(1, "mx", 20)] + z.mx, plan, key, wants)
            && Whole(FactsOf(seen.(mx := Some([Answer(Host("mx"), 20)] + seen.mx.value)), plan))
            && Shows(seen.(mx := Some([Answer(Host("mx"), 20)] + seen.mx.value)), z.spf, z.dmarc, z.dkim,
                     [MxRecord(1, "mx", 20)] + z.mx)
  {
    KeyWord("v=DKIM1");
    seen, z := WholeName(plan, queue, "v=DKIM1");
    LookAlikeExists("v=DMARC1x");
    LookAlikeIsCollapsed(seen, plan, z.spf, z.dmarc, z.dkim, z.mx, Txt(1, "v=DMARC1x"));
    SecondKeyIsRefused(seen, plan, z.spf, z.dmarc, z.dkim, z.mx, Txt(1, "v=DKIM1"));
    assert MxWant("mx", 10) in WantsOf(seen.provider, plan);
    ShadowIsRepatched(seen, plan, z.spf, z.dmarc, z.dkim, z.mx, MxWant("mx", 10), MxRecord(1, "mx", 20));
  }

  /** Every observation, whatever the zone: what DecideApplyDecide asks of one can be had. */
  lemma ObservationExists(provider: Option<seq<Provided>>, plan: Plan, queue: string) returns (observe: State -> Seen)
    ensures Faithful(observe, provider, plan, queue)
  {
    observe := (z: State) => Plainly(z, provider, plan, queue, true);
    forall z ensures Observes(observe(z), z, provider, plan, queue) {
      PlainlyObserves(z, provider, plan, queue, true);
    }
  }
}
