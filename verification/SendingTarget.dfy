/**
 * Whether one sending name is whole (scripts/lib/onboard-core.ts: decideSendingTarget), and the DNS
 * upserts that make it so (scripts/setup-sending.ts). Public DNS and the zone are related by `Shows`.
 */
module SendingTarget {
  import opened Common
  import opened Text
  import opened Upserts
  import Dmarc
  import Feedback
  import Plans = SendingPlan

  const SPF_VALUE := "v=spf1 include:_spf.mx.cloudflare.net ~all"

  /** What the run is to leave behind: the name, and the texts at its bounce and DMARC names. */
  datatype Plan = Plan(domain: string, spf: string, dmarc: string)

  function PlanFor(target: Plans.Target, dmarc: Plans.DmarcPlan): Plan {
    Plan(target.SendingDomain(), SPF_VALUE, Dmarc.DmarcValue(dmarc))
  }

  // ---------------------------------------------------------------- what the provider asks for

  datatype Provided =
    | ProvidedTxt(name: string, content: string)
    | ProvidedMx(name: string, content: string, priority: Option<int>)

  function Name(p: Provided): string {
    Plans.WithoutFinalDot(Lower(p.name))
  }

  predicate IsDkim(p: Provided, sd: string) {
    p.ProvidedTxt? && EndsWith(Name(p), Lower("._domainkey." + sd)) && Starts(Trim(p.content), DKIM)
  }

  function SelectDkim(records: seq<Provided>, sd: string): (r: Option<string>)
    ensures r.Some? ==> Starts(Trim(r.value), DKIM)
  {
    if records == [] then None
    else if IsDkim(records[0], sd) then Some(records[0].content)
    else SelectDkim(records[1..], sd)
  }

  function PriorityOr(p: Provided): int
    requires p.ProvidedMx?
  {
    if p.priority.Some? then p.priority.value else 10
  }

  function SelectMx(records: seq<Provided>, sd: string): seq<MxWant> {
    if records == [] then []
    else if records[0].ProvidedMx? && Name(records[0]) == Lower("cf-bounce." + sd)
    then [MxWant(records[0].content, PriorityOr(records[0]))] + SelectMx(records[1..], sd)
    else SelectMx(records[1..], sd)
  }

  // ---------------------------------------------------------------- the decision

  datatype Answer = Answer(exchange: string, priority: int)

  /** What was observed; None where it could not be read. */
  datatype Seen = Seen(
    enabled: Option<bool>, provider: Option<seq<Provided>>, spf: Option<seq<string>>,
    dkim: Option<seq<string>>, mx: Option<seq<Answer>>, dmarc: Option<seq<string>>,
    feedback: Option<Feedback.Verdict>, token: bool)

  /** How one of the name's records stands. */
  datatype Standing = Held | Wanting | Unknown

  /** What the observation says of a plan. */
  datatype Facts = Facts(
    enabled: Option<bool>, published: bool, spfs: nat, spf: Standing, dkim: Standing, mx: Standing,
    dmarc: Standing, feedback: Option<Feedback.Verdict>, token: bool)

  function Stands(held: bool): Standing {
    if held then Held else Wanting
  }

  /** One text of the kind is published, and it is the wanted one. */
  predicate Only(texts: seq<string>, wanted: string) {
    |texts| == 1 && texts[0] == wanted
  }

  function SpfTexts(seen: Seen): seq<string> {
    if seen.spf.Some? then Starting(Forms(seen.spf.value), SPF) else []
  }

  function SpfStanding(seen: Seen, plan: Plan): Standing {
    if seen.spf.None? then Unknown else Stands(Only(SpfTexts(seen), plan.spf))
  }

  function DmarcStanding(seen: Seen, plan: Plan): Standing {
    if seen.dmarc.None? then Unknown
    else Stands(Only(Tagged(Forms(seen.dmarc.value)), NormalizeTxt(plan.dmarc)))
  }

  function DkimStanding(seen: Seen, plan: Plan): Standing
    requires seen.provider.Some?
  {
    var key := SelectDkim(seen.provider.value, plan.domain);
    if key.None? || seen.dkim.None? then Unknown
    else Stands(NormalizeTxt(key.value) in Forms(seen.dkim.value))
  }

  predicate Answered(answers: seq<Answer>, w: MxWant) {
    Answer(Host(w.content), w.priority) in answers
  }

  predicate AllAnswered(answers: seq<Answer>, wants: seq<MxWant>) {
    forall i | 0 <= i < |wants| :: Answered(answers, wants[i])
  }

  function MxStanding(seen: Seen, plan: Plan): Standing
    requires seen.provider.Some?
  {
    var wants := SelectMx(seen.provider.value, plan.domain);
    if wants == [] || seen.mx.None? then Unknown else Stands(AllAnswered(seen.mx.value, wants))
  }

  function FactsOf(seen: Seen, plan: Plan): Facts {
    Facts(seen.enabled, seen.provider.Some?, |SpfTexts(seen)|, SpfStanding(seen, plan),
      if seen.provider.Some? then DkimStanding(seen, plan) else Unknown,
      if seen.provider.Some? then MxStanding(seen, plan) else Unknown,
      DmarcStanding(seen, plan), seen.feedback, seen.token)
  }

  // ---------------------------------------------------------------- the decision

  datatype Gap = NotEnabled | Spf | Unpublished | Dkim | Mx | Dmarc | NoFeedback

  datatype Decision = Already | Todo(gaps: seq<Gap>) | Blocked

  /** The gap is there to be closed. */
  predicate Lacks(f: Facts, g: Gap) {
    match g
    case NotEnabled => f.enabled.Some? && !f.enabled.value
    case Spf => f.spf.Wanting?
    case Unpublished => !f.published
    case Dkim => f.published && f.dkim.Wanting?
    case Mx => f.published && f.mx.Wanting?
    case Dmarc => f.dmarc.Wanting?
    case NoFeedback => f.feedback.Some? && !f.feedback.value.Live?
  }

  /** The name is whole: enabled, its four records as wanted, and all six events arriving. */
  predicate Whole(f: Facts) {
    f.enabled.Some? && f.enabled.value && f.published && f.spf.Held? && f.dkim.Held? && f.mx.Held? && f.dmarc.Held?
    && f.feedback.Some? && f.feedback.value.Live?
  }

  /** Something the verdict needs could not be read. Without provider records, only an enabled name needs them. */
  predicate Unread(f: Facts) {
    f.enabled.None? || f.spf.Unknown? || f.dmarc.Unknown?
    || (if f.published then f.dkim.Unknown? || f.mx.Unknown? else (f.enabled.Some? && f.enabled.value))
  }

  /** No plan is offered: the choice is not the run's, something is unread, or DNS cannot be written. */
  predicate Stopped(f: Facts) {
    f.spfs > 1 || Unread(f) || f.feedback.None? || f.feedback.value.WrongQueue?
    || (!f.token && exists g :: Lacks(f, g) && !g.NoFeedback?)
  }

  // ---------------------------------------------------------------- the same, over what was observed

  /** One text in all is of the kind, and its form is the wanted one. */
  ghost predicate SoleText(texts: seq<string>, kind: string -> bool, wanted: string) {
    exists i :: 0 <= i < |texts| && kind(NormalizeTxt(texts[i])) && NormalizeTxt(texts[i]) == wanted
                && forall j | 0 <= j < |texts| && kind(NormalizeTxt(texts[j])) :: j == i
  }

  ghost predicate TwoTexts(texts: seq<string>, kind: string -> bool) {
    exists i, j :: 0 <= i < j < |texts| && kind(NormalizeTxt(texts[i])) && kind(NormalizeTxt(texts[j]))
  }

  ghost predicate Begins(s: string, prefix: string) {
    |prefix| <= |s| && SameUpToCase(s[..|prefix|], prefix)
  }

  ghost function SpfKind(): string -> bool {
    (t: string) => Begins(t, "v=spf1")
  }

  ghost function DmarcKind(): string -> bool {
    (t: string) => exists a, b :: VersionTag(t, a, b)
  }

  /** The name is this one in either case, written with a final dot or without. */
  ghost predicate Names(name: string, wanted: string) {
    SameUpToCase(name, wanted) || SameUpToCase(name, wanted + ".")
  }

  /** The provider's record i is a DKIM key of the domain, under any selector. */
  ghost predicate IsKey(records: seq<Provided>, i: int, domain: string) {
    && 0 <= i < |records| && records[i].ProvidedTxt? && Begins(Trim(records[i].content), "v=dkim1")
    && exists selector: string :: Names(records[i].name, selector + "._domainkey." + domain)
  }

  /** And the first it shows. */
  ghost predicate FirstKey(records: seq<Provided>, i: int, domain: string) {
    IsKey(records, i, domain) && forall j | 0 <= j < i :: !IsKey(records, j, domain)
  }

  ghost predicate IsBounce(records: seq<Provided>, i: int, domain: string) {
    0 <= i < |records| && records[i].ProvidedMx? && Names(records[i].name, "cf-bounce." + domain)
  }

  /** The exchange is answered, at the provider's priority or at 10 where it names none. */
  ghost predicate BounceAnswered(seen: Seen, i: int)
    requires seen.provider.Some? && 0 <= i < |seen.provider.value| && seen.provider.value[i].ProvidedMx?
    requires seen.mx.Some?
  {
    var r := seen.provider.value[i];
    exists k :: 0 <= k < |seen.mx.value| && seen.mx.value[k].exchange == Host(r.content)
                && seen.mx.value[k].priority == match r.priority case Some(p) => p case None => 10
  }

  ghost predicate SpfRight(seen: Seen, plan: Plan) {
    seen.spf.Some? && SoleText(seen.spf.value, SpfKind(), plan.spf)
  }

  ghost predicate DmarcRight(seen: Seen, plan: Plan) {
    seen.dmarc.Some? && SoleText(seen.dmarc.value, DmarcKind(), NormalizeTxt(plan.dmarc))
  }

  ghost predicate KeyRead(seen: Seen, plan: Plan) {
    seen.provider.Some? && seen.dkim.Some? && exists i :: FirstKey(seen.provider.value, i, plan.domain)
  }

  ghost predicate KeyRight(seen: Seen, plan: Plan) {
    seen.provider.Some? && seen.dkim.Some?
    && exists i, k :: FirstKey(seen.provider.value, i, plan.domain) && 0 <= k < |seen.dkim.value|
         && NormalizeTxt(seen.dkim.value[k]) == NormalizeTxt(seen.provider.value[i].content)
  }

  ghost predicate MxRead(seen: Seen, plan: Plan) {
    seen.provider.Some? && seen.mx.Some? && exists i :: IsBounce(seen.provider.value, i, plan.domain)
  }

  ghost predicate MxRight(seen: Seen, plan: Plan) {
    MxRead(seen, plan) && forall i | IsBounce(seen.provider.value, i, plan.domain) :: BounceAnswered(seen, i)
  }

  ghost predicate Enabled(seen: Seen, yes: bool) {
    seen.enabled == Some(yes)
  }

  /** The name was seen enabled, its four records as wanted, and all six events arriving. */
  ghost predicate SeenWhole(seen: Seen, plan: Plan) {
    && Enabled(seen, true) && SpfRight(seen, plan) && KeyRight(seen, plan) && MxRight(seen, plan)
    && DmarcRight(seen, plan) && seen.feedback.Some? && seen.feedback.value.Live?
  }

  /** The gap was seen. */
  ghost predicate SeenLacking(seen: Seen, plan: Plan, g: Gap) {
    match g
    case NotEnabled => Enabled(seen, false)
    case Spf => seen.spf.Some? && !SpfRight(seen, plan)
    case Unpublished => seen.provider.None?
    case Dkim => KeyRead(seen, plan) && !KeyRight(seen, plan)
    case Mx => MxRead(seen, plan) && !MxRight(seen, plan)
    case Dmarc => seen.dmarc.Some? && !DmarcRight(seen, plan)
    case NoFeedback => seen.feedback.Some? && !seen.feedback.value.Live?
  }

  ghost predicate SeenUnread(seen: Seen, plan: Plan) {
    || seen.enabled.None? || seen.spf.None? || seen.dmarc.None?
    || (seen.provider.Some? && !(KeyRead(seen, plan) && MxRead(seen, plan)))
    || (seen.provider.None? && Enabled(seen, true))
  }

  ghost predicate SeenStopped(seen: Seen, plan: Plan) {
    || (seen.spf.Some? && TwoTexts(seen.spf.value, SpfKind())) || SeenUnread(seen, plan)
    || seen.feedback.None? || seen.feedback.value.WrongQueue?
    || (!seen.token && exists g :: SeenLacking(seen, plan, g) && !g.NoFeedback?)
  }

  // Each standing, read off the observation.

  ghost function Kept(texts: seq<string>, kind: string -> bool): seq<string> {
    if texts == [] then []
    else (if kind(NormalizeTxt(texts[0])) then [NormalizeTxt(texts[0])] else []) + Kept(texts[1..], kind)
  }

  lemma {:induction false} KeptIs(texts: seq<string>, kind: string -> bool, i: int)
    requires 0 <= i < |texts| && kind(NormalizeTxt(texts[i]))
    ensures NormalizeTxt(texts[i]) in Kept(texts, kind)
  {
    if i > 0 { KeptIs(texts[1..], kind, i - 1); }
  }

  lemma {:induction false} KeptFrom(texts: seq<string>, kind: string -> bool) returns (i: int)
    requires Kept(texts, kind) != []
    ensures 0 <= i < |texts| && kind(NormalizeTxt(texts[i])) && NormalizeTxt(texts[i]) == Kept(texts, kind)[0]
    ensures |Kept(texts, kind)| == 1 <==> forall j | 0 <= j < |texts| && kind(NormalizeTxt(texts[j])) :: j == i
  {
    var rest := Kept(texts[1..], kind);
    if kind(NormalizeTxt(texts[0])) {
      i := 0;
      if rest != [] {
        var j := KeptFrom(texts[1..], kind);
        assert kind(NormalizeTxt(texts[j + 1]));
      } else {
        forall j | 0 < j < |texts| ensures !kind(NormalizeTxt(texts[j])) {
          if kind(NormalizeTxt(texts[j])) { KeptIs(texts[1..], kind, j - 1); }
        }
      }
    } else {
      var j := KeptFrom(texts[1..], kind);
      i := j + 1;
      assert forall k | 0 < k < |texts| :: texts[k] == texts[1..][k - 1];
      if forall k | 0 <= k < |texts| && kind(NormalizeTxt(texts[k])) :: k == i {
        forall k | 0 <= k < |texts[1..]| && kind(NormalizeTxt(texts[1..][k])) ensures k == j {
          assert kind(NormalizeTxt(texts[k + 1]));
        }
      }
    }
  }

  lemma KeptSole(texts: seq<string>, kind: string -> bool, wanted: string)
    ensures Only(Kept(texts, kind), wanted) <==> SoleText(texts, kind, wanted)
    ensures |Kept(texts, kind)| > 1 <==> TwoTexts(texts, kind)
  {
    if Kept(texts, kind) != [] {
      var i := KeptFrom(texts, kind);
      if |Kept(texts, kind)| > 1 {
        var j :| 0 <= j < |texts| && kind(NormalizeTxt(texts[j])) && j != i;
        assert if i < j then TwoTexts(texts, kind) else TwoTexts(texts, kind);
      }
    } else {
      forall i | 0 <= i < |texts| ensures !kind(NormalizeTxt(texts[i])) {
        if kind(NormalizeTxt(texts[i])) { KeptIs(texts, kind, i); }
      }
    }
  }

  lemma {:induction false} StartingKept(texts: seq<string>)
    ensures Starting(Forms(texts), SPF) == Kept(texts, SpfKind())
  {
    if texts != [] {
      assert Forms(texts)[1..] == Forms(texts[1..]);
      StartingKept(texts[1..]);
      StartsMeans(NormalizeTxt(texts[0]), SPF);
    }
  }

  lemma {:induction false} TaggedKept(texts: seq<string>)
    ensures Tagged(Forms(texts)) == Kept(texts, DmarcKind())
  {
    if texts != [] {
      assert Forms(texts)[1..] == Forms(texts[1..]);
      TaggedKept(texts[1..]);
      DmarcTaggedMeans(NormalizeTxt(texts[0]));
    }
  }

  lemma SpfSeen(seen: Seen, plan: Plan)
    ensures SpfStanding(seen, plan).Unknown? <==> seen.spf.None?
    ensures SpfStanding(seen, plan).Held? <==> SpfRight(seen, plan)
    ensures |SpfTexts(seen)| > 1 <==> seen.spf.Some? && TwoTexts(seen.spf.value, SpfKind())
  {
    if seen.spf.Some? {
      StartingKept(seen.spf.value);
      KeptSole(seen.spf.value, SpfKind(), plan.spf);
    }
  }

  lemma DmarcSeen(seen: Seen, plan: Plan)
    ensures DmarcStanding(seen, plan).Unknown? <==> seen.dmarc.None?
    ensures DmarcStanding(seen, plan).Held? <==> DmarcRight(seen, plan)
  {
    if seen.dmarc.Some? {
      TaggedKept(seen.dmarc.value);
      KeptSole(seen.dmarc.value, DmarcKind(), NormalizeTxt(plan.dmarc));
    }
  }

  lemma FinalDot(s: string, wanted: string)
    requires wanted == "" || wanted[|wanted| - 1] != '.'
    ensures Plans.WithoutFinalDot(s) == wanted <==> s == wanted || s == wanted + "."
  {
    if s != "" && s[|s| - 1] == '.' { assert s == s[..|s| - 1] + "."; }
  }

  /** A domain a plan can be for: no final dot. */
  ghost predicate Undotted(domain: string) {
    domain != "" && domain[|domain| - 1] != '.'
  }

  lemma NameMeans(p: Provided, wanted: string)
    requires Undotted(wanted)
    ensures Name(p) == Lower(wanted) <==> Names(p.name, wanted)
  {
    assert Lower(wanted)[|wanted| - 1] == LowerChar(wanted[|wanted| - 1]);
    FinalDot(Lower(p.name), Lower(wanted));
    assert Lower(wanted + ".") == Lower(wanted) + ".";
    FoldedAlike(p.name, wanted);
    FoldedAlike(p.name, wanted + ".");
  }

  lemma LowerJoin(a: string, b: string)
    ensures Lower(a + b) == Lower(a) + Lower(b)
  {}

  lemma EndFront(p: Provided, ending: string) returns (front: string)
    requires Undotted(ending) && EndsWith(Name(p), Lower(ending))
    ensures Names(p.name, front + ending)
  {
    front := Name(p)[..|Name(p)| - |ending|];
    assert Name(p) == front + Lower(ending);
    FrontFolded(p, front, ending);
    NameMeans(p, front + ending);
  }

  lemma FrontEnd(p: Provided, front: string, ending: string)
    requires Undotted(ending) && Names(p.name, front + ending)
    ensures EndsWith(Name(p), Lower(ending))
  {
    NameMeans(p, front + ending);
    LowerJoin(front, ending);
  }

  /** The name ends so exactly when it is some front with that ending. */
  lemma NameEnds(p: Provided, ending: string)
    requires Undotted(ending)
    ensures EndsWith(Name(p), Lower(ending)) <==> exists front: string :: Names(p.name, front + ending)
  {
    if EndsWith(Name(p), Lower(ending)) { var front := EndFront(p, ending); }
    if front: string :| Names(p.name, front + ending) { FrontEnd(p, front, ending); }
  }

  lemma NameFolded(p: Provided)
    ensures forall i | 0 <= i < |Name(p)| :: LowerChar(Name(p)[i]) == Name(p)[i]
  {
    forall i | 0 <= i < |Name(p)| ensures LowerChar(Name(p)[i]) == Name(p)[i] {
      assert Name(p)[i] == LowerChar(p.name[i]);
    }
  }

  lemma FrontFolded(p: Provided, front: string, ending: string)
    requires Name(p) == front + Lower(ending)
    ensures Lower(front + ending) == front + Lower(ending)
  {
    NameFolded(p);
    forall i | 0 <= i < |front| ensures LowerChar(front[i]) == front[i] { assert Name(p)[i] == front[i]; }
  }

  lemma KeyMeans(records: seq<Provided>, i: int, domain: string)
    requires 0 <= i < |records| && Undotted(domain)
    ensures IsDkim(records[i], domain) <==> IsKey(records, i, domain)
  {
    var r := records[i];
    StartsMeans(Trim(r.content), DKIM);
    NameEnds(r, "._domainkey." + domain);
    forall selector: string ensures selector + "._domainkey." + domain == selector + ("._domainkey." + domain) {}
  }

  lemma {:induction false} KeySelected(records: seq<Provided>, domain: string, n: nat) returns (i: int)
    requires n <= |records| && Undotted(domain)
    requires forall j | 0 <= j < n :: !IsKey(records, j, domain)
    ensures match SelectDkim(records[n..], domain)
            case None => forall j :: !IsKey(records, j, domain)
            case Some(key) => FirstKey(records, i, domain) && records[i].content == key
    decreases |records| - n
  {
    if n == |records| {
      i := 0;
    } else {
      KeyMeans(records, n, domain);
      assert records[n..][0] == records[n] && records[n..][1..] == records[n + 1..];
      if IsDkim(records[n], domain) { i := n; } else { i := KeySelected(records, domain, n + 1); }
    }
  }

  lemma FirstKeyOnce(records: seq<Provided>, domain: string, i: int, j: int)
    requires FirstKey(records, i, domain) && FirstKey(records, j, domain)
    ensures i == j
  {}

  lemma DkimSeen(seen: Seen, plan: Plan)
    requires seen.provider.Some? && Undotted(plan.domain)
    ensures DkimStanding(seen, plan).Unknown? <==> !KeyRead(seen, plan)
    ensures DkimStanding(seen, plan).Held? <==> KeyRight(seen, plan)
  {
    var records := seen.provider.value;
    assert records[0..] == records;
    var i := KeySelected(records, plan.domain, 0);
    var key := SelectDkim(records, plan.domain);
    if key.Some? && seen.dkim.Some? {
      if NormalizeTxt(key.value) in Forms(seen.dkim.value) {
        var k :| 0 <= k < |Forms(seen.dkim.value)| && Forms(seen.dkim.value)[k] == NormalizeTxt(key.value);
        assert KeyRight(seen, plan);
      }
      if KeyRight(seen, plan) {
        var j, k :| FirstKey(records, j, plan.domain) && 0 <= k < |seen.dkim.value|
                    && NormalizeTxt(seen.dkim.value[k]) == NormalizeTxt(records[j].content);
        FirstKeyOnce(records, plan.domain, i, j);
        assert Forms(seen.dkim.value)[k] == NormalizeTxt(key.value);
      }
    }
  }

  lemma BounceMeans(records: seq<Provided>, i: int, domain: string)
    requires 0 <= i < |records| && Undotted(domain)
    ensures IsBounce(records, i, domain) <==>
            records[i].ProvidedMx? && Name(records[i]) == Lower("cf-bounce." + domain)
  {
    NameMeans(records[i], "cf-bounce." + domain);
  }

  lemma {:induction false} MxSelected(records: seq<Provided>, domain: string, n: nat, w: MxWant)
    requires n <= |records| && Undotted(domain)
    ensures w in SelectMx(records[n..], domain) <==>
            exists i | n <= i < |records| :: WantedAt(records, i, domain, w)
    decreases |records| - n
  {
    if n < |records| {
      BounceMeans(records, n, domain);
      assert records[n..][0] == records[n] && records[n..][1..] == records[n + 1..];
      MxSelected(records, domain, n + 1, w);
      var rest := SelectMx(records[n + 1..], domain);
      assert w in SelectMx(records[n..], domain) <==> WantedAt(records, n, domain, w) || w in rest;
    }
  }

  ghost predicate WantedAt(records: seq<Provided>, i: int, domain: string, w: MxWant) {
    IsBounce(records, i, domain)
    && w == MxWant(records[i].content, match records[i].priority case Some(p) => p case None => 10)
  }

  lemma MxSeen(seen: Seen, plan: Plan)
    requires seen.provider.Some? && Undotted(plan.domain)
    ensures MxStanding(seen, plan).Unknown? <==> !MxRead(seen, plan)
    ensures MxStanding(seen, plan).Held? <==> MxRight(seen, plan)
  {
    var records, wants := seen.provider.value, SelectMx(seen.provider.value, plan.domain);
    assert records[0..] == records;
    forall w ensures w in wants <==> exists i | 0 <= i < |records| :: WantedAt(records, i, plan.domain, w) {
      MxSelected(records, plan.domain, 0, w);
    }
    if wants != [] {
      assert wants[0] in wants;
    }
    forall i | IsBounce(records, i, plan.domain)
      ensures MxWant(records[i].content, match records[i].priority case Some(p) => p case None => 10) in wants
    {
      assert WantedAt(records, i, plan.domain,
                      MxWant(records[i].content, match records[i].priority case Some(p) => p case None => 10));
    }
    if seen.mx.Some? { MxAnswered(seen, plan); }
  }

  lemma MxAnswered(seen: Seen, plan: Plan)
    requires seen.provider.Some? && seen.mx.Some? && Undotted(plan.domain)
    ensures AllAnswered(seen.mx.value, SelectMx(seen.provider.value, plan.domain)) <==>
            forall i | IsBounce(seen.provider.value, i, plan.domain) :: BounceAnswered(seen, i)
  {
    var records, wants := seen.provider.value, SelectMx(seen.provider.value, plan.domain);
    assert records[0..] == records;
    forall i, w | WantedAt(records, i, plan.domain, w)
      ensures Answered(seen.mx.value, w) <==> BounceAnswered(seen, i)
      ensures w in wants
    {
      MxSelected(records, plan.domain, 0, w);
    }
    if AllAnswered(seen.mx.value, wants) {
      forall i | IsBounce(records, i, plan.domain) ensures BounceAnswered(seen, i) {
        var w := MxWant(records[i].content, match records[i].priority case Some(p) => p case None => 10);
        assert WantedAt(records, i, plan.domain, w);
        var k :| 0 <= k < |wants| && wants[k] == w;
        assert Answered(seen.mx.value, wants[k]);
      }
    }
    if forall i | IsBounce(records, i, plan.domain) :: BounceAnswered(seen, i) {
      forall k | 0 <= k < |wants| ensures Answered(seen.mx.value, wants[k]) {
        MxSelected(records, plan.domain, 0, wants[k]);
        assert wants[k] in wants;
        var i :| 0 <= i < |records| && WantedAt(records, i, plan.domain, wants[k]);
      }
    }
  }

  /** Each fact the decision works from, as it was observed. */
  ghost predicate Seeing(f: Facts, seen: Seen, plan: Plan) {
    && f.enabled == seen.enabled && (f.published <==> seen.provider.Some?)
    && f.feedback == seen.feedback && f.token == seen.token
    && (f.spfs > 1 <==> seen.spf.Some? && TwoTexts(seen.spf.value, SpfKind()))
    && (f.spf.Unknown? <==> seen.spf.None?) && (f.spf.Held? <==> SpfRight(seen, plan))
    && (f.dmarc.Unknown? <==> seen.dmarc.None?) && (f.dmarc.Held? <==> DmarcRight(seen, plan))
    && (f.published ==> (f.dkim.Unknown? <==> !KeyRead(seen, plan)) && (f.dkim.Held? <==> KeyRight(seen, plan)))
    && (f.published ==> (f.mx.Unknown? <==> !MxRead(seen, plan)) && (f.mx.Held? <==> MxRight(seen, plan)))
  }

  lemma FactsSeen(seen: Seen, plan: Plan)
    requires Undotted(plan.domain)
    ensures Seeing(FactsOf(seen, plan), seen, plan)
  {
    SpfSeen(seen, plan);
    DmarcSeen(seen, plan);
    if seen.provider.Some? {
      DkimSeen(seen, plan);
      MxSeen(seen, plan);
    }
  }

  lemma VerdictsSeen(f: Facts, seen: Seen, plan: Plan)
    requires Seeing(f, seen, plan)
    ensures Whole(f) <==> SeenWhole(seen, plan)
    ensures forall g :: Lacks(f, g) <==> SeenLacking(seen, plan, g)
    ensures Unread(f) <==> SeenUnread(seen, plan)
  {}

  /** scripts/lib/onboard-core.ts: decideSendingTarget. */
  method DecideSendingTarget(seen: Seen, plan: Plan) returns (d: Decision)
    ensures d.Already? <==> Whole(FactsOf(seen, plan))
    ensures d.Blocked? <==> Stopped(FactsOf(seen, plan))
    ensures d.Todo? ==> d.gaps != [] && forall g :: g in d.gaps <==> Lacks(FactsOf(seen, plan), g)
    ensures Undotted(plan.domain) ==>
              && (d.Already? <==> SeenWhole(seen, plan)) && (d.Blocked? <==> SeenStopped(seen, plan))
              && (d.Todo? ==> forall g :: g in d.gaps <==> SeenLacking(seen, plan, g))
  {
    var f := FactsOf(seen, plan);
    d := Decide(f);
    if Undotted(plan.domain) {
      FactsSeen(seen, plan);
      VerdictsSeen(f, seen, plan);
    }
  }

  /** The DNS gaps, and whether a record could not be read. */
  method DnsGaps(f: Facts) returns (unknown: bool, dns: seq<Gap>)
    ensures unknown || f.enabled.None? <==> Unread(f)
    ensures !unknown ==> forall g :: g in dns <==> Lacks(f, g) && !g.NotEnabled? && !g.NoFeedback?
  {
    unknown, dns := false, [];
    if f.spf.Unknown? { unknown := true; }
    else if f.spf.Wanting? { dns := dns + [Spf]; }

    if !f.published {
      if (f.enabled.Some? && f.enabled.value) { unknown := true; } else { dns := dns + [Unpublished]; }
    } else {
      if f.dkim.Unknown? { unknown := true; }
      else if f.dkim.Wanting? { dns := dns + [Dkim]; }
      if f.mx.Unknown? { unknown := true; }
      else if f.mx.Wanting? { dns := dns + [Mx]; }
    }

    if f.dmarc.Unknown? { unknown := true; }
    else if f.dmarc.Wanting? { dns := dns + [Dmarc]; }
  }

  method Decide(f: Facts) returns (d: Decision)
    requires f.spf.Held? ==> f.spfs == 1
    ensures d.Already? <==> Whole(f)
    ensures d.Blocked? <==> Stopped(f)
    ensures d.Todo? ==> d.gaps != [] && forall g :: g in d.gaps <==> Lacks(f, g)
  {
    var missing: seq<Gap>, unknown := [], f.enabled.None?;
    if (f.enabled.Some? && !f.enabled.value) { missing := missing + [NotEnabled]; }
    if f.spfs > 1 { return Blocked; }
    var unread, dns := DnsGaps(f);
    if f.feedback.None? || f.feedback.value.WrongQueue? { return Blocked; }
    if !f.feedback.value.Live? { missing := missing + [NoFeedback]; }
    if unknown || unread { return Blocked; }
    var gaps := missing + dns;
    if gaps == [] {
      LacksNothing(f);
      return Already;
    }
    assert dns != [] ==> dns[0] in dns;
    if !f.token && (dns != [] || (f.enabled.Some? && !f.enabled.value)) {
      assert dns == [] ==> Lacks(f, NotEnabled);
      return Blocked;
    }
    assert gaps[0] in gaps;
    d := Todo(gaps);
  }

  lemma LacksNothing(f: Facts)
    requires !Unread(f) && f.feedback.Some? && forall g :: !Lacks(f, g)
    ensures Whole(f)
  {

    assert !Lacks(f, NotEnabled) && !Lacks(f, Unpublished) && !Lacks(f, Spf) && !Lacks(f, Dkim);
    assert !Lacks(f, Mx) && !Lacks(f, Dmarc) && !Lacks(f, NoFeedback);
  }

  // ---------------------------------------------------------------- the run

  /** The texts of a plan are what the upserts recognise as their own. */
  predicate Proper(plan: Plan) {
    Starts(Trim(plan.spf), SPF) && NormalizeTxt(plan.spf) == plan.spf && Starts(Trim(plan.dmarc), DMARC_TAG)
  }

  const DMARC_TAG := "v=dmarc1;"

  /** Each text upsert's name holds one record of its kind, saying what is wanted. */
  predicate Written(spf: seq<Txt>, dmarc: seq<Txt>, dkim: seq<Txt>, plan: Plan, key: Option<string>) {
    Settled(spf, SPF, plan.spf) && Settled(dmarc, DMARC, plan.dmarc) && (key.Some? ==> Settled(dkim, DKIM, key.value))
  }

  /** Every upsert of a run finds its records as it wants them. */
  predicate Untouched(spf: seq<Txt>, dmarc: seq<Txt>, dkim: seq<Txt>, mx: seq<MxRecord>, plan: Plan,
                      key: Option<string>, wants: seq<MxWant>)
  {
    Written(spf, dmarc, dkim, plan, key) && AllFirst(mx, wants)
  }

  /** As many API calls as the upserts can make. */
  function CallsNeeded(spf: seq<Txt>, dmarc: seq<Txt>, dkim: seq<Txt>, wants: seq<MxWant>): nat {
    6 + |Managed(spf, SPF)| + |Managed(dmarc, DMARC)| + |Managed(dkim, DKIM)| + 2 * |wants|
  }

  /** An upsert's name, however it ended: other records stay, and there are duplicates only if there were. */
  ghost predicate Spared(before: seq<Txt>, after: seq<Txt>, prefix: string) {
    && Others(after, Owning(prefix)) == Others(before, Owning(prefix))
    && (|Managed(after, prefix)| > 1 ==> |Managed(before, prefix)| > 1)
    && (Managed(before, prefix) != [] ==> Managed(after, prefix) != [])
  }

  /** One TXT upsert, its own API calls among the `calls` that go through. */
  method ApplyTxt(name: TxtName, prefix: string, desired: string, dedupe: bool, calls: nat)
    returns (end: Ending, changes: nat, left: nat)
    requires name.Valid() && Word(prefix) && Starts(Trim(desired), prefix)
    modifies name
    ensures name.Valid() && Spared(old(name.records), name.records, prefix)
    ensures left <= calls <= left + |Managed(old(name.records), prefix)| + 2
    ensures end.Failed? ==> calls < |Managed(old(name.records), prefix)| + 2
    ensures !end.Failed? ==> (end.Refused? <==> |Managed(old(name.records), prefix)| > 1 && !dedupe)
    ensures changes == 0 ==> name.records == old(name.records)
    ensures end.Done? ==> Settled(name.records, prefix, desired)
    ensures end.Done? ==> (changes == 0 <==> Settled(old(name.records), prefix, desired))
  {
    end, changes, left := name.Upsert(prefix, desired, dedupe, calls);
  }

  /** The texts the run writes itself: SPF, which it refuses to choose among, and DMARC, which it collapses. */
  method ApplyOwn(spf: TxtName, dmarc: TxtName, plan: Plan, calls: nat)
    returns (end: Ending, changes: nat, left: nat)
    requires spf != dmarc && spf.Valid() && dmarc.Valid() && Proper(plan)
    modifies spf, dmarc
    ensures spf.Valid() && dmarc.Valid()
    ensures Spared(old(spf.records), spf.records, SPF) && Spared(old(dmarc.records), dmarc.records, DMARC)
    ensures left <= calls <= left + |Managed(old(spf.records), SPF)| + |Managed(old(dmarc.records), DMARC)| + 4
    ensures end.Failed? ==> calls < |Managed(old(spf.records), SPF)| + |Managed(old(dmarc.records), DMARC)| + 4
    ensures !end.Failed? ==> (end.Refused? <==> |Managed(old(spf.records), SPF)| > 1)
    ensures changes == 0 ==> spf.records == old(spf.records) && dmarc.records == old(dmarc.records)
    ensures end.Done? ==> Settled(spf.records, SPF, plan.spf) && Settled(dmarc.records, DMARC, plan.dmarc)
    ensures end.Done? ==> (changes == 0 <==> (Settled(old(spf.records), SPF, plan.spf)
                                              && Settled(old(dmarc.records), DMARC, plan.dmarc)))
  {
    Words();
    TagStarts(Trim(plan.dmarc));
    end, changes, left := ApplyTxt(spf, SPF, plan.spf, false, calls);
    if !end.Done? { return; }
    var more;
    end, more, left := ApplyTxt(dmarc, DMARC, plan.dmarc, true, left);
    changes := changes + more;
  }

  /** The records the provider asks for: its DKIM key, if it shows one, and its MX. */
  method ApplyProvided(dkim: TxtName, mx: MxName, key: Option<string>, wants: seq<MxWant>, calls: nat)
    returns (end: Ending, changes: nat)
    requires dkim.Valid() && mx.Valid() && (key.Some? ==> Starts(Trim(key.value), DKIM))
    modifies dkim, mx
    ensures dkim.Valid() && mx.Valid()
    ensures Spared(old(dkim.records), dkim.records, DKIM) && Spares(old(mx.records), mx.records, wants)
    ensures key.None? ==> dkim.records == old(dkim.records)
    ensures end.Failed? ==> calls < |Managed(old(dkim.records), DKIM)| + 2 + 2 * |wants|
    ensures !end.Failed? ==> (end.Refused? <==> key.Some? && |Managed(old(dkim.records), DKIM)| > 1)
    ensures changes == 0 ==> dkim.records == old(dkim.records) && mx.records == old(mx.records)
    ensures end.Done? ==> (key.Some? ==> Settled(dkim.records, DKIM, key.value))
                          && Swept(old(mx.records), mx.records, wants)
    ensures end.Done? ==> (changes == 0 <==> ((key.Some? ==> Settled(old(dkim.records), DKIM, key.value))
                                              && AllFirst(old(mx.records), wants)))
  {
    Words();
    end, changes := Done, 0;
    var left := calls;
    if key.Some? {
      end, changes, left := ApplyTxt(dkim, DKIM, key.value, false, left);
      if !end.Done? { return; }
    }
    var more;
    end, more, left := mx.UpsertAll(wants, left);
    changes := changes + more;
  }

  /**
   * The upserts of one run, in their order: SPF, DMARC, DKIM, MX, of which the first `calls` API calls go
   * through. A refusal or a failed call ends the run.
   */
  method ApplyDns(spf: TxtName, dmarc: TxtName, dkim: TxtName, mx: MxName, plan: Plan,
                  key: Option<string>, wants: seq<MxWant>, calls: nat)
    returns (end: Ending, changes: nat)
    requires spf != dmarc && spf != dkim && dmarc != dkim
    requires spf.Valid() && dmarc.Valid() && dkim.Valid() && mx.Valid()
    requires Proper(plan) && (key.Some? ==> Starts(Trim(key.value), DKIM))
    modifies spf, dmarc, dkim, mx
    ensures spf.Valid() && dmarc.Valid() && dkim.Valid() && mx.Valid()
    ensures end.Failed? ==> calls < CallsNeeded(old(spf.records), old(dmarc.records), old(dkim.records), wants)
    ensures !end.Failed? ==> (end.Refused? <==> (|Managed(old(spf.records), SPF)| > 1
                                                 || (key.Some? && |Managed(old(dkim.records), DKIM)| > 1)))
    ensures changes == 0 ==> spf.records == old(spf.records) && dmarc.records == old(dmarc.records)
                             && dkim.records == old(dkim.records) && mx.records == old(mx.records)
    ensures Spared(old(spf.records), spf.records, SPF) && Spared(old(dmarc.records), dmarc.records, DMARC)
    ensures Spared(old(dkim.records), dkim.records, DKIM) && Spares(old(mx.records), mx.records, wants)
    ensures key.None? ==> dkim.records == old(dkim.records)
    ensures end.Done? ==> (changes == 0 <==> Untouched(old(spf.records), old(dmarc.records), old(dkim.records),
                                                       old(mx.records), plan, key, wants))
    ensures end.Done? ==> Written(spf.records, dmarc.records, dkim.records, plan, key)
                          && Swept(old(mx.records), mx.records, wants)
    ensures end.Done? ==> (Untouched(spf.records, dmarc.records, dkim.records, mx.records, plan, key, wants)
                      <==> Consistent(wants))
  {
    var left, more: nat;
    end, changes, left := ApplyOwn(spf, dmarc, plan, calls);
    if !end.Done? { return; }
    end, more := ApplyProvided(dkim, mx, key, wants, left);
    changes := changes + more;
    if end.Done? { SweptFirstIff(old(mx.records), mx.records, wants); }
  }

  /** The names Email Sending is enabled on. */
  class Sender {
    var names: set<string>

    constructor (names: set<string>)
      ensures this.names == names
    {
      this.names := names;
    }

    /** `wrangler email sending enable`: already enabled is no failure. */
    method Enable(name: string, fails: bool) returns (ok: bool)
      modifies this
      ensures ok == !fails && names == if ok then old(names) + {name} else old(names)
    {
      ok := !fails;
      if ok { names := names + {name}; }
    }
  }

  /** What the run has at hand and what befalls it. */
  datatype Run = Run(
    token: bool, zoneId: Option<string>, enableFails: bool, calls: nat, weather: Feedback.Weather)

  /** The zone id the run works with: looked up with the token, and then the first of its calls. */
  function ZoneOf(run: Run): Option<string> {
    if run.token then run.zoneId else None
  }

  predicate ZoneFound(run: Run) {
    run.token ==> run.calls > 0 && run.zoneId.Some?
  }

  /** Nothing fails. */
  predicate FairRun(run: Run, needed: nat) {
    !run.enableFails && ZoneFound(run) && run.calls > needed && run.weather == Feedback.Fair
  }

  /** The DNS part of a run: look the zone up, then the upserts; without a token, nothing. */
  method WriteDns(spf: TxtName, dmarc: TxtName, dkim: TxtName, mx: MxName, plan: Plan,
                  provider: Option<seq<Provided>>, run: Run)
    returns (end: Ending, changes: nat)
    requires spf != dmarc && spf != dkim && dmarc != dkim
    requires spf.Valid() && dmarc.Valid() && dkim.Valid() && mx.Valid() && Proper(plan)
    modifies spf, dmarc, dkim, mx
    ensures spf.Valid() && dmarc.Valid() && dkim.Valid() && mx.Valid()
    ensures !ZoneFound(run) ==> end.Failed? && changes == 0
    ensures !run.token ==> changes == 0 && end.Done?
    ensures changes == 0 ==> spf.records == old(spf.records) && dmarc.records == old(dmarc.records)
                             && dkim.records == old(dkim.records) && mx.records == old(mx.records)
    ensures Spared(old(spf.records), spf.records, SPF) && Spared(old(dmarc.records), dmarc.records, DMARC)
    ensures Spared(old(dkim.records), dkim.records, DKIM)
    ensures Spares(old(mx.records), mx.records, WantsOf(provider, plan))
    ensures run.token && end.Done? ==> Written(spf.records, dmarc.records, dkim.records, plan, KeyOf(provider, plan))
                                       && Swept(old(mx.records), mx.records, WantsOf(provider, plan))
    ensures run.token && end.Done? ==>
              (Untouched(spf.records, dmarc.records, dkim.records, mx.records, plan, KeyOf(provider, plan),
                         WantsOf(provider, plan))
               <==> Consistent(WantsOf(provider, plan)))
    ensures run.token && end.Done? && changes > 0 ==>
              !Untouched(old(spf.records), old(dmarc.records), old(dkim.records), old(mx.records), plan,
                         KeyOf(provider, plan), WantsOf(provider, plan))
    ensures ZoneFound(run) && run.calls > CallsNeeded(old(spf.records), old(dmarc.records), old(dkim.records),
                                                      WantsOf(provider, plan))
            ==> (end.Refused? <==> (run.token && (|Managed(old(spf.records), SPF)| > 1
                   || (KeyOf(provider, plan).Some? && |Managed(old(dkim.records), DKIM)| > 1))))
                && (end.Done? <==> !end.Refused?)
  {
    if !run.token { return Done, 0; }
    if run.calls == 0 || run.zoneId.None? { return Failed, 0; }
    KeyStarts(provider, plan);
    end, changes := ApplyDns(spf, dmarc, dkim, mx, plan, KeyOf(provider, plan), WantsOf(provider, plan),
                             run.calls - 1);
  }

  /** scripts/setup-sending.ts --apply on one name: enable it, write its DNS, see to its events. */
  method SetupSending(sender: Sender, spf: TxtName, dmarc: TxtName, dkim: TxtName, mx: MxName,
                      account: Feedback.Account, plan: Plan, provider: Option<seq<Provided>>, zone: string,
                      queue: string, run: Run, minted: string)
    returns (end: Ending, changes: nat, feedback: Feedback.Outcome, made: Option<Feedback.Mutation>)
    requires spf != dmarc && spf != dkim && dmarc != dkim
    requires spf.Valid() && dmarc.Valid() && dkim.Valid() && mx.Valid() && Proper(plan)
    requires Feedback.IdsOnce(account.subs) && Trimmed(plan.domain)
    requires forall i | 0 <= i < |account.subs| :: account.subs[i].id != minted
    modifies sender, spf, dmarc, dkim, mx, account
    ensures spf.Valid() && dmarc.Valid() && dkim.Valid() && mx.Valid() && Feedback.IdsOnce(account.subs)
    ensures sender.names == if run.enableFails then old(sender.names) else old(sender.names) + {plan.domain}
    ensures run.enableFails || !ZoneFound(run) ==> end.Failed? && changes == 0
    ensures !run.token ==> changes == 0 && (end.Done? <==> !run.enableFails)
    ensures changes == 0 ==> spf.records == old(spf.records) && dmarc.records == old(dmarc.records)
                             && dkim.records == old(dkim.records) && mx.records == old(mx.records)
    ensures Spared(old(spf.records), spf.records, SPF) && Spared(old(dmarc.records), dmarc.records, DMARC)
    ensures Spared(old(dkim.records), dkim.records, DKIM)
    ensures Spares(old(mx.records), mx.records, WantsOf(provider, plan))
    ensures run.token && end.Done? ==> Written(spf.records, dmarc.records, dkim.records, plan, KeyOf(provider, plan))
                                       && Swept(old(mx.records), mx.records, WantsOf(provider, plan))
    ensures run.token && end.Done? ==>
              (Untouched(spf.records, dmarc.records, dkim.records, mx.records, plan, KeyOf(provider, plan),
                         WantsOf(provider, plan))
               <==> Consistent(WantsOf(provider, plan)))
    ensures run.token && end.Done? && changes > 0 ==>
              !Untouched(old(spf.records), old(dmarc.records), old(dkim.records), old(mx.records), plan,
                         KeyOf(provider, plan), WantsOf(provider, plan))
    ensures FairRun(run, CallsNeeded(old(spf.records), old(dmarc.records), old(dkim.records), WantsOf(provider, plan)))
            ==> (end.Refused? <==> (run.token && (|Managed(old(spf.records), SPF)| > 1
                   || (KeyOf(provider, plan).Some? && |Managed(old(dkim.records), DKIM)| > 1))))
                && (end.Done? <==> !end.Refused?)
    ensures !end.Done? || Feedback.Evaluate(old(account.subs), plan.domain, queue).Live? ==> made.None?
    ensures made.None? ==> account.subs == old(account.subs)
    ensures made.Some? ==> Feedback.Only(old(account.subs), made.value, account.subs)
    ensures feedback.Verified? ==> Feedback.Evaluate(account.subs, plan.domain, queue).Live?
    ensures end.Done? && run.weather == Feedback.Fair ==>
              (feedback.Verified? <==>
                 Feedback.Mendable(old(account.subs), plan.domain, zone, ZoneOf(run), queue))
    ensures end.Done? && run.weather == Feedback.Fair ==>
              (feedback.Verified? <==> Feedback.Evaluate(account.subs, plan.domain, queue).Live?)
  {
    end, changes, feedback, made := Failed, 0, Feedback.Unresolved, None;
    var enabled := sender.Enable(plan.domain, run.enableFails);
    if !enabled { return; }
    end, changes := WriteDns(spf, dmarc, dkim, mx, plan, provider, run);
    if !end.Done? { return; }
    feedback, made := account.Ensure(plan.domain, zone, ZoneOf(run), queue, true, false, run.weather, minted);
    end := Done;
  }

  function KeyOf(provider: Option<seq<Provided>>, plan: Plan): Option<string> {
    if provider.Some? then SelectDkim(provider.value, plan.domain) else None
  }

  function WantsOf(provider: Option<seq<Provided>>, plan: Plan): seq<MxWant> {
    if provider.Some? then SelectMx(provider.value, plan.domain) else []
  }

  lemma KeyStarts(provider: Option<seq<Provided>>, plan: Plan)
    ensures KeyOf(provider, plan).Some? ==> Starts(Trim(KeyOf(provider, plan).value), DKIM)
  {}

  lemma Words()
    ensures Word(SPF) && Word(DKIM) && Word(DMARC) && Word(DMARC_TAG)
  {}

  lemma TagStarts(s: string)
    requires Starts(s, DMARC_TAG)
    ensures Starts(s, DMARC) && DmarcTagged(s)
  {
    assert DMARC_TAG == DMARC + ";";
    assert forall i | 0 <= i < 8 :: DMARC_TAG[i] == DMARC[i];
    assert LowerChar(s[8]) == DMARC_TAG[8];
    PrefixTagged(s);
  }

  lemma SpfBare()
    ensures Bare(SPF_VALUE)
  {}

  lemma SpfWord()
    ensures Starts(SPF_VALUE, SPF)
  {}

  lemma SpfTrimmed()
    ensures Trimmed(SPF_VALUE)
  {}

  lemma DmarcStarts(plan: Plans.DmarcPlan)
    ensures Starts(Dmarc.DmarcValue(plan), DMARC_TAG)
  {
    Dmarc.ValueStarts(plan);
    assert DMARC + ";" == DMARC_TAG;
  }

  /** The plans of the program are proper. */
  lemma PlansAreProper(target: Plans.Target, dmarc: Plans.DmarcPlan)
    ensures Proper(PlanFor(target, dmarc))
    ensures Plans.ZoneShaped(target.zone) ==> Undotted(PlanFor(target, dmarc).domain)
  {
    Words();
    SpfBare();
    SpfWord();
    SpfTrimmed();
    SpfSettles(SPF_VALUE);
    DmarcStarts(dmarc);
    TrimKeeps(Dmarc.DmarcValue(dmarc), DMARC_TAG);
  }

  lemma SpfSettles(s: string)
    requires Starts(s, SPF) && Bare(s) && Trimmed(s)
    ensures Starts(Trim(s), SPF) && NormalizeTxt(s) == s
  {
    TrimSettles(s);
    NormalizeBare(s);
  }
}
