/**
 * Any history of control-plane requests on a database just migrated: what the routes of src/api/hono.ts
 * leave, one after another, and what a recipient is then routed by.
 */
module Requests {
  import opened Common
  import opened ControlPlane
  import opened Routing
  import opened Text

  /** The requests that change a table; `minted` is the id the server draws for a new row. */
  datatype ApiRequest =
    | PostDomain(minted: string, name: string, zone: string)
    | EditDomain(domain: string, status: DomainStatus)
    | PostMailbox(minted: string, address: string, displayName: Option<string>, owner: string)
    | EditMailbox(mailbox: string, rename: Option<Option<string>>, activate: Option<bool>)
    | DropMailbox(mailbox: string)
    | PostAlias(address: string, mailbox: string)
    | EditAlias(address: string, active: bool)
    | DropAlias(address: string)
    | PostRule(minted: string, body: RuleBody)
    | EditRule(rule: string, patch: RulePatch)
    | DropRule(rule: string)

  predicate Mints(a: ApiRequest) {
    a.PostDomain? || a.PostMailbox? || a.PostRule?
  }

  /** The ids drawn are random: none is empty and none is drawn twice. */
  ghost predicate DistinctMints(requests: seq<ApiRequest>) {
    && (forall i | 0 <= i < |requests| && Mints(requests[i]) :: requests[i].minted != "")
    && (forall i, j | 0 <= i < j < |requests| && Mints(requests[i]) && Mints(requests[j]) ::
          requests[i].minted != requests[j].minted)
  }

  // ---------------------------------------------------------------- where every row comes from

  predicate Registers(a: ApiRequest, id: string, row: DomainRow) {
    a.PostDomain? && a.minted == id && row.name == Canonical(a.name) && row.zone == a.zone
  }

  predicate Opens(a: ApiRequest, id: string, row: MailboxRow) {
    a.PostMailbox? && a.minted == id && row.address == Canonical(a.address) && row.owner == Some(Canonical(a.owner))
  }

  /** An alias is asked for, or comes with the mailbox of its address. */
  predicate Names(a: ApiRequest, alias: string) {
    (a.PostAlias? || a.PostMailbox?) && alias == Canonical(a.address)
  }

  predicate Adds(a: ApiRequest, rule: string) {
    a.PostRule? && a.minted == rule
  }

  ghost predicate DomainsMade(domains: map<string, DomainRow>, requests: seq<ApiRequest>) {
    forall d | d in domains :: exists i | 0 <= i < |requests| :: Registers(requests[i], d, domains[d])
  }

  ghost predicate MailboxesMade(mailboxes: map<string, MailboxRow>, requests: seq<ApiRequest>) {
    forall m | m in mailboxes :: exists i | 0 <= i < |requests| :: Opens(requests[i], m, mailboxes[m])
  }

  ghost predicate AliasesMade(aliases: map<string, AliasRow>, requests: seq<ApiRequest>) {
    forall a | a in aliases :: exists i | 0 <= i < |requests| :: Names(requests[i], a)
  }

  ghost predicate RulesMade(rules: seq<RuleRow>, requests: seq<ApiRequest>) {
    forall r | r in rules :: exists i | 0 <= i < |requests| :: Adds(requests[i], r.id)
  }

  /** Every row was made by a request for it. */
  ghost predicate Made(db: Db, requests: seq<ApiRequest>) {
    && DomainsMade(db.domains, requests) && MailboxesMade(db.mailboxes, requests)
    && AliasesMade(db.aliases, requests) && RulesMade(db.rules, requests)
  }

  // ---------------------------------------------------------------- what one request changes

  ghost predicate DomainsFrom(before: map<string, DomainRow>, after: map<string, DomainRow>, a: ApiRequest) {
    forall d | d in after :: Registers(a, d, after[d])
      || (d in before && before[d].name == after[d].name && before[d].zone == after[d].zone)
  }

  ghost predicate MailboxesFrom(before: map<string, MailboxRow>, after: map<string, MailboxRow>, a: ApiRequest) {
    forall m | m in after :: Opens(a, m, after[m])
      || (m in before && before[m].address == after[m].address && before[m].owner == after[m].owner)
  }

  ghost predicate AliasesFrom(before: map<string, AliasRow>, after: map<string, AliasRow>, a: ApiRequest) {
    forall x | x in after :: x in before || Names(a, x)
  }

  ghost predicate RulesFrom(before: seq<RuleRow>, after: seq<RuleRow>, a: ApiRequest) {
    forall r | r in after :: Adds(a, r.id) || exists q | q in before :: q.id == r.id
  }

  /** Whatever is new in the tables is what the request asks for. */
  ghost predicate Effect(before: Db, after: Db, a: ApiRequest) {
    && DomainsFrom(before.domains, after.domains, a) && MailboxesFrom(before.mailboxes, after.mailboxes, a)
    && AliasesFrom(before.aliases, after.aliases, a) && RulesFrom(before.rules, after.rules, a)
  }

  lemma DomainsOn(before: map<string, DomainRow>, after: map<string, DomainRow>, requests: seq<ApiRequest>,
                  a: ApiRequest)
    requires DomainsMade(before, requests) && DomainsFrom(before, after, a)
    ensures DomainsMade(after, requests + [a])
  {
    var all := requests + [a];
    assert all[|requests|] == a;
    forall d | d in after ensures exists i | 0 <= i < |all| :: Registers(all[i], d, after[d]) {
      if !Registers(a, d, after[d]) {
        var i :| 0 <= i < |requests| && Registers(requests[i], d, before[d]);
        assert all[i] == requests[i];
      }
    }
  }

  lemma MailboxesOn(before: map<string, MailboxRow>, after: map<string, MailboxRow>, requests: seq<ApiRequest>,
                    a: ApiRequest)
    requires MailboxesMade(before, requests) && MailboxesFrom(before, after, a)
    ensures MailboxesMade(after, requests + [a])
  {
    var all := requests + [a];
    assert all[|requests|] == a;
    forall m | m in after ensures exists i | 0 <= i < |all| :: Opens(all[i], m, after[m]) {
      if !Opens(a, m, after[m]) {
        var i :| 0 <= i < |requests| && Opens(requests[i], m, before[m]);
        assert all[i] == requests[i];
      }
    }
  }

  lemma AliasesOn(before: map<string, AliasRow>, after: map<string, AliasRow>, requests: seq<ApiRequest>,
                  a: ApiRequest)
    requires AliasesMade(before, requests) && AliasesFrom(before, after, a)
    ensures AliasesMade(after, requests + [a])
  {
    var all := requests + [a];
    assert all[|requests|] == a;
    forall x | x in after ensures exists i | 0 <= i < |all| :: Names(all[i], x) {
      if !Names(a, x) {
        var i :| 0 <= i < |requests| && Names(requests[i], x);
        assert all[i] == requests[i];
      }
    }
  }

  lemma RulesOn(before: seq<RuleRow>, after: seq<RuleRow>, requests: seq<ApiRequest>, a: ApiRequest)
    requires RulesMade(before, requests) && RulesFrom(before, after, a)
    ensures RulesMade(after, requests + [a])
  {
    var all := requests + [a];
    assert all[|requests|] == a;
    forall r | r in after ensures exists i | 0 <= i < |all| :: Adds(all[i], r.id) {
      if !Adds(a, r.id) {
        var q :| q in before && q.id == r.id;
        var i :| 0 <= i < |requests| && Adds(requests[i], q.id);
        assert all[i] == requests[i];
      }
    }
  }

  lemma MadeOn(before: Db, after: Db, requests: seq<ApiRequest>, a: ApiRequest)
    requires Made(before, requests) && Effect(before, after, a)
    ensures Made(after, requests + [a])
  {
    DomainsOn(before.domains, after.domains, requests, a);
    MailboxesOn(before.mailboxes, after.mailboxes, requests, a);
    AliasesOn(before.aliases, after.aliases, requests, a);
    RulesOn(before.rules, after.rules, requests, a);
  }

  /** The id drawn for the request is not in use. */
  ghost predicate Unused(db: Db, a: ApiRequest) {
    Mints(a) ==>
      && a.minted != "" && a.minted !in db.domains && a.minted !in db.mailboxes
      && forall r | r in db.rules :: r.id != a.minted
  }

  lemma MintedUnused(db: Db, requests: seq<ApiRequest>, a: ApiRequest)
    requires Made(db, requests) && DistinctMints(requests + [a])
    ensures Unused(db, a)
  {
    var all := requests + [a];
    assert all[|requests|] == a;
    forall i | 0 <= i < |requests| && Mints(requests[i]) && Mints(a) ensures requests[i].minted != a.minted {
      assert all[i] == requests[i];
    }
    forall r | r in db.rules && Mints(a) ensures r.id != a.minted {
      var i :| 0 <= i < |requests| && Adds(requests[i], r.id);
    }
  }

  // ---------------------------------------------------------------- what one request does

  ghost predicate Registered(domains: map<string, DomainRow>, name: string) {
    exists d :: d in domains && domains[d].name == name
  }

  ghost predicate Held(mailboxes: map<string, MailboxRow>, address: string) {
    exists m :: m in mailboxes && mailboxes[m].address == address
  }

  ghost predicate DomainPosted(before: map<string, DomainRow>, after: map<string, DomainRow>, minted: string,
                               name: string, zone: string)
  {
    after == if Registered(before, Canonical(name)) then before
             else before[minted := DomainRow(Canonical(name), zone, DomainActive)]
  }

  /** The domain of that name, or else of that id. */
  ghost predicate DomainEdited(before: map<string, DomainRow>, after: map<string, DomainRow>, param: string,
                               status: DomainStatus)
  {
    if Registered(before, Canonical(param)) then
      exists d :: d in before && before[d].name == Canonical(param)
        && after == before[d := DomainRow(before[d].name, before[d].zone, status)]
    else
      var d := Trim(param);
      after == if d in before then before[d := DomainRow(before[d].name, before[d].zone, status)] else before
  }

  /** One mailbox for each address, and its alias as far as the domain allows. */
  ghost predicate MailboxPosted(before: Db, after: Db, minted: string, address: string, name: Option<string>,
                                owner: string)
  {
    var canonical := Canonical(address);
    if name.Some? && Trim(name.value) == "" then after == before
    else
      && after.domains == before.domains && after.rules == before.rules
      && (if Held(before.mailboxes, canonical) then after.mailboxes == before.mailboxes
          else minted in after.mailboxes && NameKept(after.mailboxes[minted].displayName, name)
               && after.mailboxes == before.mailboxes[
                    minted := MailboxRow(canonical, after.mailboxes[minted].displayName, true,
                                         Some(Canonical(owner)))])
      && exists id, state :: AliasLeft(before, after, id, canonical, state)
  }

  /** The mailbox of the address, and the state its alias was left in. */
  ghost predicate AliasLeft(before: Db, after: Db, id: string, address: string, state: AliasState) {
    && id in after.mailboxes && after.mailboxes[id].address == address
    && AliasReport(before.domains, before.aliases, id, address, state)
    && AliasEnsured(after, before.aliases, id, address, state)
  }

  ghost predicate MailboxEdited(before: map<string, MailboxRow>, after: map<string, MailboxRow>, id: string,
                                rename: Option<Option<string>>, activate: Option<bool>)
  {
    if id !in before || (rename.None? && activate.None?) || (rename.Some? && Nameless(rename.value)) then
      after == before
    else
      && id in after && after == before[id := after[id]]
      && after[id].address == before[id].address && after[id].owner == before[id].owner
      && (match rename
          case Some(name) => NameKept(after[id].displayName, name)
          case None => after[id].displayName == before[id].displayName)
      && after[id].active == match activate case Some(x) => x case None => before[id].active
  }

  ghost predicate MailboxDropped(before: map<string, MailboxRow>, after: map<string, MailboxRow>, id: string) {
    after == if id in before then before[id := before[id].(active := false)] else before
  }

  ghost predicate AliasPosted(before: Db, after: map<string, AliasRow>, address: string, mailbox: string) {
    var a := Canonical(address);
    if mailbox in before.mailboxes && a !in before.aliases && DomainPart(a).Some?
       && Registered(before.domains, DomainPart(a).value) then
      exists d :: d in before.domains && before.domains[d].name == DomainPart(a).value
        && after == before.aliases[a := AliasRow(mailbox, d, true)]
    else after == before.aliases
  }

  ghost predicate AliasEdited(before: map<string, AliasRow>, after: map<string, AliasRow>, address: string,
                              active: bool)
  {
    var a := Canonical(address);
    after == if a in before then before[a := AliasRow(before[a].mailbox, before[a].domain, active)] else before
  }

  ghost predicate RulePosted(before: Db, after: seq<RuleRow>, minted: string, b: RuleBody) {
    exists r :: RuleIs(r, minted, b)
      && after == before.rules
                  + if b.domain in before.domains && RuleAccepted(before.mailboxes, r)
                       && (b.mailbox.Some? ==> b.mailbox.value in before.mailboxes) then [r] else []
  }

  ghost predicate RuleEdited(before: Db, after: seq<RuleRow>, id: string, p: RulePatch) {
    if forall i | 0 <= i < |before.rules| :: before.rules[i].id != id then after == before.rules
    else
      exists i, r :: 0 <= i < |before.rules| && before.rules[i].id == id && RuleChanged(r, before.rules[i], p)
        && after == if Patches(before.mailboxes, p, r) then before.rules[i := r] else before.rules
  }

  /** The patch says something, and leaves a rule that is accepted. */
  ghost predicate Patches(mailboxes: map<string, MailboxRow>, p: RulePatch, r: RuleRow) {
    && p != RulePatch(None, None, None, None, None, None, None) && p.mailbox != Some(Some(""))
    && (p.mailbox.Some? && p.mailbox.value.Some? ==> p.mailbox.value.value in mailboxes)
    && RuleAccepted(mailboxes, r)
  }

  ghost predicate RuleDropped(before: seq<RuleRow>, after: seq<RuleRow>, id: string) {
    if forall i | 0 <= i < |before| :: before[i].id != id then after == before
    else exists i :: 0 <= i < |before| && before[i].id == id && after == before[..i] + before[i + 1..]
  }

  /** The tables after the request, all of them. */
  ghost predicate Answered(before: Db, after: Db, a: ApiRequest) {
    match a
    case PostDomain(minted, name, zone) =>
      DomainPosted(before.domains, after.domains, minted, name, zone) && after == before.(domains := after.domains)
    case EditDomain(domain, status) =>
      DomainEdited(before.domains, after.domains, domain, status) && after == before.(domains := after.domains)
    case PostMailbox(minted, address, name, owner) => MailboxPosted(before, after, minted, address, name, owner)
    case EditMailbox(id, rename, activate) =>
      MailboxEdited(before.mailboxes, after.mailboxes, id, rename, activate)
      && after == before.(mailboxes := after.mailboxes)
    case DropMailbox(id) =>
      MailboxDropped(before.mailboxes, after.mailboxes, id) && after == before.(mailboxes := after.mailboxes)
    case PostAlias(address, mailbox) =>
      AliasPosted(before, after.aliases, address, mailbox) && after == before.(aliases := after.aliases)
    case EditAlias(address, active) =>
      AliasEdited(before.aliases, after.aliases, address, active) && after == before.(aliases := after.aliases)
    case DropAlias(address) => after == before.(aliases := before.aliases - {Canonical(address)})
    case PostRule(minted, b) => RulePosted(before, after.rules, minted, b) && after == before.(rules := after.rules)
    case EditRule(id, p) => RuleEdited(before, after.rules, id, p) && after == before.(rules := after.rules)
    case DropRule(id) => RuleDropped(before.rules, after.rules, id) && after == before.(rules := after.rules)
  }

  /** The tables after each request in turn. */
  ghost predicate History(requests: seq<ApiRequest>, tables: seq<Db>) {
    |tables| == |requests| + 1 && tables[0] == NoTables
    && forall i | 0 <= i < |requests| :: Answered(tables[i], tables[i + 1], requests[i])
  }

  // ---------------------------------------------------------------- one request

  method AnswerDomain(dir: Directory, a: ApiRequest)
    requires (a.PostDomain? || a.EditDomain?) && Legal(dir.Tables()) && Unused(dir.Tables(), a)
    modifies dir`domains
    ensures Legal(dir.Tables()) && Effect(old(dir.Tables()), dir.Tables(), a)
    ensures Answered(old(dir.Tables()), dir.Tables(), a)
  {
    ghost var before := dir.Tables();
    if a.PostDomain? {
      var id, created := dir.CreateDomain(a.name, a.zone, a.minted);
    } else {
      var r := dir.SetDomainStatus(a.domain, a.status);
    }
    LegalKept(before, dir.Tables());
  }

  method OpenMailbox(dir: Directory, a: ApiRequest)
    requires a.PostMailbox? && Legal(dir.Tables()) && Unused(dir.Tables(), a)
    modifies dir`mailboxes, dir`aliases
    ensures Legal(dir.Tables()) && Effect(old(dir.Tables()), dir.Tables(), a)
    ensures Answered(old(dir.Tables()), dir.Tables(), a)
  {
    ghost var before := dir.Tables();
    var r := dir.CreateMailbox(a.address, a.displayName, a.owner, a.minted);
    LegalKept(before, dir.Tables());
    assert MailboxesFrom(before.mailboxes, dir.mailboxes, a) && AliasesFrom(before.aliases, dir.aliases, a);
    if r.Ok? { assert AliasLeft(before, dir.Tables(), r.value.0, Canonical(a.address), r.value.2); }
  }

  method ChangeMailbox(dir: Directory, a: ApiRequest)
    requires (a.EditMailbox? || a.DropMailbox?) && Legal(dir.Tables())
    modifies dir`mailboxes
    ensures Legal(dir.Tables()) && Effect(old(dir.Tables()), dir.Tables(), a)
    ensures Answered(old(dir.Tables()), dir.Tables(), a)
  {
    ghost var before := dir.Tables();
    if a.EditMailbox? {
      var r := dir.PatchMailbox(a.mailbox, a.rename, a.activate);
    } else {
      var r := dir.DeleteMailbox(a.mailbox);
    }
    LegalKept(before, dir.Tables());
  }

  method AnswerAlias(dir: Directory, a: ApiRequest)
    requires (a.PostAlias? || a.EditAlias? || a.DropAlias?) && Legal(dir.Tables())
    modifies dir`aliases
    ensures Legal(dir.Tables()) && Effect(old(dir.Tables()), dir.Tables(), a)
    ensures Answered(old(dir.Tables()), dir.Tables(), a)
  {
    ghost var before := dir.Tables();
    if a.PostAlias? {
      var r := dir.CreateAlias(a.address, a.mailbox);
    } else if a.EditAlias? {
      var r := dir.SetAliasStatus(a.address, a.active);
    } else {
      var r := dir.DeleteAlias(a.address);
    }
    LegalKept(before, dir.Tables());
  }

  method AddRule(dir: Directory, a: ApiRequest)
    requires a.PostRule? && Legal(dir.Tables()) && Unused(dir.Tables(), a)
    modifies dir`rules
    ensures Legal(dir.Tables()) && Effect(old(dir.Tables()), dir.Tables(), a)
    ensures Answered(old(dir.Tables()), dir.Tables(), a)
  {
    ghost var before := dir.Tables();
    var r := dir.CreateRule(a.body, a.minted);
    LegalKept(before, dir.Tables());
    assert RulesFrom(before.rules, dir.rules, a);
  }

  lemma SameIds(before: seq<RuleRow>, after: seq<RuleRow>, at: nat, a: ApiRequest)
    requires at < |before|
    requires (|after| == |before| && after == before[at := after[at]] && after[at].id == before[at].id)
             || after == before[..at] + before[at + 1..]
    ensures RulesFrom(before, after, a)
  {
    assert before[at] in before;
  }

  method ChangeRule(dir: Directory, a: ApiRequest)
    requires a.EditRule? && Legal(dir.Tables())
    modifies dir`rules
    ensures Legal(dir.Tables()) && Effect(old(dir.Tables()), dir.Tables(), a)
    ensures Answered(old(dir.Tables()), dir.Tables(), a)
  {
    ghost var before := dir.Tables();
    var r := dir.PatchRule(a.rule, a.patch);
    LegalKept(before, dir.Tables());
    if r.Ok? {
      SameIds(before.rules, dir.rules, r.value, a);
      PatchMade(before, dir.rules, a.rule, a.patch, r.value);
    } else if i :| 0 <= i < |before.rules| && before.rules[i].id == a.rule {
      PatchRefused(before, a.rule, a.patch, i, r.error);
    }
  }

  lemma PatchMade(before: Db, after: seq<RuleRow>, id: string, p: RulePatch, i: nat)
    requires i < |before.rules| && before.rules[i].id == id && |after| == |before.rules|
    requires after == before.rules[i := after[i]] && RuleChanged(after[i], before.rules[i], p)
    requires RuleAccepted(before.mailboxes, after[i]) && p != NothingToPatch && p.mailbox != Some(Some(""))
    requires Constrained(before.(rules := after))
    ensures RuleEdited(before, after, id, p)
  {
    assert after[i].mailbox.Some? ==> after[i].mailbox.value in before.mailboxes by {
      assert MailboxKnown(before.(rules := after), after[i].mailbox);
    }
    assert Patches(before.mailboxes, p, after[i]);
  }

  lemma PatchRefused(before: Db, id: string, p: RulePatch, i: int, e: ApiError)
    requires Constrained(before) && 0 <= i < |before.rules| && before.rules[i].id == id
    requires RuleChanged(Patched(before.rules[i], p), before.rules[i], p)
    requires e == InvalidBody <==> p == NothingToPatch || p.mailbox == Some(Some(""))
    requires e == ConstraintFailed ==>
               p.mailbox.Some? && p.mailbox.value.Some? && p.mailbox.value.value !in before.mailboxes
    requires e == InvalidBody || e == ConstraintFailed
             || exists k | 0 <= k < |before.rules| :: before.rules[k].id == id
                  && RuleRefused(before.mailboxes, Patched(before.rules[k], p)) == Some(e)
    ensures RuleEdited(before, before.rules, id, p)
  {
    var r := Patched(before.rules[i], p);
    RefusedIff(before.mailboxes, r);
    forall k | 0 <= k < |before.rules| && before.rules[k].id == id ensures k == i {}
    assert !Patches(before.mailboxes, p, r);
  }

  method RemoveRule(dir: Directory, a: ApiRequest)
    requires a.DropRule? && Legal(dir.Tables())
    modifies dir`rules
    ensures Legal(dir.Tables()) && Effect(old(dir.Tables()), dir.Tables(), a)
    ensures Answered(old(dir.Tables()), dir.Tables(), a)
  {
    ghost var before := dir.Tables();
    var r := dir.DeleteRule(a.rule);
    LegalKept(before, dir.Tables());
    if r.Ok? { SameIds(before.rules, dir.rules, r.value, a); }
  }

  /** One request through its route: what is new in the tables is what it asks for. */
  method Answer(dir: Directory, a: ApiRequest)
    requires Legal(dir.Tables()) && Unused(dir.Tables(), a)
    modifies dir
    ensures Legal(dir.Tables()) && Effect(old(dir.Tables()), dir.Tables(), a)
    ensures Answered(old(dir.Tables()), dir.Tables(), a)
  {
    if a.PostDomain? || a.EditDomain? {
      AnswerDomain(dir, a);
    } else if a.PostMailbox? {
      OpenMailbox(dir, a);
    } else if a.EditMailbox? || a.DropMailbox? {
      ChangeMailbox(dir, a);
    } else if a.PostAlias? || a.EditAlias? || a.DropAlias? {
      AnswerAlias(dir, a);
    } else if a.PostRule? {
      AddRule(dir, a);
    } else if a.EditRule? {
      ChangeRule(dir, a);
    } else {
      RemoveRule(dir, a);
    }
  }

  // ---------------------------------------------------------------- any history

  /** The first n requests answered, one after another. */
  ghost predicate Served(db: Db, requests: seq<ApiRequest>, n: nat, tables: seq<Db>)
    requires n <= |requests|
  {
    Legal(db) && Made(db, requests[..n]) && History(requests[..n], tables) && db == tables[n]
  }

  lemma NoneServed(requests: seq<ApiRequest>)
    ensures Served(NoTables, requests, 0, [NoTables])
  {
    EmptyIsLegal();
  }

  lemma AllServed(db: Db, requests: seq<ApiRequest>, tables: seq<Db>)
    requires Served(db, requests, |requests|, tables)
    ensures Legal(db) && Made(db, requests) && History(requests, tables) && db == tables[|requests|]
  {
    assert requests[..|requests|] == requests;
  }

  /** One request of a history. */
  method ServeNext(dir: Directory, requests: seq<ApiRequest>, n: nat, ghost tables: seq<Db>)
    returns (ghost tables': seq<Db>)
    requires DistinctMints(requests) && n < |requests| && Served(dir.Tables(), requests, n, tables)
    modifies dir
    ensures Served(dir.Tables(), requests, n + 1, tables')
  {
    assert requests[..n + 1] == requests[..n] + [requests[n]];
    FirstDistinct(requests, n + 1);
    ghost var before := dir.Tables();
    MintedUnused(before, requests[..n], requests[n]);
    Answer(dir, requests[n]);
    MadeOn(before, dir.Tables(), requests[..n], requests[n]);
    HistoryOn(requests[..n], tables, requests[n], dir.Tables());
    tables' := tables + [dir.Tables()];
  }

  method ServeAll(dir: Directory, requests: seq<ApiRequest>) returns (ghost tables: seq<Db>)
    requires DistinctMints(requests) && dir.Tables() == NoTables
    modifies dir
    ensures Legal(dir.Tables()) && Made(dir.Tables(), requests)
    ensures History(requests, tables) && dir.Tables() == tables[|requests|]
  {
    tables := [NoTables];
    NoneServed(requests);
    for n := 0 to |requests|
      invariant Served(dir.Tables(), requests, n, tables)
    {
      tables := ServeNext(dir, requests, n, tables);
    }
    AllServed(dir.Tables(), requests, tables);
  }

  /**
   * Whatever is asked, from a database just migrated: each request changes the tables as it says, the schema's
   * constraints and the routing invariant hold, every row was made by a request for it, a domain's rules decide
   * by the first that matches, and mail is stored only in active mailboxes.
   */
  method Serve(requests: seq<ApiRequest>) returns (dir: Directory, ghost tables: seq<Db>)
    requires DistinctMints(requests)
    ensures History(requests, tables) && dir.Tables() == tables[|requests|]
    ensures fresh(dir) && Legal(dir.Tables()) && Made(dir.Tables(), requests) && RoutesWell(dir.Tables())
  {
    dir := new Directory();
    tables := ServeAll(dir, requests);
    LegalRoutesWell(dir.Tables());
  }

  lemma HistoryOn(requests: seq<ApiRequest>, tables: seq<Db>, a: ApiRequest, db: Db)
    requires History(requests, tables) && Answered(tables[|requests|], db, a)
    ensures History(requests + [a], tables + [db])
  {
    var all, more := requests + [a], tables + [db];
    forall i | 0 <= i < |all| ensures Answered(more[i], more[i + 1], all[i]) {
      if i < |requests| { assert Answered(tables[i], tables[i + 1], requests[i]); }
    }
  }

  /** A domain's rules decide by the first that matches, and mail is stored only in active mailboxes. */
  ghost predicate RoutesWell(db: Db) {
    && (forall domain, canonical, i :: Picks(db, domain, canonical, i) <==> FirstMatching(db, domain, canonical, i))
    && (forall canonical, o | Resolves(db, canonical, o) && o.Stored? :: MailboxActive(db, o.mailbox))
  }

  lemma LegalRoutesWell(db: Db)
    requires Legal(db)
    ensures RoutesWell(db)
  {
    forall domain, canonical, i
      ensures Picks(db, domain, canonical, i) <==> FirstMatching(db, domain, canonical, i)
    {
      PicksFirstMatching(db, domain, canonical, i);
    }
    forall canonical, o | Resolves(db, canonical, o) && o.Stored? ensures MailboxActive(db, o.mailbox) {
      StoredIsActive(db, canonical, o);
    }
  }

  lemma FirstDistinct(requests: seq<ApiRequest>, n: nat)
    requires DistinctMints(requests) && n <= |requests|
    ensures DistinctMints(requests[..n])
  {}

  /** The requests behind a resolution: who opened the mailbox, registered the domain, added the rule. */
  ghost predicate AskedFor(requests: seq<ApiRequest>, canonical: string, o: Resolution) {
    && (o.Stored? ==>
          (exists i | 0 <= i < |requests| :: requests[i].PostMailbox? && requests[i].minted == o.mailbox)
          && exists i | 0 <= i < |requests| ::
               requests[i].PostDomain? && DomainPart(canonical) == Some(Canonical(requests[i].name)))
    && (o.rule.Some? ==> exists i | 0 <= i < |requests| :: Adds(requests[i], o.rule.value))
  }

  lemma RuleNamed(db: Db, d: string, canonical: string, o: Resolution) returns (r: RuleRow)
    requires RuleResolves(db, d, canonical, o) && o.rule.Some?
    ensures r in db.rules && r.id == o.rule.value
  {
    var i :| Picks(db, d, canonical, i) && o == RuleOutcome(db, db.rules[i], canonical);
    r := db.rules[i];
  }

  lemma RuleAskedFor(db: Db, requests: seq<ApiRequest>, canonical: string, o: Resolution)
    requires Made(db, requests) && Resolves(db, canonical, o) && o.rule.Some?
    ensures exists i | 0 <= i < |requests| :: Adds(requests[i], o.rule.value)
  {
    assert DomainResolves(db, DomainPart(canonical).value, canonical, o);
    var d :| d in db.domains && db.domains[d].name == DomainPart(canonical).value && DomainIsActive(db, d)
             && RuleResolves(db, d, canonical, o);
    var r := RuleNamed(db, d, canonical, o);
  }

  lemma StoredAskedFor(db: Db, requests: seq<ApiRequest>, canonical: string, o: Resolution)
    requires Legal(db) && Made(db, requests) && Resolves(db, canonical, o) && o.Stored?
    ensures exists i | 0 <= i < |requests| :: requests[i].PostMailbox? && requests[i].minted == o.mailbox
    ensures exists i | 0 <= i < |requests| ::
              requests[i].PostDomain? && DomainPart(canonical) == Some(Canonical(requests[i].name))
  {
    StoredIsActive(db, canonical, o);
    var m :| 0 <= m < |requests| && Opens(requests[m], o.mailbox, db.mailboxes[o.mailbox]);
    var d :| d in db.domains && db.domains[d].name == DomainPart(canonical).value && DomainIsActive(db, d);
    var i :| 0 <= i < |requests| && Registers(requests[i], d, db.domains[d]);
  }

  /**
   * After any history, mail is stored only in a mailbox some request opened, for an address on a domain some
   * request registered, and a rule decides only if some request added it.
   */
  method ServeThenRoute(requests: seq<ApiRequest>, recipient: string) returns (o: Resolution)
    requires DistinctMints(requests)
    ensures AskedFor(requests, Canonical(recipient), o)
    ensures requests == [] ==> o.Rejected?
  {
    var dir;
    ghost var tables;
    dir, tables := Serve(requests);
    o := ResolveRecipient(dir.Tables(), recipient);
    if o.Stored? { StoredAskedFor(dir.Tables(), requests, Canonical(recipient), o); }
    if o.rule.Some? { RuleAskedFor(dir.Tables(), requests, Canonical(recipient), o); }
  }
}
