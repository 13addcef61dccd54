/**
 * src/api/hono.ts: the routes that create, change and delete domains, mailboxes, aliases and
 * routing rules, over the tables of src/db/d1.ts. Each states the whole new state and keeps the
 * schema's constraints and the routing invariant.
 */
module ControlPlane {
  import opened Common
  import opened Routing
  import opened Text

  datatype ApiError =
    | InvalidBody
    | MailboxNotFound | DomainNotFound | AliasNotFound | RuleNotFound
    | InvalidAlias | MailboxIdRequired | ForwardToRequired
    | ConstraintFailed

  /** `aliasReason` of a mailbox create: why no alias serves the address yet. */
  datatype AliasState =
    | AliasReady(created: bool)
    | NoDomainPart
    | Claimed(holder: string)
    | DomainUnregistered
    | DomainInactive(status: DomainStatus)

  datatype RuleBody = RuleBody(
    domain: string, pattern: string, priority: nat, action: RuleAction, mailbox: Option<string>,
    forwardTo: Option<seq<string>>, reason: Option<string>, enabled: bool)

  /** Absent fields are left alone; the nullable ones can also be cleared. */
  datatype RulePatch = RulePatch(
    pattern: Option<string>, priority: Option<nat>, action: Option<RuleAction>,
    mailbox: Option<Option<string>>, forwardTo: Option<seq<string>>, reason: Option<Option<string>>,
    enabled: Option<bool>)

  function Or<T>(patch: Option<T>, existing: T): T {
    if patch.Some? then patch.value else existing
  }

  function Patched(r: RuleRow, p: RulePatch): RuleRow {
    RuleRow(r.id, r.domain, Or(p.pattern, r.pattern), Or(p.priority, r.priority),
            Or(p.action, r.action), Or(p.mailbox, r.mailbox), Or(p.forwardTo, r.forwardTo),
            Or(p.reason, r.reason), Or(p.enabled, r.enabled))
  }

  const NothingToPatch := RulePatch(None, None, None, None, None, None, None)

  function RowOf(id: string, b: RuleBody): RuleRow {
    RuleRow(id, b.domain, b.pattern, b.priority, b.action, b.mailbox, Or(b.forwardTo, []), b.reason,
            b.enabled)
  }

  // What those rows say, field by field.

  ghost predicate RuleIs(r: RuleRow, id: string, b: RuleBody) {
    && r.id == id && r.domain == b.domain && r.pattern == b.pattern && r.priority == b.priority
    && r.action == b.action && r.mailbox == b.mailbox && r.reason == b.reason && r.enabled == b.enabled
    && match b.forwardTo case Some(f) => r.forwardTo == f case None => r.forwardTo == []
  }

  /** Each field is the patch's where it has one, and otherwise as it was. */
  ghost predicate RuleChanged(r': RuleRow, r: RuleRow, p: RulePatch) {
    && r'.id == r.id && r'.domain == r.domain
    && (match p.pattern case Some(x) => r'.pattern == x case None => r'.pattern == r.pattern)
    && (match p.priority case Some(x) => r'.priority == x case None => r'.priority == r.priority)
    && (match p.action case Some(x) => r'.action == x case None => r'.action == r.action)
    && (match p.mailbox case Some(x) => r'.mailbox == x case None => r'.mailbox == r.mailbox)
    && (match p.forwardTo case Some(x) => r'.forwardTo == x case None => r'.forwardTo == r.forwardTo)
    && (match p.reason case Some(x) => r'.reason == x case None => r'.reason == r.reason)
    && (match p.enabled case Some(x) => r'.enabled == x case None => r'.enabled == r.enabled)
  }

  /** A store rule has a mailbox that exists, a forward rule somewhere to forward to. */
  ghost predicate RuleAccepted(mailboxes: map<string, MailboxRow>, r: RuleRow) {
    && (r.action == StoreRule ==> r.mailbox.Some? && r.mailbox.value != "" && r.mailbox.value in mailboxes)
    && (r.action == ForwardRule ==> r.forwardTo != [])
  }

  /** A display name given and blank is refused. */
  ghost predicate Nameless(name: Option<string>) {
    name.Some? && Trim(name.value) == ""
  }

  ghost predicate NameKept(stored: Option<string>, name: Option<string>) {
    match name case Some(n) => stored == Some(Trim(n)) case None => stored == None
  }

  /** The display name as the body schema leaves it: trimmed, and not empty. */
  predicate NameAccepted(name: Option<string>) {
    name.Some? ==> Trim(name.value) != ""
  }

  function NameStored(name: Option<string>): Option<string> {
    if name.Some? then Some(Trim(name.value)) else None
  }

  // ---------------------------------------------------------------- what one change keeps

  ghost predicate Keeps(db: Db, db': Db) {
    && (Constrained(db) ==> Constrained(db'))
    && (Constrained(db) && Sound(db) ==> Sound(db'))
  }

  lemma DomainAdded(db: Db, id: string, row: DomainRow)
    requires id !in db.domains && forall d | d in db.domains :: db.domains[d].name != row.name
    requires IsCanonical(row.name)
    ensures Keeps(db, db.(domains := db.domains[id := row]))
  {}

  lemma DomainStatusSet(db: Db, id: string, status: DomainStatus)
    requires id in db.domains
    ensures Keeps(db, db.(domains := db.domains[id := db.domains[id].(status := status)]))
  {}

  lemma MailboxAdded(db: Db, id: string, row: MailboxRow)
    requires id !in db.mailboxes && id != "" && IsCanonical(row.address)
    requires forall m | m in db.mailboxes :: db.mailboxes[m].address != row.address
    ensures Keeps(db, db.(mailboxes := db.mailboxes[id := row]))
  {}

  lemma MailboxChanged(db: Db, id: string, name: Option<string>, active: bool)
    requires id in db.mailboxes
    ensures Keeps(db, db.(mailboxes := db.mailboxes[
                            id := db.mailboxes[id].(displayName := name, active := active)]))
  {}

  lemma AliasWritten(db: Db, address: string, row: AliasRow)
    requires row.mailbox in db.mailboxes && row.domain in db.domains
    requires Constrained(db) && Sound(db) ==> AliasSound(db, address, row)
    ensures Keeps(db, db.(aliases := db.aliases[address := row]))
  {}

  lemma AliasRemoved(db: Db, address: string)
    ensures Keeps(db, db.(aliases := db.aliases - {address}))
  {}

  lemma RulesReplaced(db: Db, rules: seq<RuleRow>)
    requires Constrained(db) ==> RulesConstrained(db.(rules := rules))
    requires Constrained(db) && Sound(db) ==> forall i | 0 <= i < |rules| :: RuleSound(rules[i])
    ensures Keeps(db, db.(rules := rules))
  {}

  /** What ensurePrimaryAlias reports, from the tables it finds. */
  ghost predicate AliasReport(domains: map<string, DomainRow>, aliases: map<string, AliasRow>,
                              mailbox: string, address: string, state: AliasState)
  {
    match DomainPart(address)
    case None => state == NoDomainPart
    case Some(name) =>
      if address in aliases then
        state == if aliases[address].mailbox != mailbox then Claimed(aliases[address].mailbox)
                 else AliasReady(false)
      else
        match state
        case DomainUnregistered => forall d | d in domains :: domains[d].name != name
        case DomainInactive(s) =>
          s != DomainActive && exists d :: d in domains && domains[d].name == name && domains[d].status == s
        case AliasReady(created) =>
          created && exists d :: d in domains && domains[d].name == name && domains[d].status == DomainActive
        case _ => false
  }

  /** The alias it leaves: the mailbox's own, active, on the domain it already had or on an active one. */
  ghost predicate AliasEnsured(db: Db, before: map<string, AliasRow>, mailbox: string, address: string,
                               state: AliasState)
  {
    if !state.AliasReady? then db.aliases == before
    else
      && address in db.aliases && db.aliases == before[address := db.aliases[address]]
      && db.aliases[address].mailbox == mailbox && db.aliases[address].active
      && (if address in before then db.aliases[address].domain == before[address].domain
          else AliasServes(db, address))
  }

  /** Why a rule as it would be stored is refused, if it is. */
  ghost function RuleRefused(mailboxes: map<string, MailboxRow>, r: RuleRow): Option<ApiError> {
    if r.action == StoreRule && (r.mailbox.None? || r.mailbox.value == "") then Some(MailboxIdRequired)
    else if r.action == StoreRule && r.mailbox.value !in mailboxes then Some(MailboxNotFound)
    else if r.action == ForwardRule && r.forwardTo == [] then Some(ForwardToRequired)
    else None
  }

  ghost predicate NoSuchDomain(domains: map<string, DomainRow>, address: string) {
    DomainPart(address).Some?
    && forall d | d in domains :: domains[d].name != DomainPart(address).value
  }

  lemma KeepsOn(a: Db, b: Db, c: Db)
    requires Keeps(a, b) && Keeps(b, c)
    ensures Keeps(a, c)
  {}

  class Directory {
    var domains: map<string, DomainRow>
    var mailboxes: map<string, MailboxRow>
    var aliases: map<string, AliasRow>
    var rules: seq<RuleRow>

    /** A database just migrated. */
    constructor ()
      ensures Tables() == NoTables
    {
      domains, mailboxes, aliases, rules := map[], map[], map[], [];
    }

    function Tables(): Db
      reads this
    {
      Db(domains, mailboxes, aliases, rules)
    }

    // -------------------------------------------------------------- domains

    /** POST /api/domains: a registered name is answered with its row. */
    method CreateDomain(name: string, zone: string, minted: string) returns (id: string, created: bool)
      requires minted !in domains
      modifies this`domains
      ensures Keeps(old(Tables()), Tables())
      ensures created <==> forall d | d in old(domains) :: old(domains)[d].name != Canonical(name)
      ensures domains == (if created
                          then old(domains)[minted := DomainRow(Canonical(name), zone, DomainActive)]
                          else old(domains))
      ensures id in domains && domains[id].name == Canonical(name)
    {
      var domain := Canonical(name);
      var existing := DomainByName(Tables(), domain);
      if existing.Some? { return existing.value, false; }
      CanonicalSettles(name);
      DomainAdded(Tables(), minted, DomainRow(domain, zone, DomainActive));
      domains := domains[minted := DomainRow(domain, zone, DomainActive)];
      return minted, true;
    }

    /** PATCH and DELETE /api/domains/:domain, the path segment a name or an id. */
    method SetDomainStatus(param: string, status: DomainStatus) returns (r: Result<string, ApiError>)
      modifies this`domains
      ensures Keeps(old(Tables()), Tables())
      ensures match r
              case Ok(id) =>
                && id in old(domains)
                && (if exists d :: d in old(domains) && old(domains)[d].name == Canonical(param)
                    then old(domains)[id].name == Canonical(param) else id == Trim(param))
                && domains == old(domains)[id := old(domains)[id].(status := status)]
              case Err(e) =>
                && e == DomainNotFound && domains == old(domains) && Trim(param) !in domains
                && forall d | d in domains :: domains[d].name != Canonical(param)
    {
      var byName := DomainByName(Tables(), Canonical(param));
      var id := if byName.Some? then byName.value else Trim(param);
      if id !in domains { return Err(DomainNotFound); }
      DomainStatusSet(Tables(), id, status);
      domains := domains[id := domains[id].(status := status)];
      r := Ok(id);
    }

    // -------------------------------------------------------------- mailboxes

    /** The mailbox already holding a primary address. */
    method MailboxByAddress(address: string) returns (id: Option<string>)
      ensures match id
              case Some(m) => m in mailboxes && mailboxes[m].address == address
              case None => forall m | m in mailboxes :: mailboxes[m].address != address
    {
      var named := set m | m in mailboxes && mailboxes[m].address == address;
      if named == {} {
        assert forall m | m in mailboxes && mailboxes[m].address == address :: m in named;
        return None;
      }
      var m :| m in named;
      id := Some(m);
    }

    /** An alias is written only for its own mailbox, and only to make the address served. */
    method EnsurePrimaryAlias(mailbox: string, address: string) returns (state: AliasState)
      requires mailbox in mailboxes && IsCanonical(address)
      modifies this`aliases
      ensures Keeps(old(Tables()), Tables())
      ensures AliasReport(domains, old(aliases), mailbox, address, state)
      ensures AliasEnsured(Tables(), old(aliases), mailbox, address, state)
    {
      var name := DomainPart(address);
      if name.None? { return NoDomainPart; }
      if address in aliases {
        var existing := aliases[address];
        if existing.mailbox != mailbox { return Claimed(existing.mailbox); }
        if !existing.active {
          AliasReactivated(Tables(), address);
          aliases := aliases[address := existing.(active := true)];
        }
        return AliasReady(false);
      }
      var domain := DomainByName(Tables(), name.value);
      if domain.None? { return DomainUnregistered; }
      var row := domains[domain.value];
      if row.status != DomainActive { return DomainInactive(row.status); }
      AliasWritten(Tables(), address, AliasRow(mailbox, domain.value, true));
      aliases := aliases[address := AliasRow(mailbox, domain.value, true)];
      return AliasReady(true);
    }

    /** POST /api/mailboxes: one mailbox for each canonical address, and its alias when it can be. */
    method CreateMailbox(address: string, displayName: Option<string>, owner: string, minted: string)
      returns (r: Result<(string, bool, AliasState), ApiError>)
      requires minted !in mailboxes && minted != ""
      modifies this`mailboxes, this`aliases
      ensures Keeps(old(Tables()), Tables())
      ensures if Nameless(displayName) then r == Err(InvalidBody) && old(Tables()) == Tables() else r.Ok?
      ensures r.Ok? && minted in mailboxes ==> NameKept(mailboxes[minted].displayName, displayName)
      ensures r.Ok? ==>
                var (id, created, state) := r.value;
                && (created <==> forall m | m in old(mailboxes) ::
                      old(mailboxes)[m].address != Canonical(address))
                && mailboxes == (if !created then old(mailboxes) else old(mailboxes)[
                     minted := MailboxRow(Canonical(address), NameStored(displayName), true,
                                          Some(Canonical(owner)))])
                && id in mailboxes && mailboxes[id].address == Canonical(address)
                && AliasReport(domains, old(aliases), id, Canonical(address), state)
                && AliasEnsured(Tables(), old(aliases), id, Canonical(address), state)
    {
      if !NameAccepted(displayName) { return Err(InvalidBody); }
      var canonical := Canonical(address);
      CanonicalSettles(address);
      var id := MailboxByAddress(canonical);
      ghost var before := Tables();
      if id.None? { AddMailbox(canonical, displayName, owner, minted); }
      ghost var mid := Tables();
      var mailbox := if id.Some? then id.value else minted;
      var state := EnsurePrimaryAlias(mailbox, canonical);
      KeepsOn(before, mid, Tables());
      r := Ok((mailbox, id.None?, state));
    }

    method AddMailbox(canonical: string, displayName: Option<string>, owner: string, minted: string)
      requires minted !in mailboxes && minted != "" && IsCanonical(canonical)
      requires forall m | m in mailboxes :: mailboxes[m].address != canonical
      modifies this`mailboxes
      ensures Keeps(old(Tables()), Tables())
      ensures mailboxes == old(mailboxes)[
                minted := MailboxRow(canonical, NameStored(displayName), true, Some(Canonical(owner)))]
    {
      var row := MailboxRow(canonical, NameStored(displayName), true, Some(Canonical(owner)));
      MailboxAdded(Tables(), minted, row);
      mailboxes := mailboxes[minted := row];
    }

    /** PATCH /api/mailboxes/:mailboxId; an absent field is left alone. */
    method PatchMailbox(id: string, displayName: Option<Option<string>>, active: Option<bool>)
      returns (r: Result<(), ApiError>)
      modifies this`mailboxes
      ensures Keeps(old(Tables()), Tables())
      ensures r.Ok? ==> id in old(mailboxes) && mailboxes == old(mailboxes)[
                id := old(mailboxes)[id].(
                  displayName := if displayName.Some? then NameStored(displayName.value)
                                 else old(mailboxes)[id].displayName,
                  active := Or(active, old(mailboxes)[id].active))]
      ensures r.Err? ==> mailboxes == old(mailboxes)
      ensures r.Ok? && displayName.Some? ==> NameKept(mailboxes[id].displayName, displayName.value)
      ensures r.Ok? ==> mailboxes[id].active == match active case Some(x) => x case None => old(mailboxes)[id].active
      ensures r == if displayName.None? && active.None? then Err(InvalidBody)
                   else if displayName.Some? && Nameless(displayName.value) then Err(InvalidBody)
                   else if id !in mailboxes then Err(MailboxNotFound)
                   else Ok(())
    {
      if displayName.None? && active.None? { return Err(InvalidBody); }
      if displayName.Some? && !NameAccepted(displayName.value) { return Err(InvalidBody); }
      if id !in mailboxes { return Err(MailboxNotFound); }
      var row := mailboxes[id];
      var name := if displayName.Some? then NameStored(displayName.value) else row.displayName;
      MailboxChanged(Tables(), id, name, Or(active, row.active));
      mailboxes := mailboxes[id := row.(displayName := name, active := Or(active, row.active))];
      r := Ok(());
    }

    /** DELETE /api/mailboxes/:mailboxId: the row stays, disabled. */
    method DeleteMailbox(id: string) returns (r: Result<(), ApiError>)
      modifies this`mailboxes
      ensures Keeps(old(Tables()), Tables())
      ensures r == (if id in old(mailboxes) then Ok(()) else Err(MailboxNotFound))
      ensures mailboxes == (if id in old(mailboxes)
                            then old(mailboxes)[id := old(mailboxes)[id].(active := false)]
                            else old(mailboxes))
    {
      r := PatchMailbox(id, None, Some(false));
    }

    // -------------------------------------------------------------- aliases

    /** POST /api/aliases: the mailbox must exist, the domain be registered, the address be free. */
    method CreateAlias(address: string, mailbox: string) returns (r: Result<(), ApiError>)
      modifies this`aliases
      ensures Keeps(old(Tables()), Tables())
      ensures r.Ok? ==>
                && Canonical(address) !in old(aliases) && Canonical(address) in aliases
                && aliases == old(aliases)[Canonical(address) := aliases[Canonical(address)]]
                && aliases[Canonical(address)].mailbox == mailbox && aliases[Canonical(address)].active
                && mailbox in mailboxes && aliases[Canonical(address)].domain in domains
                && DomainPart(Canonical(address)) == Some(domains[aliases[Canonical(address)].domain].name)
      ensures r.Err? ==> aliases == old(aliases)
      ensures r.Err? ==> match r.error
                         case MailboxNotFound => mailbox !in mailboxes
                         case InvalidAlias => DomainPart(Canonical(address)).None?
                         case DomainNotFound => NoSuchDomain(domains, Canonical(address))
                         case ConstraintFailed => Canonical(address) in aliases
                         case _ => false
    {
      var canonical := Canonical(address);
      CanonicalSettles(address);
      if mailbox !in mailboxes { return Err(MailboxNotFound); }
      var name := DomainPart(canonical);
      if name.None? { return Err(InvalidAlias); }
      var domain := DomainByName(Tables(), name.value);
      if domain.None? { return Err(DomainNotFound); }
      if canonical in aliases { return Err(ConstraintFailed); }
      AliasWritten(Tables(), canonical, AliasRow(mailbox, domain.value, true));
      aliases := aliases[canonical := AliasRow(mailbox, domain.value, true)];
      r := Ok(());
    }

    /** PATCH /api/aliases/:aliasAddress. */
    method SetAliasStatus(address: string, active: bool) returns (r: Result<(), ApiError>)
      requires Constrained(Tables())
      modifies this`aliases
      ensures Keeps(old(Tables()), Tables())
      ensures r == (if Canonical(address) in old(aliases) then Ok(()) else Err(AliasNotFound))
      ensures aliases == (if r.Ok?
                then old(aliases)[Canonical(address) := old(aliases)[Canonical(address)].(active := active)]
                else old(aliases))
    {
      var canonical := Canonical(address);
      if canonical !in aliases { return Err(AliasNotFound); }
      var row := aliases[canonical].(active := active);
      assert AliasSound(Tables(), canonical, aliases[canonical]) ==> AliasSound(Tables(), canonical, row);
      AliasWritten(Tables(), canonical, row);
      aliases := aliases[canonical := row];
      r := Ok(());
    }

    /** DELETE /api/aliases/:aliasAddress: the address is free again. */
    method DeleteAlias(address: string) returns (r: Result<(), ApiError>)
      modifies this`aliases
      ensures Keeps(old(Tables()), Tables())
      ensures r == (if Canonical(address) in old(aliases) then Ok(()) else Err(AliasNotFound))
      ensures aliases == old(aliases) - {Canonical(address)}
    {
      var canonical := Canonical(address);
      if canonical !in aliases {
        assert aliases == aliases - {canonical};
        return Err(AliasNotFound);
      }
      AliasRemoved(Tables(), canonical);
      aliases := aliases - {canonical};
      r := Ok(());
    }

    // -------------------------------------------------------------- routing rules

    method FindRule(id: string) returns (at: Option<nat>)
      ensures match at
              case Some(i) => i < |rules| && rules[i].id == id
              case None => forall i | 0 <= i < |rules| :: rules[i].id != id
    {
      for i := 0 to |rules|
        invariant forall j | 0 <= j < i :: rules[j].id != id
      {
        if rules[i].id == id { return Some(i); }
      }
      at := None;
    }

    /** POST /api/routing-rules. */
    method CreateRule(b: RuleBody, minted: string) returns (r: Result<string, ApiError>)
      requires forall i | 0 <= i < |rules| :: rules[i].id != minted
      modifies this`rules
      ensures Keeps(old(Tables()), Tables())
      ensures r == if b.domain !in domains then Err(DomainNotFound)
                   else if RuleRefused(mailboxes, RowOf(minted, b)).Some?
                   then Err(RuleRefused(mailboxes, RowOf(minted, b)).value)
                   else if b.mailbox.Some? && b.mailbox.value !in mailboxes then Err(ConstraintFailed)
                   else Ok(minted)
      ensures rules == old(rules) + (if r.Ok? then [RowOf(minted, b)] else [])
      ensures RuleIs(RowOf(minted, b), minted, b)
    {
      if b.domain !in domains { return Err(DomainNotFound); }
      if b.action == StoreRule {
        if b.mailbox.None? || b.mailbox.value == "" { return Err(MailboxIdRequired); }
        if b.mailbox.value !in mailboxes { return Err(MailboxNotFound); }
      }
      if b.action == ForwardRule && (b.forwardTo.None? || b.forwardTo.value == []) {
        return Err(ForwardToRequired);
      }
      if b.mailbox.Some? && b.mailbox.value !in mailboxes { return Err(ConstraintFailed); }
      RulesReplaced(Tables(), rules + [RowOf(minted, b)]);
      rules := rules + [RowOf(minted, b)];
      r := Ok(minted);
    }

    /** PATCH /api/routing-rules/:ruleId: the rule is judged as it will be after the patch. */
    method PatchRule(id: string, p: RulePatch) returns (r: Result<nat, ApiError>)
      modifies this`rules
      ensures Keeps(old(Tables()), Tables())
      ensures match r
              case Ok(i) =>
                && i < |old(rules)| && old(rules)[i].id == id
                && rules == old(rules)[i := Patched(old(rules)[i], p)]
                && RuleChanged(rules[i], old(rules)[i], p) && RuleAccepted(mailboxes, rules[i])
              case Err(e) =>
                && rules == old(rules)
                && (e == InvalidBody || e == RuleNotFound || e == ConstraintFailed ||
                    exists i | 0 <= i < |rules| :: rules[i].id == id
                      && RuleRefused(mailboxes, Patched(rules[i], p)) == Some(e))
      ensures r == Err(InvalidBody) <==> p == NothingToPatch || p.mailbox == Some(Some(""))
      ensures r.Err? ==>
                forall i | 0 <= i < |rules| && rules[i].id == id :: RuleChanged(Patched(rules[i], p), rules[i], p)
      ensures r == Err(RuleNotFound) ==> forall i | 0 <= i < |rules| :: rules[i].id != id
      ensures r == Err(ConstraintFailed) ==> p.mailbox.Some? && p.mailbox.value.Some?
                                             && p.mailbox.value.value !in mailboxes
    {
      if p == NothingToPatch || p.mailbox == Some(Some("")) { return Err(InvalidBody); }
      var at := FindRule(id);
      if at.None? { return Err(RuleNotFound); }
      var existing := rules[at.value];
      var action, mailbox := Or(p.action, existing.action), Or(p.mailbox, existing.mailbox);
      var forwardTo := Or(p.forwardTo, existing.forwardTo);
      if action == StoreRule {
        if mailbox.None? || mailbox.value == "" { return Err(MailboxIdRequired); }
        if mailbox.value !in mailboxes { return Err(MailboxNotFound); }
      }
      if action == ForwardRule && forwardTo == [] { return Err(ForwardToRequired); }
      if p.mailbox.Some? && p.mailbox.value.Some? && p.mailbox.value.value !in mailboxes {
        return Err(ConstraintFailed);
      }
      RulesReplaced(Tables(), rules[at.value := Patched(existing, p)]);
      rules := rules[at.value := Patched(existing, p)];
      r := Ok(at.value);
    }

    /** DELETE /api/routing-rules/:ruleId. */
    method DeleteRule(id: string) returns (r: Result<nat, ApiError>)
      modifies this`rules
      ensures Keeps(old(Tables()), Tables())
      ensures match r
              case Ok(i) =>
                && i < |old(rules)| && old(rules)[i].id == id
                && rules == old(rules)[..i] + old(rules)[i + 1..]
              case Err(e) =>
                e == RuleNotFound && rules == old(rules)
                && forall i | 0 <= i < |rules| :: rules[i].id != id
    {
      var at := FindRule(id);
      if at.None? { return Err(RuleNotFound); }
      var i := at.value;
      RuleRemoved(Tables(), i);
      rules := rules[..i] + rules[i + 1..];
      r := Ok(i);
    }
  }

  /** A rule is not refused exactly when it is accepted. */
  lemma RefusedIff(mailboxes: map<string, MailboxRow>, r: RuleRow)
    ensures RuleRefused(mailboxes, r).None? <==> RuleAccepted(mailboxes, r)
  {}

  lemma RuleRemoved(db: Db, i: nat)
    requires i < |db.rules|
    ensures Keeps(db, db.(rules := db.rules[..i] + db.rules[i + 1..]))
  {
    var rest := db.rules[..i] + db.rules[i + 1..];
    forall j | 0 <= j < |rest| ensures rest[j] == db.rules[if j < i then j else j + 1] {}
    RulesReplaced(db, rest);
  }

  lemma AliasReactivated(db: Db, address: string)
    requires address in db.aliases
    ensures Keeps(db, db.(aliases := db.aliases[address := db.aliases[address].(active := true)]))
  {
    var row := db.aliases[address].(active := true);
    var db' := db.(aliases := db.aliases[address := row]);
    if Constrained(db) {
      assert Sound(db) ==> AliasSound(db, address, db.aliases[address]);
      AliasWritten(db, address, row);
    }
  }

  // ---------------------------------------------------------------- what the routes mean for mail

  const NoTables := Db(map[], map[], map[], [])

  /** The schema's constraints and the routing invariant. */
  ghost predicate Legal(db: Db) {
    Constrained(db) && Sound(db)
  }

  lemma LegalKept(db: Db, db': Db)
    requires Legal(db) && Keeps(db, db')
    ensures Legal(db')
  {}

  lemma EmptyIsLegal()
    ensures Legal(NoTables)
  {}

  function Disabled(db: Db, id: string): Db
    requires id in db.mailboxes
  {
    db.(mailboxes := db.mailboxes[id := db.mailboxes[id].(active := false)])
  }

  function Bounced(o: Resolution, id: string): Resolution {
    if o.Stored? && o.mailbox == id then Rejected("mailbox_disabled", o.rule, o.alias) else o
  }

  lemma DisabledRuleOutcome(db: Db, id: string, r: RuleRow, canonical: string)
    requires id in db.mailboxes && Decisive(r)
    ensures RuleOutcome(Disabled(db, id), r, canonical) == Bounced(RuleOutcome(db, r, canonical), id)
  {}

  lemma DisabledRuleResolves(db: Db, id: string, domain: string, canonical: string, o: Resolution)
    requires id in db.mailboxes && RuleResolves(db, domain, canonical, o)
    ensures RuleResolves(Disabled(db, id), domain, canonical, Bounced(o, id))
  {
    var db' := Disabled(db, id);
    assert forall i :: Picks(db', domain, canonical, i) <==> Picks(db, domain, canonical, i);
    if i :| Picks(db, domain, canonical, i) && o == RuleOutcome(db, db.rules[i], canonical) {
      DisabledRuleOutcome(db, id, db.rules[i], canonical);
      assert Picks(db', domain, canonical, i);
    }
  }

  /**
   * Deleting a mailbox bounces exactly the mail it used to store: none of it is diverted to a
   * catch-all, and no other recipient notices.
   */
  lemma DeletedMailboxOnlyBounces(db: Db, id: string, canonical: string, o: Resolution)
    requires id in db.mailboxes && Resolves(db, canonical, o)
    ensures Resolves(Disabled(db, id), canonical, Bounced(o, id))
  {
    var db' := Disabled(db, id);
    if !AliasServes(db, canonical) && DomainPart(canonical).Some? {
      var name := DomainPart(canonical).value;
      if d :| d in db.domains && db.domains[d].name == name && DomainIsActive(db, d)
              && RuleResolves(db, d, canonical, o)
      {
        DisabledRuleResolves(db, id, d, canonical, o);
        assert d in db'.domains && db'.domains[d].name == name && DomainIsActive(db', d);
      }
    }
  }

  /**
   * A mailbox whose alias is reported ready receives what is sent to it exactly when the alias's domain and
   * the mailbox are active; otherwise the mail is refused, for the one reason or the other, whatever the
   * routing rules say.
   */
  lemma ReadyReceivesIff(db: Db, before: map<string, AliasRow>, mailbox: string, address: string, state: AliasState)
    requires Constrained(db) && Sound(db)
    requires state.AliasReady? && AliasEnsured(db, before, mailbox, address, state)
    ensures var served := DomainIsActive(db, db.aliases[address].domain);
            && (Resolves(db, address, Stored(mailbox, None, address)) <==> served && MailboxActive(db, mailbox))
            && (Resolves(db, address, Rejected("mailbox_disabled", None, address)) <==>
                  served && !MailboxActive(db, mailbox))
            && (Resolves(db, address, Rejected("unknown_domain", None, address)) <==> !served)
  {
    assert AliasSound(db, address, db.aliases[address]);
  }

  /** The address split at its one `@`. */
  lemma AddressParts(address: string, host: string, local: string)
    requires '@' !in local && '@' !in host && host != "" && address == local + ['@'] + host
    ensures DomainPart(address) == Some(host)
  {
    SplitAfterFree(local, '@', host);
    SplitOfFree(host, '@');
  }

  lemma DisabledDomainRejects(db: Db, d: string, address: string, host: string)
    requires Constrained(db) && d in db.domains && db.domains[d] == DomainRow(host, "z", DomainDisabled)
    requires DomainPart(address) == Some(host) && address in db.aliases && db.aliases[address].domain == d
    ensures Resolves(db, address, Rejected("unknown_domain", None, address))
  {}

  /** `aliasReason` is null for an alias kept on a domain since disabled: nothing is received. */
  lemma ReadyNeedNotReceive() returns (db: Db, address: string)
    ensures Constrained(db) && Sound(db) && "m" in db.mailboxes && db.mailboxes["m"].active
    ensures AliasReport(db.domains, db.aliases, "m", address, AliasReady(false))
    ensures AliasEnsured(db, db.aliases, "m", address, AliasReady(false))
    ensures Resolves(db, address, Rejected("unknown_domain", None, address))
  {
    address := "a@b.c";
    AddressParts(address, "b.c", "a");
    db := KeptAliasWorld("m", "d", address, "b.c");
  }

  lemma KeptAliasWorld(mailbox: string, d: string, address: string, host: string) returns (db: Db)
    requires mailbox != "" && IsCanonical(address) && IsCanonical(host) && DomainPart(address) == Some(host)
    ensures Constrained(db) && Sound(db) && mailbox in db.mailboxes && db.mailboxes[mailbox].active
    ensures AliasReport(db.domains, db.aliases, mailbox, address, AliasReady(false))
    ensures AliasEnsured(db, db.aliases, mailbox, address, AliasReady(false))
    ensures Resolves(db, address, Rejected("unknown_domain", None, address))
  {
    db := Db(map[d := DomainRow(host, "z", DomainDisabled)],
             map[mailbox := MailboxRow(address, None, true, None)],
             map[address := AliasRow(mailbox, d, true)], []);
    assert AliasSound(db, address, db.aliases[address]);
    assert db.aliases == db.aliases[address := db.aliases[address]];
    DisabledDomainRejects(db, d, address, host);
  }
}
