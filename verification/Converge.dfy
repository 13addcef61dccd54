/**
 * Onboarding's control-plane steps: decide from the listed rows (scripts/lib/onboard-core.ts),
 * apply through the routes (scripts/onboard.ts), decide again. A step that reports success leaves
 * nothing to do, and a second pass changes no row.
 */
module Converge {
  import opened Common
  import opened ControlPlane
  import opened Routing
  import opened StepEngine
  import opened Text

  datatype DomainLike = DomainLike(name: string, zone: string, status: DomainStatus)

  datatype MailboxLike = MailboxLike(
    id: string, address: string, displayName: Option<string>, active: bool, owner: Option<string>)

  datatype AliasLike = AliasLike(address: string, mailbox: string, active: bool)

  // ---------------------------------------------------------------- listings

  ghost predicate ListsDomains(l: seq<DomainLike>, domains: map<string, DomainRow>) {
    && (forall r | r in l ::
          exists d :: d in domains && r == DomainLike(domains[d].name, domains[d].zone, domains[d].status))
    && (forall d | d in domains :: DomainLike(domains[d].name, domains[d].zone, domains[d].status) in l)
  }

  function Likeness(id: string, r: MailboxRow): MailboxLike {
    MailboxLike(id, r.address, r.displayName, r.active, r.owner)
  }

  ghost predicate ListsMailboxes(l: seq<MailboxLike>, mailboxes: map<string, MailboxRow>) {
    && (forall r | r in l :: r.id in mailboxes && r == Likeness(r.id, mailboxes[r.id]))
    && (forall m | m in mailboxes :: Likeness(m, mailboxes[m]) in l)
  }

  ghost predicate ListsAliases(l: seq<AliasLike>, aliases: map<string, AliasRow>) {
    && (forall r | r in l ::
          r.address in aliases && r == AliasLike(r.address, aliases[r.address].mailbox, aliases[r.address].active))
    && (forall a | a in aliases :: AliasLike(a, aliases[a].mailbox, aliases[a].active) in l)
  }

  function FindDomain(l: seq<DomainLike>, zone: string): (r: Option<DomainLike>)
    ensures r.Some? ==> r.value in l && Lower(r.value.name) == zone
    ensures r.None? ==> forall d | d in l :: Lower(d.name) != zone
  {
    if l == [] then None else if Lower(l[0].name) == zone then Some(l[0]) else FindDomain(l[1..], zone)
  }

  function FindMailbox(l: seq<MailboxLike>, address: string): (r: Option<MailboxLike>)
    ensures r.Some? ==> r.value in l && Lower(r.value.address) == address
    ensures r.None? ==> forall m | m in l :: Lower(m.address) != address
  {
    if l == [] then None
    else if Lower(l[0].address) == address then Some(l[0]) else FindMailbox(l[1..], address)
  }

  function FindAlias(l: seq<AliasLike>, address: string): (r: Option<AliasLike>)
    ensures r.Some? ==> r.value in l && Lower(r.value.address) == address
    ensures r.None? ==> forall a | a in l :: Lower(a.address) != address
  {
    if l == [] then None
    else if Lower(l[0].address) == address then Some(l[0]) else FindAlias(l[1..], address)
  }

  // ---------------------------------------------------------------- decisions

  function DecideDomain(l: seq<DomainLike>, zone: string, zoneId: Option<string>): Decision<string> {
    match FindDomain(l, zone)
    case Some(row) =>
      if row.status != DomainActive then NotPossible
      else if zoneId.Some? && row.zone != zoneId.value then NotPossible
      else InPlace
    case None => if zoneId.None? then NotPossible else Todo(zoneId.value)
  }

  datatype MailboxTodo = Create | Converges(mailbox: string, displayName: Option<string>, repost: bool)

  predicate SameOwner(owner: Option<string>, email: Option<string>) {
    email.Some? ==> owner.Some? && Lower(owner.value) == Lower(email.value)
  }

  /** The owner is the one asked for, in either case, if one is. */
  ghost predicate OwnedAs(owner: Option<string>, email: Option<string>) {
    email.Some? ==> owner.Some? && SameUpToCase(owner.value, email.value)
  }

  lemma OwnerByLetters(owner: Option<string>, email: Option<string>)
    ensures SameOwner(owner, email) <==> OwnedAs(owner, email)
  {
    if email.Some? && owner.Some? { FoldedAlike(owner.value, email.value); }
  }

  function DecideMailbox(address: string, displayName: Option<string>, mailboxes: seq<MailboxLike>,
                         aliases: seq<AliasLike>, email: Option<string>): Decision<MailboxTodo>
  {
    match FindMailbox(mailboxes, address)
    case None => Todo(Create)
    case Some(row) => DecideFound(row, FindAlias(aliases, address), displayName, email)
  }

  /** The decision about the mailbox row holding the address and the alias of that address. */
  function DecideFound(row: MailboxLike, primary: Option<AliasLike>, displayName: Option<string>,
                       email: Option<string>): Decision<MailboxTodo>
  {
    if !row.active || !SameOwner(row.owner, email) then NotPossible
    else if primary.Some? && (primary.value.mailbox != row.id || !primary.value.active) then NotPossible
    else
      var rename := if displayName.Some? && row.displayName != displayName then displayName else None;
      if primary.Some? && rename.None? then InPlace
      else Todo(Converges(row.id, rename, primary.None?))
  }

  function DecideAlias(alias: string, mailbox: Option<string>, aliases: seq<AliasLike>): Decision<()> {
    match FindAlias(aliases, alias)
    case None => Todo(())
    case Some(row) =>
      if Some(row.mailbox) != mailbox || !row.active then NotPossible else InPlace
  }

  // ---------------------------------------------------------------- the decisions, over the tables

  ghost predicate DomainInPlace(db: Db, zone: string, zoneId: Option<string>) {
    exists d :: d in db.domains && db.domains[d].name == zone && db.domains[d].status == DomainActive
                && (zoneId.Some? ==> db.domains[d].zone == zoneId.value)
  }

  ghost predicate Holds(db: Db, m: string, address: string) {
    m in db.mailboxes && db.mailboxes[m].address == address
  }

  ghost predicate MailboxInPlace(db: Db, address: string, displayName: Option<string>, email: Option<string>) {
    exists m :: Holds(db, m, address) && MailboxReady(db, m, address, displayName, email)
  }

  ghost predicate AliasInPlace(db: Db, address: string, alias: string) {
    exists m :: Holds(db, m, address) && alias in db.aliases && db.aliases[alias].mailbox == m
                && db.aliases[alias].active
  }

  lemma CanonicalNames(db: Db)
    requires Constrained(db) && Sound(db)
    ensures forall d | d in db.domains :: Lower(db.domains[d].name) == db.domains[d].name
    ensures forall m | m in db.mailboxes :: Lower(db.mailboxes[m].address) == db.mailboxes[m].address
    ensures forall a | a in db.aliases :: Lower(a) == a
  {}

  /** Whatever order the rows are listed in, the domain is in place or it is not. */
  lemma DomainDecided(db: Db, l: seq<DomainLike>, zone: string, zoneId: Option<string>)
    requires Constrained(db) && Sound(db) && ListsDomains(l, db.domains)
    ensures DecideDomain(l, zone, zoneId) == InPlace <==> DomainInPlace(db, zone, zoneId)
    ensures DecideDomain(l, zone, zoneId).Todo? <==>
              zoneId.Some? && forall d | d in db.domains :: db.domains[d].name != zone
  {
    CanonicalNames(db);
    match FindDomain(l, zone)
    case Some(row) =>
      var d :| d in db.domains && row == DomainLike(db.domains[d].name, db.domains[d].zone, db.domains[d].status);
    case None =>
      forall d | d in db.domains ensures db.domains[d].name != zone {
        assert DomainLike(db.domains[d].name, db.domains[d].zone, db.domains[d].status) in l;
      }
  }

  lemma MailboxFound(db: Db, l: seq<MailboxLike>, address: string)
    requires Constrained(db) && Sound(db) && ListsMailboxes(l, db.mailboxes)
    ensures match FindMailbox(l, address)
            case Some(r) => Holds(db, r.id, address) && r == Likeness(r.id, db.mailboxes[r.id])
                            && forall m | Holds(db, m, address) :: m == r.id
            case None => forall m :: !Holds(db, m, address)
  {}

  lemma AliasFound(db: Db, l: seq<AliasLike>, address: string)
    requires Constrained(db) && Sound(db) && ListsAliases(l, db.aliases)
    ensures FindAlias(l, address) ==
            if address in db.aliases
            then Some(AliasLike(address, db.aliases[address].mailbox, db.aliases[address].active)) else None
  {
    CanonicalNames(db);
    if address in db.aliases {
      assert AliasLike(address, db.aliases[address].mailbox, db.aliases[address].active) in l;
    }
  }

  /** The mailbox m, if it is the one holding the address, is as the manifest wants it. */
  ghost predicate MailboxReady(db: Db, m: string, address: string, displayName: Option<string>,
                               email: Option<string>)
    requires m in db.mailboxes
  {
    && db.mailboxes[m].active && OwnedAs(db.mailboxes[m].owner, email)
    && address in db.aliases && db.aliases[address].mailbox == m && db.aliases[address].active
    && (displayName.Some? ==> db.mailboxes[m].displayName == displayName)
  }

  lemma ReadyIsInPlace(db: Db, m: string, address: string, displayName: Option<string>, email: Option<string>)
    requires Holds(db, m, address) && forall n | Holds(db, n, address) :: n == m
    ensures MailboxInPlace(db, address, displayName, email) <==>
            MailboxReady(db, m, address, displayName, email)
  {}

  function AliasOf(db: Db, address: string): Option<AliasLike> {
    if address in db.aliases
    then Some(AliasLike(address, db.aliases[address].mailbox, db.aliases[address].active)) else None
  }

  lemma FoundDecided(db: Db, m: string, address: string, displayName: Option<string>, email: Option<string>)
    requires m in db.mailboxes
    ensures DecideFound(Likeness(m, db.mailboxes[m]), AliasOf(db, address), displayName, email) == InPlace
            <==> MailboxReady(db, m, address, displayName, email)
  {
    OwnerByLetters(db.mailboxes[m].owner, email);
  }

  lemma MailboxDecided(db: Db, mailboxes: seq<MailboxLike>, aliases: seq<AliasLike>, address: string,
                       displayName: Option<string>, email: Option<string>)
    requires Constrained(db) && Sound(db)
    requires ListsMailboxes(mailboxes, db.mailboxes) && ListsAliases(aliases, db.aliases)
    ensures DecideMailbox(address, displayName, mailboxes, aliases, email) == InPlace <==>
            MailboxInPlace(db, address, displayName, email)
  {
    MailboxFound(db, mailboxes, address);
    AliasFound(db, aliases, address);
    match FindMailbox(mailboxes, address)
    case None =>
    case Some(row) =>
      ReadyIsInPlace(db, row.id, address, displayName, email);
      FoundDecided(db, row.id, address, displayName, email);
  }

  lemma AliasDecided(db: Db, mailboxes: seq<MailboxLike>, aliases: seq<AliasLike>, address: string,
                     alias: string)
    requires Constrained(db) && Sound(db)
    requires ListsMailboxes(mailboxes, db.mailboxes) && ListsAliases(aliases, db.aliases)
    ensures DecideAlias(alias, MailboxIdOf(mailboxes, address), aliases) == InPlace <==>
            AliasInPlace(db, address, alias)
  {
    MailboxFound(db, mailboxes, address);
    AliasFound(db, aliases, alias);
    match FindMailbox(mailboxes, address)
    case None =>
    case Some(row) => assert Holds(db, row.id, address);
  }

  /** scripts/onboard.ts: currentMailboxId. */
  function MailboxIdOf(mailboxes: seq<MailboxLike>, address: string): Option<string> {
    match FindMailbox(mailboxes, address)
    case Some(r) => Some(r.id)
    case None => None
  }

  // ---------------------------------------------------------------- reading the tables

  method ListDomains(domains: map<string, DomainRow>) returns (l: seq<DomainLike>)
    ensures ListsDomains(l, domains)
  {
    l := [];
    var todo := domains.Keys;
    while todo != {}
      invariant todo <= domains.Keys
      invariant forall r | r in l ::
                  exists d :: d in domains && r == DomainLike(domains[d].name, domains[d].zone, domains[d].status)
      invariant forall d | d in domains && d !in todo ::
                  DomainLike(domains[d].name, domains[d].zone, domains[d].status) in l
    {
      var d :| d in todo;
      todo := todo - {d};
      l := l + [DomainLike(domains[d].name, domains[d].zone, domains[d].status)];
    }
  }

  method ListMailboxes(mailboxes: map<string, MailboxRow>) returns (l: seq<MailboxLike>)
    ensures ListsMailboxes(l, mailboxes)
  {
    l := [];
    var todo := mailboxes.Keys;
    while todo != {}
      invariant todo <= mailboxes.Keys
      invariant forall r | r in l :: r.id in mailboxes && r == Likeness(r.id, mailboxes[r.id])
      invariant forall m | m in mailboxes && m !in todo :: Likeness(m, mailboxes[m]) in l
    {
      var m :| m in todo;
      todo := todo - {m};
      l := l + [Likeness(m, mailboxes[m])];
    }
  }

  method ListAliases(aliases: map<string, AliasRow>) returns (l: seq<AliasLike>)
    ensures ListsAliases(l, aliases)
  {
    l := [];
    var todo := aliases.Keys;
    while todo != {}
      invariant todo <= aliases.Keys
      invariant forall r | r in l :: r.address in aliases
                  && r == AliasLike(r.address, aliases[r.address].mailbox, aliases[r.address].active)
      invariant forall a | a in aliases && a !in todo ::
                  AliasLike(a, aliases[a].mailbox, aliases[a].active) in l
    {
      var a :| a in todo;
      todo := todo - {a};
      l := l + [AliasLike(a, aliases[a].mailbox, aliases[a].active)];
    }
  }

  // ---------------------------------------------------------------- the steps

  ghost predicate Healthy(db: Db) {
    Constrained(db) && Sound(db)
  }

  ghost predicate Unregistered(db: Db, zone: string) {
    forall d | d in db.domains :: db.domains[d].name != zone
  }

  /** Register the zone unless it is registered; a done or an `already` leaves it in place. */
  method DomainStep(dir: Directory, zone: string, zoneId: Option<string>, mode: Mode, minted: string)
    returns (o: Outcome)
    requires Healthy(dir.Tables()) && IsCanonical(zone) && minted !in dir.domains
    modifies dir`domains
    ensures Healthy(dir.Tables())
    ensures o.Already? <==> DomainInPlace(old(dir.Tables()), zone, zoneId)
    ensures o.Already? || o.Done? ==> DomainInPlace(dir.Tables(), zone, zoneId)
    ensures zoneId.Some? && Unregistered(old(dir.Tables()), zone) ==> o == if mode.Apply? then Done else WouldDo
    ensures zoneId.None? || !Unregistered(old(dir.Tables()), zone) ==> o == Already || o == Blocked
    ensures mode.DryRun? || !o.Done? ==> dir.Tables() == old(dir.Tables())
    ensures o.Done? ==> dir.domains == old(dir.domains)[minted := DomainRow(zone, zoneId.value, DomainActive)]
  {
    var l := ListDomains(dir.domains);
    DomainDecided(dir.Tables(), l, zone, zoneId);
    match DecideDomain(l, zone, zoneId)
    case InPlace => o := Already;
    case NotPossible => o := Blocked;
    case Todo(id) =>
      if mode.DryRun? { return WouldDo; }
      CanonicalSettles(zone);
      var registered, created := dir.CreateDomain(zone, id, minted);
      o := Done;
  }

  ghost predicate DomainServes(db: Db, address: string) {
    && DomainPart(address).Some?
    && exists d :: d in db.domains && db.domains[d].name == DomainPart(address).value
                   && db.domains[d].status == DomainActive
  }

  /** The state in which the mailbox step has something to do: no holder, or a holder to complete. */
  ghost predicate MailboxOutstanding(db: Db, address: string, displayName: Option<string>, email: Option<string>) {
    && !MailboxInPlace(db, address, displayName, email)
    && forall m | Holds(db, m, address) ::
         && db.mailboxes[m].active && OwnedAs(db.mailboxes[m].owner, email)
         && (address in db.aliases ==> db.aliases[address].mailbox == m && db.aliases[address].active)
  }

  /** No other mailbox claims the address, and an alias can be made for it if it has none. */
  ghost predicate Provisionable(db: Db, address: string, owner: string, email: Option<string>) {
    if exists m :: Holds(db, m, address) then address in db.aliases || DomainServes(db, address)
    else address !in db.aliases && DomainServes(db, address) && OwnedAs(Some(Canonical(owner)), email)
  }

  lemma OutstandingDecided(db: Db, mailboxes: seq<MailboxLike>, aliases: seq<AliasLike>, address: string,
                           displayName: Option<string>, email: Option<string>)
    requires Healthy(db)
    requires ListsMailboxes(mailboxes, db.mailboxes) && ListsAliases(aliases, db.aliases)
    ensures DecideMailbox(address, displayName, mailboxes, aliases, email).Todo? <==>
            MailboxOutstanding(db, address, displayName, email)
  {
    MailboxFound(db, mailboxes, address);
    AliasFound(db, aliases, address);
    MailboxDecided(db, mailboxes, aliases, address, displayName, email);
    match FindMailbox(mailboxes, address)
    case None =>
    case Some(row) =>
      assert Holds(db, row.id, address);
      OwnerByLetters(db.mailboxes[row.id].owner, email);
  }

  /** The display name a manifest carries: trimmed and not empty. */
  predicate NameCarried(displayName: Option<string>) {
    displayName.Some? ==> displayName.value != "" && Trimmed(displayName.value)
  }

  /** What the POST leaves of a mailbox nobody held. */
  lemma CreatedInPlace(before: Db, after: Db, minted: string, address: string, displayName: Option<string>,
                       owner: string, email: Option<string>, state: AliasState)
    requires Healthy(before) && minted !in before.mailboxes && IsCanonical(address)
    requires (forall m :: !Holds(before, m, address)) && NameCarried(displayName)
    requires after.mailboxes == before.mailboxes[
               minted := MailboxRow(address, displayName, true, Some(Canonical(owner)))]
    requires after.domains == before.domains
    requires AliasReport(after.domains, before.aliases, minted, address, state)
    requires AliasEnsured(after, before.aliases, minted, address, state)
    ensures MailboxInPlace(after, address, displayName, email) <==>
            Provisionable(before, address, owner, email)
  {
    assert Holds(after, minted, address);
    assert forall n | Holds(after, n, address) :: n == minted || Holds(before, n, address);
    ReadyIsInPlace(after, minted, address, displayName, email);
    CanonicalSettles(address);
    if address in before.aliases {
      assert before.aliases[address].mailbox in before.mailboxes;
    }
  }

  /** What the POST and the PATCH leave of a mailbox that was only incomplete. */
  lemma CompletedInPlace(before: Db, after: Db, m: string, address: string, displayName: Option<string>,
                         owner: string, email: Option<string>, state: AliasState)
    requires Healthy(before) && Holds(before, m, address) && IsCanonical(address)
    requires MailboxOutstanding(before, address, displayName, email)
    requires m in after.mailboxes && after.mailboxes == before.mailboxes[m := after.mailboxes[m]]
    requires after.mailboxes[m] == before.mailboxes[m].(displayName := after.mailboxes[m].displayName)
    requires displayName.Some? ==> after.mailboxes[m].displayName == displayName
    requires after.domains == before.domains
    requires if address in before.aliases then after.aliases == before.aliases
             else AliasReport(after.domains, before.aliases, m, address, state)
                  && AliasEnsured(after, before.aliases, m, address, state)
    ensures MailboxInPlace(after, address, displayName, email) <==>
            Provisionable(before, address, owner, email)
  {
    assert Holds(after, m, address);
    forall n | Holds(after, n, address) ensures n == m { assert Holds(before, n, address); }
    ReadyIsInPlace(after, m, address, displayName, email);
  }

  /** The alias first, then the name: neither undoes the other. */
  lemma StepsComplete(before: Db, mid: Db, after: Db, m: string, address: string,
                      displayName: Option<string>, owner: string, email: Option<string>, state: AliasState)
    requires Healthy(before) && Holds(before, m, address) && IsCanonical(address)
    requires MailboxOutstanding(before, address, displayName, email)
    requires mid.domains == before.domains && mid.mailboxes == before.mailboxes
    requires if address in before.aliases then mid.aliases == before.aliases
             else AliasReport(mid.domains, before.aliases, m, address, state)
                  && AliasEnsured(mid, before.aliases, m, address, state)
    requires after.domains == mid.domains && after.aliases == mid.aliases
    requires if displayName.Some? && mid.mailboxes[m].displayName != displayName
             then after.mailboxes == mid.mailboxes[m := mid.mailboxes[m].(displayName := displayName)]
             else after.mailboxes == mid.mailboxes
    ensures MailboxInPlace(after, address, displayName, email) <==>
            Provisionable(before, address, owner, email)
  {
    assert mid.mailboxes == mid.mailboxes[m := mid.mailboxes[m]];
    CompletedInPlace(before, after, m, address, displayName, owner, email, state);
  }

  /** Apart from the mailbox holding the address, or minted for it, and the alias of the address, nothing changes. */
  ghost predicate OnlyMailbox(before: Db, after: Db, address: string, minted: string) {
    && after.domains == before.domains && after.rules == before.rules
    && (forall a | a != address :: a in after.aliases <==> a in before.aliases)
    && (forall a | a != address && a in before.aliases :: after.aliases[a] == before.aliases[a])
    && (forall m | m in before.mailboxes ::
          m in after.mailboxes
          && (after.mailboxes[m] == before.mailboxes[m]
              || (Holds(before, m, address) && after.mailboxes[m] ==
                    before.mailboxes[m].(displayName := after.mailboxes[m].displayName))))
    && (forall m | m in after.mailboxes && m !in before.mailboxes ::
          m == minted && Holds(after, m, address) && forall n :: !Holds(before, n, address))
  }

  lemma CreatedOnly(before: Db, after: Db, minted: string, address: string, row: MailboxRow, state: AliasState)
    requires minted !in before.mailboxes && row.address == address && forall m :: !Holds(before, m, address)
    requires after.mailboxes == before.mailboxes[minted := row]
    requires after.domains == before.domains && after.rules == before.rules
    requires AliasEnsured(after, before.aliases, minted, address, state)
    ensures OnlyMailbox(before, after, address, minted)
  {}

  lemma Created(before: Db, after: Db, minted: string, address: string, displayName: Option<string>,
                owner: string, email: Option<string>, state: AliasState)
    requires Healthy(before) && minted !in before.mailboxes && IsCanonical(address)
    requires (forall m :: !Holds(before, m, address)) && NameCarried(displayName)
    requires after.mailboxes == before.mailboxes[
               minted := MailboxRow(address, displayName, true, Some(Canonical(owner)))]
    requires after.domains == before.domains && after.rules == before.rules
    requires AliasReport(after.domains, before.aliases, minted, address, state)
    requires AliasEnsured(after, before.aliases, minted, address, state)
    ensures MailboxInPlace(after, address, displayName, email) <==> Provisionable(before, address, owner, email)
    ensures OnlyMailbox(before, after, address, minted)
  {
    CreatedInPlace(before, after, minted, address, displayName, owner, email, state);
    CreatedOnly(before, after, minted, address, after.mailboxes[minted], state);
  }

  lemma CompletedOnly(before: Db, after: Db, m: string, address: string, minted: string, state: AliasState)
    requires Holds(before, m, address) && m in after.mailboxes
    requires after.mailboxes == before.mailboxes[m := after.mailboxes[m]]
    requires after.mailboxes[m] == before.mailboxes[m].(displayName := after.mailboxes[m].displayName)
    requires after.domains == before.domains && after.rules == before.rules
    requires after.aliases == before.aliases || AliasEnsured(after, before.aliases, m, address, state)
    ensures OnlyMailbox(before, after, address, minted)
  {}

  /** The mailbox rows once the calls were made: one more with all that was asked, or the holder renamed as asked. */
  ghost predicate RowsAsked(before: map<string, MailboxRow>, after: map<string, MailboxRow>, address: string,
                            displayName: Option<string>, owner: string, minted: string)
  {
    if forall m | m in before :: before[m].address != address then
      after == before[minted := MailboxRow(address, displayName, true, Some(Canonical(owner)))]
    else
      exists m :: m in before && before[m].address == address
        && after == before[m := if displayName.Some? then before[m].(displayName := displayName) else before[m]]
  }

  lemma UnheldAsked(db: Db, address: string, displayName: Option<string>, owner: string, minted: string)
    requires forall m :: !Holds(db, m, address)
    ensures var row := MailboxRow(address, displayName, true, Some(Canonical(owner)));
            RowsAsked(db.mailboxes, db.mailboxes[minted := row], address, displayName, owner, minted)
  {
    forall m | m in db.mailboxes ensures db.mailboxes[m].address != address { assert !Holds(db, m, address); }
  }

  /** POST an address nobody holds. */
  method Post(dir: Directory, address: string, displayName: Option<string>, owner: string, minted: string)
    returns (ghost state: AliasState)
    requires Healthy(dir.Tables()) && IsCanonical(address) && NameCarried(displayName)
    requires minted !in dir.mailboxes && minted != "" && forall m :: !Holds(dir.Tables(), m, address)
    modifies dir`mailboxes, dir`aliases
    ensures Healthy(dir.Tables())
    ensures dir.mailboxes == old(dir.mailboxes)[
              minted := MailboxRow(address, displayName, true, Some(Canonical(owner)))]
    ensures AliasReport(dir.domains, old(dir.aliases), minted, address, state)
    ensures AliasEnsured(dir.Tables(), old(dir.aliases), minted, address, state)
  {
    assert forall m | m in dir.mailboxes :: !Holds(dir.Tables(), m, address);
    CanonicalSettles(address);
    if displayName.Some? { TrimSettles(displayName.value); }
    var r := dir.CreateMailbox(address, displayName, owner, minted);
    state := r.value.2;
  }

  /** Create the mailbox nobody holds. */
  method ApplyCreate(dir: Directory, address: string, displayName: Option<string>, owner: string,
                     ghost email: Option<string>, minted: string)
    requires Healthy(dir.Tables()) && IsCanonical(address) && NameCarried(displayName)
    requires minted !in dir.mailboxes && minted != "" && forall m :: !Holds(dir.Tables(), m, address)
    modifies dir`mailboxes, dir`aliases
    ensures Healthy(dir.Tables())
    ensures OnlyMailbox(old(dir.Tables()), dir.Tables(), address, minted)
    ensures dir.mailboxes == old(dir.mailboxes)[
              minted := MailboxRow(address, displayName, true, Some(Canonical(owner)))]
    ensures MailboxInPlace(dir.Tables(), address, displayName, email) <==>
            Provisionable(old(dir.Tables()), address, owner, email)
  {
    ghost var before := dir.Tables();
    ghost var state := Post(dir, address, displayName, owner, minted);
    Created(before, dir.Tables(), minted, address, displayName, owner, email, state);
  }

  /** Repeat the POST of an address that is held: only its alias can change. */
  method Repost(dir: Directory, m: string, address: string, displayName: Option<string>, owner: string,
                minted: string)
    returns (ghost state: AliasState)
    requires Healthy(dir.Tables()) && IsCanonical(address) && NameCarried(displayName)
    requires minted !in dir.mailboxes && minted != "" && Holds(dir.Tables(), m, address)
    modifies dir`mailboxes, dir`aliases
    ensures Healthy(dir.Tables()) && dir.mailboxes == old(dir.mailboxes)
    ensures AliasReport(dir.domains, old(dir.aliases), m, address, state)
    ensures AliasEnsured(dir.Tables(), old(dir.aliases), m, address, state)
  {
    CanonicalSettles(address);
    if displayName.Some? { TrimSettles(displayName.value); }
    var r := dir.CreateMailbox(address, displayName, owner, minted);
    state := r.value.2;
  }

  method Rename(dir: Directory, m: string, displayName: Option<string>)
    requires Healthy(dir.Tables()) && m in dir.mailboxes && NameCarried(displayName) && displayName.Some?
    modifies dir`mailboxes
    ensures Healthy(dir.Tables())
    ensures dir.mailboxes == old(dir.mailboxes)[m := old(dir.mailboxes)[m].(displayName := displayName)]
  {
    TrimSettles(displayName.value);
    var r := dir.PatchMailbox(m, Some(displayName), None);
  }

  /** What was ensured of an alias does not depend on the mailboxes. */
  lemma EnsuredByTables(a: Db, b: Db, aliases: map<string, AliasRow>, m: string, address: string, state: AliasState)
    requires a.domains == b.domains && a.aliases == b.aliases
    ensures AliasEnsured(a, aliases, m, address, state) <==> AliasEnsured(b, aliases, m, address, state)
  {}

  lemma Completed(before: Db, mid: Db, after: Db, m: string, address: string, displayName: Option<string>,
                  owner: string, email: Option<string>, minted: string, state: AliasState)
    requires Healthy(before) && Holds(before, m, address) && IsCanonical(address)
    requires MailboxOutstanding(before, address, displayName, email)
    requires mid.domains == before.domains && mid.mailboxes == before.mailboxes
    requires if address in before.aliases then mid.aliases == before.aliases
             else AliasReport(mid.domains, before.aliases, m, address, state)
                  && AliasEnsured(mid, before.aliases, m, address, state)
    requires after.domains == mid.domains && after.aliases == mid.aliases && after.rules == before.rules
    requires if displayName.Some? && mid.mailboxes[m].displayName != displayName
             then after.mailboxes == mid.mailboxes[m := mid.mailboxes[m].(displayName := displayName)]
             else after.mailboxes == mid.mailboxes
    ensures MailboxInPlace(after, address, displayName, email) <==> Provisionable(before, address, owner, email)
    ensures OnlyMailbox(before, after, address, minted)
  {
    StepsComplete(before, mid, after, m, address, displayName, owner, email, state);
    assert mid.mailboxes == mid.mailboxes[m := mid.mailboxes[m]];
    EnsuredByTables(mid, after, before.aliases, m, address, state);
    CompletedOnly(before, after, m, address, minted, state);
  }

  /** Complete the mailbox that holds the address: its primary alias, then its display name. */
  method ApplyConverge(dir: Directory, plan: MailboxTodo, address: string, displayName: Option<string>,
                       owner: string, ghost email: Option<string>, minted: string)
    requires Healthy(dir.Tables()) && IsCanonical(address) && NameCarried(displayName)
    requires minted !in dir.mailboxes && minted != "" && plan.Converges?
    requires Holds(dir.Tables(), plan.mailbox, address)
    requires MailboxOutstanding(dir.Tables(), address, displayName, email)
    requires plan.repost == (address !in dir.aliases)
    requires plan.displayName == if displayName.Some? && dir.mailboxes[plan.mailbox].displayName != displayName
                                 then displayName else None
    modifies dir`mailboxes, dir`aliases
    ensures Healthy(dir.Tables())
    ensures OnlyMailbox(old(dir.Tables()), dir.Tables(), address, minted)
    ensures RowsAsked(old(dir.mailboxes), dir.mailboxes, address, displayName, owner, minted)
    ensures MailboxInPlace(dir.Tables(), address, displayName, email) <==>
            Provisionable(old(dir.Tables()), address, owner, email)
  {
    ghost var before := dir.Tables();
    ghost var state := NoDomainPart;
    var m := plan.mailbox;
    if plan.repost { state := Repost(dir, m, address, displayName, owner, minted); }
    ghost var mid := dir.Tables();
    if plan.displayName.Some? { Rename(dir, m, plan.displayName); }
    Completed(before, mid, dir.Tables(), m, address, displayName, owner, email, minted, state);
  }

  /** scripts/onboard.ts: decide, apply, decide again; done only when the second says `already`. */
  method MailboxStep(dir: Directory, address: string, displayName: Option<string>, owner: string,
                     email: Option<string>, mode: Mode, minted: string)
    returns (o: Outcome)
    requires Healthy(dir.Tables()) && IsCanonical(address) && NameCarried(displayName)
    requires minted !in dir.mailboxes && minted != ""
    modifies dir`mailboxes, dir`aliases
    ensures Healthy(dir.Tables())
    ensures o.Already? <==> MailboxInPlace(old(dir.Tables()), address, displayName, email)
    ensures o.Already? || o.Done? ==> MailboxInPlace(dir.Tables(), address, displayName, email)
    ensures MailboxOutstanding(old(dir.Tables()), address, displayName, email) ==>
              o == if mode.DryRun? then WouldDo
                   else if Provisionable(old(dir.Tables()), address, owner, email) then Done else Failed
    ensures !MailboxOutstanding(old(dir.Tables()), address, displayName, email) ==> o == Already || o == Blocked
    ensures mode.DryRun? || !(o.Done? || o.Failed?) ==> dir.Tables() == old(dir.Tables())
    ensures mode.Apply? && MailboxOutstanding(old(dir.Tables()), address, displayName, email) ==>
              RowsAsked(old(dir.mailboxes), dir.mailboxes, address, displayName, owner, minted)
    ensures OnlyMailbox(old(dir.Tables()), dir.Tables(), address, minted)
  {
    var decision := DecideNow(dir, address, displayName, email);
    if decision.InPlace? { return Already; }
    if decision.NotPossible? { return Blocked; }
    if mode.DryRun? { return WouldDo; }
    ghost var before := dir.Tables();
    if decision.plan.Create? {
      UnheldAsked(before, address, displayName, owner, minted);
      ApplyCreate(dir, address, displayName, owner, email, minted);
    } else {
      ApplyConverge(dir, decision.plan, address, displayName, owner, email, minted);
    }
    var after := DecideNow(dir, address, displayName, email);
    o := if after.InPlace? then Done else Failed;
  }

  method DecideNow(dir: Directory, address: string, displayName: Option<string>, email: Option<string>)
    returns (d: Decision<MailboxTodo>)
    requires Healthy(dir.Tables())
    ensures d == InPlace <==> MailboxInPlace(dir.Tables(), address, displayName, email)
    ensures d.Todo? <==> MailboxOutstanding(dir.Tables(), address, displayName, email)
    ensures d.Todo? && d.plan.Create? ==> forall m :: !Holds(dir.Tables(), m, address)
    ensures d.Todo? && d.plan.Converges? ==>
              && Holds(dir.Tables(), d.plan.mailbox, address)
              && d.plan.repost == (address !in dir.aliases)
              && d.plan.displayName == if displayName.Some? && dir.mailboxes[d.plan.mailbox].displayName != displayName
                                       then displayName else None
  {
    var mailboxes := ListMailboxes(dir.mailboxes);
    var aliases := ListAliases(dir.aliases);
    d := DecideMailbox(address, displayName, mailboxes, aliases, email);
    MailboxDecided(dir.Tables(), mailboxes, aliases, address, displayName, email);
    OutstandingDecided(dir.Tables(), mailboxes, aliases, address, displayName, email);
    MailboxFound(dir.Tables(), mailboxes, address);
    AliasFound(dir.Tables(), aliases, address);
  }

  /** An alias of a mailbox that exists, free to take, on a registered domain. */
  ghost predicate AliasAvailable(db: Db, address: string, alias: string) {
    && alias !in db.aliases && (exists m :: Holds(db, m, address))
    && DomainPart(alias).Some? && !NoSuchDomain(db.domains, alias)
  }

  method DecideAliasNow(dir: Directory, address: string, alias: string)
    returns (d: Decision<()>, id: Option<string>)
    requires Healthy(dir.Tables())
    ensures d == InPlace <==> AliasInPlace(dir.Tables(), address, alias)
    ensures d.Todo? <==> alias !in dir.aliases
    ensures match id
            case Some(m) => Holds(dir.Tables(), m, address)
            case None => forall m :: !Holds(dir.Tables(), m, address)
  {
    var mailboxes := ListMailboxes(dir.mailboxes);
    var aliases := ListAliases(dir.aliases);
    id := MailboxIdOf(mailboxes, address);
    d := DecideAlias(alias, id, aliases);
    MailboxFound(dir.Tables(), mailboxes, address);
    AliasFound(dir.Tables(), aliases, alias);
    AliasDecided(dir.Tables(), mailboxes, aliases, address, alias);
  }

  method PostAlias(dir: Directory, alias: string, id: string) returns (ok: bool)
    requires Healthy(dir.Tables()) && IsCanonical(alias) && id in dir.mailboxes && alias !in dir.aliases
    modifies dir`aliases
    ensures Healthy(dir.Tables())
    ensures ok <==> DomainPart(alias).Some? && !NoSuchDomain(dir.domains, alias)
    ensures ok ==> alias in dir.aliases && dir.aliases[alias].mailbox == id && dir.aliases[alias].active
                   && dir.aliases == old(dir.aliases)[alias := dir.aliases[alias]]
    ensures !ok ==> dir.aliases == old(dir.aliases)
  {
    CanonicalSettles(alias);
    var r := dir.CreateAlias(alias, id);
    ok := r.Ok?;
  }

  method AliasStep(dir: Directory, address: string, alias: string, mode: Mode) returns (o: Outcome)
    requires Healthy(dir.Tables()) && IsCanonical(alias)
    modifies dir`aliases
    ensures Healthy(dir.Tables())
    ensures o.Already? <==> AliasInPlace(old(dir.Tables()), address, alias)
    ensures o.Already? || o.Done? ==> AliasInPlace(dir.Tables(), address, alias)
    ensures alias in old(dir.aliases) && !AliasInPlace(old(dir.Tables()), address, alias) ==> o == Blocked
    ensures alias !in old(dir.aliases) ==>
              o == if mode.DryRun? then WouldDo
                   else if AliasAvailable(old(dir.Tables()), address, alias) then Done else Failed
    ensures mode.DryRun? || !o.Done? ==> dir.aliases == old(dir.aliases)
    ensures o.Done? ==> alias !in old(dir.aliases) && alias in dir.aliases
                        && dir.aliases == old(dir.aliases)[alias := dir.aliases[alias]]
  {
    var decision, id := DecideAliasNow(dir, address, alias);
    if decision.InPlace? { return Already; }
    if decision.NotPossible? { return Blocked; }
    if mode.DryRun? { return WouldDo; }
    if id.None? { return Failed; }
    var posted := PostAlias(dir, alias, id.value);
    if !posted { return Failed; }
    assert Holds(dir.Tables(), id.value, address);
    var after, _ := DecideAliasNow(dir, address, alias);
    o := if after.InPlace? then Done else Failed;
  }

  // ---------------------------------------------------------------- a whole pass

  datatype Request = Request(
    zone: string, zoneId: Option<string>, address: string, displayName: Option<string>,
    aliases: seq<string>)

  ghost predicate Asked(r: Request) {
    && IsCanonical(r.zone) && IsCanonical(r.address) && NameCarried(r.displayName)
    && forall i | 0 <= i < |r.aliases| :: IsCanonical(r.aliases[i])
  }

  /** Every control-plane decision of the manifest is `already`. */
  ghost predicate AllInPlace(db: Db, r: Request, email: Option<string>) {
    && DomainInPlace(db, r.zone, r.zoneId)
    && MailboxInPlace(db, r.address, r.displayName, email)
    && forall i | 0 <= i < |r.aliases| :: AliasInPlace(db, r.address, r.aliases[i])
  }

  predicate Met(o: Outcome) {
    o.Already? || o.Done?
  }

  lemma AliasAdded(before: Db, after: Db, alias: string, r: Request, email: Option<string>)
    requires alias !in before.aliases && alias in after.aliases
    requires after == before.(aliases := before.aliases[alias := after.aliases[alias]])
    ensures DomainInPlace(before, r.zone, r.zoneId) ==> DomainInPlace(after, r.zone, r.zoneId)
    ensures MailboxInPlace(before, r.address, r.displayName, email) ==>
              MailboxInPlace(after, r.address, r.displayName, email)
    ensures forall a | AliasInPlace(before, r.address, a) :: AliasInPlace(after, r.address, a)
  {
    if MailboxInPlace(before, r.address, r.displayName, email) {
      var m :| Holds(before, m, r.address) && MailboxReady(before, m, r.address, r.displayName, email);
      assert Holds(after, m, r.address) && MailboxReady(after, m, r.address, r.displayName, email);
    }
    forall a | AliasInPlace(before, r.address, a) ensures AliasInPlace(after, r.address, a) {
      var m :| Holds(before, m, r.address) && a in before.aliases && before.aliases[a].mailbox == m
               && before.aliases[a].active;
      assert Holds(after, m, r.address);
    }
  }

  /** The alias is in place or can be put there. */
  ghost predicate AliasFeasible(db: Db, address: string, alias: string) {
    AliasInPlace(db, address, alias) || AliasAvailable(db, address, alias)
  }

  ghost predicate SameFeasible(before: Db, after: Db, address: string) {
    forall a :: AliasFeasible(before, address, a) <==> AliasFeasible(after, address, a)
  }

  /** What the steps so far have put in place. */
  ghost predicate Progress(db: Db, r: Request, email: Option<string>, outcomes: seq<Outcome>) {
    && |outcomes| <= |r.aliases|
    && DomainInPlace(db, r.zone, r.zoneId) && MailboxInPlace(db, r.address, r.displayName, email)
    && NoneSkipped(outcomes, 0)
    && (forall i | 0 <= i < |outcomes| && Met(outcomes[i]) :: AliasInPlace(db, r.address, r.aliases[i]))
    && (forall i | 0 <= i < |outcomes| :: Met(outcomes[i]) <==> AliasFeasible(db, r.address, r.aliases[i]))
  }

  /** Taking one alias leaves every alias as feasible as it was. */
  lemma AliasTaken(before: Db, after: Db, address: string, alias: string)
    requires AliasAvailable(before, address, alias) && AliasInPlace(after, address, alias)
    requires after == before.(aliases := before.aliases[alias := after.aliases[alias]])
    ensures SameFeasible(before, after, address)
  {
    forall m ensures Holds(before, m, address) <==> Holds(after, m, address) {}
    forall a | a != alias ensures AliasFeasible(before, address, a) <==> AliasFeasible(after, address, a) {
      OtherAlias(before, after, address, alias, a);
    }
  }

  lemma OtherAlias(before: Db, after: Db, address: string, alias: string, a: string)
    requires a != alias && alias in after.aliases
    requires after == before.(aliases := before.aliases[alias := after.aliases[alias]])
    ensures AliasInPlace(before, address, a) <==> AliasInPlace(after, address, a)
    ensures AliasAvailable(before, address, a) <==> AliasAvailable(after, address, a)
  {
    if AliasInPlace(before, address, a) {
      assert Holds(after, before.aliases[a].mailbox, address);
    }
    if AliasInPlace(after, address, a) {
      assert Holds(before, after.aliases[a].mailbox, address);
    }
    if AliasAvailable(before, address, a) {
      var m :| Holds(before, m, address);
      assert Holds(after, m, address);
    }
    if AliasAvailable(after, address, a) {
      var m :| Holds(after, m, address);
      assert Holds(before, m, address);
    }
  }

  lemma ProgressOn(before: Db, after: Db, r: Request, email: Option<string>, outcomes: seq<Outcome>, o: Outcome)
    requires Progress(before, r, email, outcomes) && |outcomes| < |r.aliases|
    requires !o.Skipped?
    requires var alias := r.aliases[|outcomes|];
             && (Met(o) ==> AliasInPlace(after, r.address, alias))
             && (if o.Done? then alias !in before.aliases && alias in after.aliases
                      && after == before.(aliases := before.aliases[alias := after.aliases[alias]])
                 else after == before)
             && (o.Already? <==> AliasInPlace(before, r.address, alias))
             && (o.Done? <==> AliasAvailable(before, r.address, alias))
    ensures Progress(after, r, email, outcomes + [o]) && SameFeasible(before, after, r.address)
  {
    if o.Done? {
      AliasAdded(before, after, r.aliases[|outcomes|], r, email);
      AliasTaken(before, after, r.address, r.aliases[|outcomes|]);
    }
  }

  /** One alias step of a pass. */
  method AliasNext(dir: Directory, r: Request, ghost email: Option<string>, outcomes: seq<Outcome>)
    returns (o: Outcome)
    requires Healthy(dir.Tables()) && Asked(r) && |outcomes| < |r.aliases|
    requires Progress(dir.Tables(), r, email, outcomes)
    modifies dir`aliases
    ensures Healthy(dir.Tables()) && Progress(dir.Tables(), r, email, outcomes + [o])
    ensures SameFeasible(old(dir.Tables()), dir.Tables(), r.address)
    ensures AllInPlace(old(dir.Tables()), r, email) ==> dir.aliases == old(dir.aliases) && o.Already?
  {
    ghost var before := dir.Tables();
    o := AliasStep(dir, r.address, r.aliases[|outcomes|], Apply);
    ProgressOn(before, dir.Tables(), r, email, outcomes, o);
  }

  /** The alias steps, one after another. */
  method AliasPass(dir: Directory, r: Request, ghost email: Option<string>) returns (outcomes: seq<Outcome>)
    requires Healthy(dir.Tables()) && Asked(r) && Progress(dir.Tables(), r, email, [])
    modifies dir`aliases
    ensures Healthy(dir.Tables()) && |outcomes| == |r.aliases|
    ensures Progress(dir.Tables(), r, email, outcomes)
    ensures SameFeasible(old(dir.Tables()), dir.Tables(), r.address)
    ensures AllInPlace(old(dir.Tables()), r, email) ==>
              dir.aliases == old(dir.aliases) && AllAlready(outcomes)
  {
    outcomes := [];
    ghost var start := dir.Tables();
    while |outcomes| < |r.aliases|
      invariant Healthy(dir.Tables()) && |outcomes| <= |r.aliases|
      invariant Progress(dir.Tables(), r, email, outcomes)
      invariant SameFeasible(start, dir.Tables(), r.address)
      invariant AllInPlace(start, r, email) ==>
                  dir.aliases == start.aliases && AllAlready(outcomes)
    {
      assert dir.aliases == start.aliases ==> dir.Tables() == start;
      ghost var before := dir.Tables();
      var o := AliasNext(dir, r, email, outcomes);
      FeasibleOn(start, before, dir.Tables(), r.address);
      outcomes := outcomes + [o];
    }
  }

  lemma FeasibleOn(a: Db, b: Db, c: Db, address: string)
    requires SameFeasible(a, b, address) && SameFeasible(b, c, address)
    ensures SameFeasible(a, c, address)
  {}

  ghost predicate AllMet(outcomes: seq<Outcome>) {
    forall i | 0 <= i < |outcomes| :: Met(outcomes[i])
  }

  ghost predicate AllAlready(outcomes: seq<Outcome>) {
    forall i | 0 <= i < |outcomes| :: outcomes[i].Already?
  }

  lemma Prepended(o: Outcome, rest: seq<Outcome>)
    ensures AllMet([o] + rest) <==> Met(o) && AllMet(rest)
    ensures AllAlready([o] + rest) <==> o.Already? && AllAlready(rest)
    ensures forall i | 0 <= i < |rest| :: ([o] + rest)[i + 1] == rest[i]
  {
    var all := [o] + rest;
    assert all[0] == o && forall i | 0 <= i < |rest| :: all[i + 1] == rest[i];
  }

  // ---------------------------------------------------------------- what one pass can put in place

  /** The address's domain is registered and active, or is the zone, which by then is. */
  ghost predicate Serves(db: Db, zone: string, address: string) {
    DomainPart(address).Some? && (DomainPart(address).value == zone || DomainServes(db, address))
  }

  ghost predicate Registered(db: Db, zone: string, address: string) {
    DomainPart(address).Some? && (DomainPart(address).value == zone || !NoSuchDomain(db.domains, address))
  }

  /** Nobody holds the address and it can be given to the owner, or its holder can be completed. */
  ghost predicate MailboxPossible(db: Db, r: Request, owner: string, email: Option<string>) {
    if forall m :: !Holds(db, m, r.address) then
      r.address !in db.aliases && Serves(db, r.zone, r.address) && OwnedAs(Some(Canonical(owner)), email)
    else
      forall m | Holds(db, m, r.address) ::
        && db.mailboxes[m].active && OwnedAs(db.mailboxes[m].owner, email)
        && if r.address in db.aliases then db.aliases[r.address].mailbox == m && db.aliases[r.address].active
           else Serves(db, r.zone, r.address)
  }

  /** The alias is the address itself, or already the mailbox's own, or free and on a registered domain. */
  ghost predicate AliasPossible(db: Db, r: Request, alias: string) {
    || alias == r.address
    || if alias in db.aliases then AliasInPlace(db, r.address, alias) else Registered(db, r.zone, alias)
  }

  ghost predicate Attainable(db: Db, r: Request, owner: string, email: Option<string>) {
    MailboxPossible(db, r, owner, email) && forall i | 0 <= i < |r.aliases| :: AliasPossible(db, r, r.aliases[i])
  }

  /** The tables from which one applied pass meets every step. */
  ghost predicate Feasible(db: Db, r: Request, owner: string, email: Option<string>) {
    && (DomainInPlace(db, r.zone, r.zoneId) || (r.zoneId.Some? && Unregistered(db, r.zone)))
    && Attainable(db, r, owner, email)
  }

  lemma ZoneServes(db: Db, zone: string, zoneId: Option<string>, address: string)
    requires DomainInPlace(db, zone, zoneId)
    ensures Serves(db, zone, address) <==> DomainServes(db, address)
    ensures Registered(db, zone, address) <==> DomainPart(address).Some? && !NoSuchDomain(db.domains, address)
  {}

  lemma MailboxMetIff(db: Db, r: Request, owner: string, email: Option<string>)
    requires Healthy(db) && DomainInPlace(db, r.zone, r.zoneId)
    ensures MailboxPossible(db, r, owner, email) <==>
              (MailboxInPlace(db, r.address, r.displayName, email)
               || (MailboxOutstanding(db, r.address, r.displayName, email)
                   && Provisionable(db, r.address, owner, email)))
  {
    ZoneServes(db, r.zone, r.zoneId, r.address);
    if m :| Holds(db, m, r.address) {
      assert forall n | Holds(db, n, r.address) :: n == m;
      ReadyIsInPlace(db, m, r.address, r.displayName, email);
    }
  }

  /** Once the mailbox step is met, the aliases that can be put in place are those that could from the start. */
  lemma AliasPossibleIff(before: Db, after: Db, r: Request, email: Option<string>, minted: string, alias: string)
    requires Healthy(before) && Healthy(after) && DomainInPlace(before, r.zone, r.zoneId) && minted !in before.mailboxes
    requires OnlyMailbox(before, after, r.address, minted)
    requires MailboxInPlace(after, r.address, r.displayName, email)
    ensures AliasFeasible(after, r.address, alias) <==> AliasPossible(before, r, alias)
  {
    ZoneServes(before, r.zone, r.zoneId, alias);
    var m :| Holds(after, m, r.address) && MailboxReady(after, m, r.address, r.displayName, email);
    if alias == r.address {
      assert AliasInPlace(after, r.address, alias);
    } else if alias in before.aliases {
      HeldAlias(before, after, r.address, minted, alias);
    } else {
      assert alias !in after.aliases;
    }
  }

  lemma HeldAlias(before: Db, after: Db, address: string, minted: string, alias: string)
    requires Healthy(before) && minted !in before.mailboxes && OnlyMailbox(before, after, address, minted)
    requires alias != address && alias in before.aliases
    ensures AliasFeasible(after, address, alias) <==> AliasInPlace(before, address, alias)
  {
    var holder := before.aliases[alias].mailbox;
    assert alias in after.aliases && holder in before.mailboxes && after.aliases[alias] == before.aliases[alias];
    assert Holds(before, holder, address) <==> Holds(after, holder, address);
  }

  lemma AllMetIff(before: Db, mid: Db, after: Db, r: Request, owner: string, email: Option<string>, minted: string,
                  outcomes: seq<Outcome>)
    requires Healthy(before) && Healthy(mid) && DomainInPlace(before, r.zone, r.zoneId) && minted !in before.mailboxes
    requires OnlyMailbox(before, mid, r.address, minted) && MailboxInPlace(mid, r.address, r.displayName, email)
    requires SameFeasible(mid, after, r.address)
    requires Progress(after, r, email, outcomes) && |outcomes| == |r.aliases|
    ensures AllMet(outcomes) <==> forall i | 0 <= i < |r.aliases| :: AliasPossible(before, r, r.aliases[i])
  {
    forall i | 0 <= i < |outcomes| ensures Met(outcomes[i]) <==> AliasPossible(before, r, r.aliases[i]) {
      AliasPossibleIff(before, mid, r, email, minted, r.aliases[i]);
      assert AliasFeasible(mid, r.address, r.aliases[i]) <==> AliasFeasible(after, r.address, r.aliases[i]);
    }
  }

  lemma ZoneMailbox(before: Db, after: Db, r: Request, owner: string, email: Option<string>)
    requires after == before.(domains := after.domains)
    requires Serves(after, r.zone, r.address) <==> Serves(before, r.zone, r.address)
    ensures MailboxPossible(after, r, owner, email) <==> MailboxPossible(before, r, owner, email)
  {
    assert forall m :: Holds(after, m, r.address) <==> Holds(before, m, r.address);
  }

  lemma ZoneAlias(before: Db, after: Db, r: Request, alias: string)
    requires after == before.(domains := after.domains)
    requires Registered(after, r.zone, alias) <==> Registered(before, r.zone, alias)
    ensures AliasPossible(after, r, alias) <==> AliasPossible(before, r, alias)
  {
    assert forall m :: Holds(after, m, r.address) <==> Holds(before, m, r.address);
  }

  /** Registering the zone makes nothing else possible, and nothing impossible. */
  lemma ZoneAdded(before: Db, after: Db, r: Request, owner: string, email: Option<string>, minted: string)
    requires minted !in before.domains && r.zoneId.Some?
    requires after == before.(domains := before.domains[minted := DomainRow(r.zone, r.zoneId.value, DomainActive)])
    ensures Attainable(after, r, owner, email) <==> Attainable(before, r, owner, email)
  {
    ServesSame(before, after, r.zone, r.address, minted);
    ZoneMailbox(before, after, r, owner, email);
    forall i | 0 <= i < |r.aliases|
      ensures AliasPossible(after, r, r.aliases[i]) <==> AliasPossible(before, r, r.aliases[i])
    {
      ServesSame(before, after, r.zone, r.aliases[i], minted);
      ZoneAlias(before, after, r, r.aliases[i]);
    }
  }

  lemma ServesSame(before: Db, after: Db, zone: string, a: string, minted: string)
    requires minted !in before.domains && minted in after.domains && after.domains[minted].name == zone
    requires after.domains == before.domains[minted := after.domains[minted]]
    ensures Serves(after, zone, a) <==> Serves(before, zone, a)
    ensures Registered(after, zone, a) <==> Registered(before, zone, a)
  {
    if DomainPart(a).Some? && DomainPart(a).value != zone {
      forall d | d in after.domains && after.domains[d].name == DomainPart(a).value
        ensures d in before.domains && before.domains[d] == after.domains[d]
      {
        assert d != minted;
      }
      assert forall d | d in before.domains :: d in after.domains && after.domains[d] == before.domains[d];
    }
  }

  ghost predicate AllSkipped(outcomes: seq<Outcome>, from: nat, dep: string) {
    forall i | from <= i < |outcomes| :: outcomes[i] == Skipped([dep])
  }

  ghost predicate NoneSkipped(outcomes: seq<Outcome>, from: nat) {
    forall i | from <= i < |outcomes| :: !outcomes[i].Skipped?
  }

  /** The mailbox step and, if it is met, the alias steps. */
  method MailboxPass(dir: Directory, r: Request, owner: string, email: Option<string>, minted: string)
    returns (outcomes: seq<Outcome>)
    requires Healthy(dir.Tables()) && Asked(r) && DomainInPlace(dir.Tables(), r.zone, r.zoneId)
    requires minted !in dir.mailboxes && minted != ""
    modifies dir`mailboxes, dir`aliases
    ensures Healthy(dir.Tables()) && |outcomes| == 1 + |r.aliases| && !outcomes[0].Skipped?
    ensures if Met(outcomes[0]) then NoneSkipped(outcomes, 1) else AllSkipped(outcomes, 1, "mailbox")
    ensures AllMet(outcomes) ==> AllInPlace(dir.Tables(), r, email)
    ensures AllMet(outcomes) <==> Attainable(old(dir.Tables()), r, owner, email)
    ensures AllInPlace(old(dir.Tables()), r, email) ==>
              dir.mailboxes == old(dir.mailboxes) && dir.aliases == old(dir.aliases) && AllAlready(outcomes)
  {
    ghost var before := dir.Tables();
    var mailbox := MailboxStep(dir, r.address, r.displayName, owner, email, Apply, minted);
    MailboxMetIff(before, r, owner, email);
    if !Met(mailbox) {
      outcomes := [mailbox] + seq(|r.aliases|, _ => Skipped(["mailbox"]));
      assert !Met(outcomes[0]);
      return;
    }
    ghost var mid := dir.Tables();
    var rest := AliasPass(dir, r, email);
    AllMetInPlace(dir.Tables(), r, email, rest);
    AllMetIff(before, mid, dir.Tables(), r, owner, email, minted, rest);
    Prepended(mailbox, rest);
    outcomes := [mailbox] + rest;
  }

  lemma AllMetInPlace(db: Db, r: Request, email: Option<string>, outcomes: seq<Outcome>)
    requires Progress(db, r, email, outcomes) && |outcomes| == |r.aliases|
    ensures AllMet(outcomes) ==> AllInPlace(db, r, email)
  {}

  /**
   * The domain, mailbox and alias steps of one applied run, each skipped unless what it needs was
   * met. All are met exactly from feasible tables, and then every decision is now `already`; and when every
   * decision was `already` nothing is written.
   */
  method Onboard(dir: Directory, r: Request, owner: string, email: Option<string>,
                 mintedDomain: string, mintedMailbox: string)
    returns (outcomes: seq<Outcome>)
    requires Healthy(dir.Tables()) && Asked(r) && mintedDomain !in dir.domains
    requires mintedMailbox !in dir.mailboxes && mintedMailbox != ""
    modifies dir`domains, dir`mailboxes, dir`aliases
    ensures Healthy(dir.Tables()) && |outcomes| == 2 + |r.aliases|
    ensures Met(outcomes[0]) <==> !outcomes[1].Skipped?
    ensures outcomes[1].Skipped? ==> outcomes[1] == Skipped(["domain"])
    ensures if Met(outcomes[1]) then NoneSkipped(outcomes, 2) else AllSkipped(outcomes, 2, "mailbox")
    ensures AllMet(outcomes) ==> AllInPlace(dir.Tables(), r, email)
    ensures AllMet(outcomes) <==> Feasible(old(dir.Tables()), r, owner, email)
    ensures AllInPlace(old(dir.Tables()), r, email) ==>
              dir.Tables() == old(dir.Tables()) && AllAlready(outcomes)
  {
    ghost var before := dir.Tables();
    var domain := DomainStep(dir, r.zone, r.zoneId, Apply, mintedDomain);
    if domain.Done? { ZoneAdded(before, dir.Tables(), r, owner, email, mintedDomain); }
    var rest := [Skipped(["domain"])] + seq(|r.aliases|, _ => Skipped(["mailbox"]));
    if Met(domain) { rest := MailboxPass(dir, r, owner, email, mintedMailbox); }
    Prepended(domain, rest);
    outcomes := [domain] + rest;
  }
}
