/**
 * src/db/d1.ts: the control-plane tables and how a recipient is routed through them.
 */
module Routing {
  import opened Common
  import opened Text

  // ---------------------------------------------------------------- tables

  datatype DomainStatus = Pending | DomainActive | DomainDisabled

  datatype DomainRow = DomainRow(name: string, zone: string, status: DomainStatus)

  datatype MailboxRow = MailboxRow(
    address: string, displayName: Option<string>, active: bool, owner: Option<string>)

  datatype AliasRow = AliasRow(mailbox: string, domain: string, active: bool)

  datatype RuleAction = StoreRule | ForwardRule | RejectRule

  datatype RuleRow = RuleRow(
    id: string, domain: string, pattern: string, priority: nat, action: RuleAction,
    mailbox: Option<string>, forwardTo: seq<string>, reason: Option<string>, enabled: bool)

  /** Domains and mailboxes by id, aliases by address, rules in insertion order. */
  datatype Db = Db(
    domains: map<string, DomainRow>, mailboxes: map<string, MailboxRow>,
    aliases: map<string, AliasRow>, rules: seq<RuleRow>)

  /** What the schema enforces: keys, UNIQUE columns and foreign keys. */
  ghost predicate Constrained(db: Db) {
    && (forall d, e | d in db.domains && e in db.domains && db.domains[d].name == db.domains[e].name :: d == e)
    && (forall m, n | m in db.mailboxes && n in db.mailboxes
                      && db.mailboxes[m].address == db.mailboxes[n].address :: m == n)
    && (forall a | a in db.aliases :: db.aliases[a].mailbox in db.mailboxes && db.aliases[a].domain in db.domains)
    && RulesConstrained(db)
  }

  ghost predicate RulesConstrained(db: Db) {
    && (forall i | 0 <= i < |db.rules| :: db.rules[i].domain in db.domains && MailboxKnown(db, db.rules[i].mailbox))
    && (forall i, j | 0 <= i < j < |db.rules| :: db.rules[i].id != db.rules[j].id)
  }

  predicate MailboxKnown(db: Db, mailbox: Option<string>) {
    mailbox.Some? ==> mailbox.value in db.mailboxes
  }

  /** `address.split("@")[1]`, absent without an `@`. */
  function DomainPart(address: string): Option<string> {
    var parts := Split(address, '@');
    if |parts| > 1 && parts[1] != "" then Some(parts[1]) else None
  }

  function LocalPart(address: string): string {
    Split(address, '@')[0]
  }

  /** What the routes keep beyond the schema. */
  ghost predicate Sound(db: Db) {
    && "" !in db.mailboxes
    && (forall d | d in db.domains :: IsCanonical(db.domains[d].name))
    && (forall m | m in db.mailboxes :: IsCanonical(db.mailboxes[m].address))
    && (forall a | a in db.aliases :: AliasSound(db, a, db.aliases[a]))
    && (forall i | 0 <= i < |db.rules| :: RuleSound(db.rules[i]))
  }

  /** A canonical address on the domain its own spelling names. */
  ghost predicate AliasSound(db: Db, address: string, row: AliasRow) {
    && IsCanonical(address)
    && row.domain in db.domains && DomainPart(address) == Some(db.domains[row.domain].name)
  }

  /** A store rule names a mailbox, a forward rule has somewhere to forward to. */
  predicate RuleSound(r: RuleRow) {
    match r.action
    case StoreRule => r.mailbox.Some?
    case ForwardRule => r.forwardTo != []
    case RejectRule => true
  }

  // ---------------------------------------------------------------- resolution

  datatype Resolution =
    | Stored(mailbox: string, rule: Option<string>, alias: string)
    | Forwarded(targets: seq<string>, rule: Option<string>, alias: string)
    | Rejected(reason: string, rule: Option<string>, alias: string)

  ghost predicate MailboxActive(db: Db, mailbox: string) {
    mailbox in db.mailboxes && db.mailboxes[mailbox].active
  }

  ghost predicate DomainIsActive(db: Db, id: string) {
    id in db.domains && db.domains[id].status == DomainActive
  }

  /** The address has an active alias on an active domain. */
  ghost predicate AliasServes(db: Db, canonical: string) {
    && canonical in db.aliases
    && db.aliases[canonical].active && DomainIsActive(db, db.aliases[canonical].domain)
  }

  predicate Matches(pattern: string, canonical: string) {
    || pattern == "*" || pattern == LocalPart(canonical) || pattern == canonical
    || ("*@" <= pattern && EndsWith(canonical, pattern[1..]))
  }

  /** The part before the first `@`, or all of an address without one. */
  ghost predicate IsLocalPart(local: string, address: string) {
    '@' !in local && (address == local || (local <= address && address[|local|] == '@'))
  }

  /** The part after the first `@` and before the next, if there is one. */
  ghost predicate IsDomainPart(name: string, address: string) {
    name != "" && '@' !in name
    && exists local: string :: '@' !in local && |local| + 1 + |name| <= |address|
         && address[..|local| + 1 + |name|] == local + "@" + name
         && (|local| + 1 + |name| == |address| || address[|local| + 1 + |name|] == '@')
  }

  /** What a pattern matches: everything, a local part, one address, or every address of a domain. */
  ghost predicate MatchesPattern(pattern: string, address: string) {
    || pattern == "*" || pattern == address || IsLocalPart(pattern, address)
    || (|pattern| >= 2 && pattern[0] == '*' && pattern[1] == '@'
        && exists front :: front + pattern[1..] == address)
  }

  /** A string is a part free of the separator, which ends it or is followed by the separator. */
  lemma {:induction false} FirstPart(s: string, sep: char) returns (head: string, rest: string)
    ensures sep !in head
    ensures if sep in s then s == head + [sep] + rest && Split(s, sep) == [head] + Split(rest, sep)
            else s == head && Split(s, sep) == [head]
  {
    if sep !in s {
      SplitOfFree(s, sep);
      head, rest := s, "";
    } else {
      head, rest := AtFirst(s, sep);
      SplitAfterFree(head, sep, rest);
    }
  }

  lemma LocalPartMeans(local: string, address: string)
    ensures LocalPart(address) == local <==> IsLocalPart(local, address)
  {
    var head, rest := FirstPart(address, '@');
    if IsLocalPart(local, address) && '@' in address {
      assert local != address;
      assert address == local + ['@'] + address[|local| + 1..];
      PartAtFirst(local, head, address[|local| + 1..], rest, '@');
    }
  }

  lemma DomainPartIs(address: string)
    ensures DomainPart(address).Some? ==> IsDomainPart(DomainPart(address).value, address)
  {
    var head, rest := FirstPart(address, '@');
    if DomainPart(address).Some? {
      var name, tail := FirstPart(rest, '@');
      assert Split(address, '@')[1] == name;
      assert address[..|head| + 1 + |name|] == head + "@" + name;
    }
  }

  lemma IsTheDomainPart(name: string, address: string)
    requires IsDomainPart(name, address)
    ensures DomainPart(address) == Some(name)
  {
    var local: string :| '@' !in local && |local| + 1 + |name| <= |address|
         && address[..|local| + 1 + |name|] == local + "@" + name
         && (|local| + 1 + |name| == |address| || address[|local| + 1 + |name|] == '@');
    var n := |local| + 1 + |name|;
    if n == |address| {
      assert address == local + ['@'] + name;
      SplitAfterFree(local, '@', name);
      SplitOfFree(name, '@');
    } else {
      var rest := name + ['@'] + address[n + 1..];
      assert address == address[..n] + [address[n]] + address[n + 1..];
      assert address == local + ['@'] + rest;
      SplitAfterFree(local, '@', rest);
      SplitAfterFree(name, '@', address[n + 1..]);
    }
  }

  lemma DomainPartMeans(name: string, address: string)
    ensures DomainPart(address) == Some(name) <==> IsDomainPart(name, address)
  {
    DomainPartIs(address);
    if IsDomainPart(name, address) { IsTheDomainPart(name, address); }
  }

  lemma MatchesMeans(pattern: string, address: string)
    ensures Matches(pattern, address) <==> MatchesPattern(pattern, address)
  {
    LocalPartMeans(pattern, address);
    if "*@" <= pattern && EndsWith(address, pattern[1..]) {
      assert address[..|address| - |pattern[1..]|] + pattern[1..] == address;
    }
    if front :| |pattern| >= 2 && pattern[0] == '*' && pattern[1] == '@' && front + pattern[1..] == address {
      assert address[|front|..] == pattern[1..];
    }
  }

  /** A rule the scan stops at: a store rule without a mailbox is passed over. */
  ghost predicate Decisive(r: RuleRow) {
    r.action == StoreRule ==> r.mailbox.Some? && r.mailbox.value != ""
  }

  ghost predicate Applies(r: RuleRow, domain: string, canonical: string) {
    r.domain == domain && r.enabled && MatchesPattern(r.pattern, canonical)
  }

  /** Rule i comes before rule j: lower priority number, or inserted earlier. */
  ghost predicate Outranks(rules: seq<RuleRow>, i: int, j: int)
    requires 0 <= i < |rules| && 0 <= j < |rules|
  {
    rules[i].priority < rules[j].priority || (rules[i].priority == rules[j].priority && i < j)
  }

  /** The rule the scan stops at. */
  ghost predicate Picks(db: Db, domain: string, canonical: string, i: int) {
    && 0 <= i < |db.rules| && Applies(db.rules[i], domain, canonical) && Decisive(db.rules[i])
    && forall j | 0 <= j < |db.rules| && j != i && Applies(db.rules[j], domain, canonical)
                  && Decisive(db.rules[j]) :: Outranks(db.rules, i, j)
  }

  ghost function RuleOutcome(db: Db, r: RuleRow, canonical: string): Resolution
    requires Decisive(r)
  {
    match r.action
    case RejectRule =>
      Rejected(if r.reason.Some? then r.reason.value else "rejected_by_rule", Some(r.id), canonical)
    case ForwardRule => Forwarded(r.forwardTo, Some(r.id), canonical)
    case StoreRule =>
      if MailboxActive(db, r.mailbox.value) then Stored(r.mailbox.value, Some(r.id), canonical)
      else Rejected("mailbox_disabled", Some(r.id), canonical)
  }

  ghost predicate RuleResolves(db: Db, domain: string, canonical: string, o: Resolution) {
    || (exists i :: Picks(db, domain, canonical, i) && o == RuleOutcome(db, db.rules[i], canonical))
    || ((forall i :: !Picks(db, domain, canonical, i))
        && o == Rejected("unmatched_recipient", None, canonical))
  }

  ghost predicate DomainResolves(db: Db, name: string, canonical: string, o: Resolution) {
    if exists d :: d in db.domains && db.domains[d].name == name && DomainIsActive(db, d)
    then exists d :: d in db.domains && db.domains[d].name == name && DomainIsActive(db, d)
           && RuleResolves(db, d, canonical, o)
    else o == Rejected("unknown_domain", None, canonical)
  }

  /** Where mail for a canonical address goes: its active alias, else its domain's rules. */
  ghost predicate Resolves(db: Db, canonical: string, o: Resolution) {
    if AliasServes(db, canonical) then
      var mailbox := db.aliases[canonical].mailbox;
      o == if MailboxActive(db, mailbox) then Stored(mailbox, None, canonical)
           else Rejected("mailbox_disabled", None, canonical)
    else
      match DomainPart(canonical)
      case None => o == Rejected("invalid_recipient", None, canonical)
      case Some(name) => DomainResolves(db, name, canonical, o)
  }

  // ---------------------------------------------------------------- ORDER BY priority

  function InsertRank(rules: seq<RuleRow>, p: nat, ranked: seq<nat>): (r: seq<nat>)
    requires p < |rules| && forall k | 0 <= k < |ranked| :: ranked[k] < |rules|
    ensures forall q :: q in r <==> q == p || q in ranked
  {
    if ranked == [] then [p]
    else if rules[p].priority < rules[ranked[0]].priority then [p] + ranked
    else [ranked[0]] + InsertRank(rules, p, ranked[1..])
  }

  ghost predicate InRankOrder(rules: seq<RuleRow>, ranked: seq<nat>) {
    && (forall k | 0 <= k < |ranked| :: ranked[k] < |rules|)
    && (forall k, l | 0 <= k < l < |ranked| :: Outranks(rules, ranked[k], ranked[l]))
  }

  ghost predicate RankedBy(rules: seq<RuleRow>, domain: string, n: int, ranked: seq<nat>) {
    && n <= |rules|
    && (forall k | 0 <= k < |ranked| :: ranked[k] < n)
    && InRankOrder(rules, ranked)
    && (forall p | 0 <= p < n :: p in ranked <==> rules[p].domain == domain)
  }

  lemma {:induction false} InsertRankKeeps(rules: seq<RuleRow>, p: nat, ranked: seq<nat>)
    requires p < |rules| && InRankOrder(rules, ranked)
    requires forall k | 0 <= k < |ranked| :: ranked[k] < p
    ensures InRankOrder(rules, InsertRank(rules, p, ranked))
  {
    var r := InsertRank(rules, p, ranked);
    forall k | 0 <= k < |r| ensures r[k] < |rules| { assert r[k] in r; }
    if ranked == [] {
    } else if rules[p].priority < rules[ranked[0]].priority {
      forall l | 0 <= l < |ranked| ensures Outranks(rules, p, ranked[l]) {
        if l > 0 { assert Outranks(rules, ranked[0], ranked[l]); }
      }
    } else {
      var tail := ranked[1..];
      assert forall k, l | 0 <= k < l < |tail| :: Outranks(rules, tail[k], tail[l]);
      InsertRankKeeps(rules, p, tail);
      var rest := InsertRank(rules, p, tail);
      forall l | 0 <= l < |rest| ensures Outranks(rules, ranked[0], rest[l]) {
        assert rest[l] in rest;
        if rest[l] != p {
          var k :| 0 <= k < |tail| && tail[k] == rest[l];
          assert Outranks(rules, ranked[0], ranked[k + 1]);
        }
      }
    }
  }

  /** The domain's rules in the order the query returns them. */
  method RankRules(rules: seq<RuleRow>, domain: string) returns (ranked: seq<nat>)
    ensures RankedBy(rules, domain, |rules|, ranked)
  {
    ranked := [];
    for n := 0 to |rules|
      invariant RankedBy(rules, domain, n, ranked)
    {
      if rules[n].domain == domain {
        InsertRankKeeps(rules, n, ranked);
        ranked := InsertRank(rules, n, ranked);
        forall k | 0 <= k < |ranked| ensures ranked[k] < n + 1 {
          assert ranked[k] in ranked;
        }
      }
    }
  }

  // ---------------------------------------------------------------- the scan

  method DomainByName(db: Db, name: string) returns (id: Option<string>)
    ensures match id
            case Some(d) => d in db.domains && db.domains[d].name == name
            case None => forall d | d in db.domains :: db.domains[d].name != name
  {
    var named := set d | d in db.domains && db.domains[d].name == name;
    if named == {} {
      assert forall d | d in db.domains && db.domains[d].name == name :: d in named;
      return None;
    }
    var d :| d in named;
    id := Some(d);
  }

  method MailboxIsActive(db: Db, mailbox: string) returns (active: bool)
    ensures active <==> MailboxActive(db, mailbox)
  {
    active := mailbox in db.mailboxes && db.mailboxes[mailbox].active;
  }

  /** The mailbox of the address's alias, where both the alias and its domain are active. */
  method LookupActiveAlias(db: Db, canonical: string) returns (mailbox: Option<string>)
    ensures mailbox.Some? <==> AliasServes(db, canonical)
    ensures mailbox.Some? ==> mailbox.value == db.aliases[canonical].mailbox
  {
    if canonical !in db.aliases || !db.aliases[canonical].active { return None; }
    var row := db.aliases[canonical];
    if row.domain !in db.domains || db.domains[row.domain].status != DomainActive { return None; }
    mailbox := Some(row.mailbox);
  }

  /** The priority scan with its early return. */
  method ScanRules(db: Db, domain: string, canonical: string) returns (o: Resolution)
    ensures RuleResolves(db, domain, canonical, o)
  {
    var ranked := RankRules(db.rules, domain);
    for k := 0 to |ranked|
      invariant forall l | 0 <= l < k ::
                  !(Applies(db.rules[ranked[l]], domain, canonical) && Decisive(db.rules[ranked[l]]))
    {
      var rule := db.rules[ranked[k]];
      MatchesMeans(rule.pattern, canonical);
      if !rule.enabled || !Matches(rule.pattern, canonical) { continue; }
      if rule.action == RejectRule {
        PickedAt(db, domain, canonical, ranked, k);
        return Rejected(if rule.reason.Some? then rule.reason.value else "rejected_by_rule",
                        Some(rule.id), canonical);
      }
      if rule.action == ForwardRule {
        PickedAt(db, domain, canonical, ranked, k);
        return Forwarded(rule.forwardTo, Some(rule.id), canonical);
      }
      if rule.action == StoreRule && rule.mailbox.Some? && rule.mailbox.value != "" {
        PickedAt(db, domain, canonical, ranked, k);
        var active := MailboxIsActive(db, rule.mailbox.value);
        if !active {
          return Rejected("mailbox_disabled", Some(rule.id), canonical);
        }
        return Stored(rule.mailbox.value, Some(rule.id), canonical);
      }
    }
    forall i ensures !Picks(db, domain, canonical, i) {
      if 0 <= i < |db.rules| && db.rules[i].domain == domain { assert i in ranked; }
    }
    o := Rejected("unmatched_recipient", None, canonical);
  }

  lemma PickedAt(db: Db, domain: string, canonical: string, ranked: seq<nat>, k: nat)
    requires RankedBy(db.rules, domain, |db.rules|, ranked) && k < |ranked|
    requires forall l | 0 <= l < k ::
               !(Applies(db.rules[ranked[l]], domain, canonical) && Decisive(db.rules[ranked[l]]))
    requires Applies(db.rules[ranked[k]], domain, canonical) && Decisive(db.rules[ranked[k]])
    ensures Picks(db, domain, canonical, ranked[k])
  {}

  /** src/db/d1.ts: resolveRoutingForRecipient. */
  method ResolveRecipient(db: Db, recipient: string) returns (o: Resolution)
    requires Constrained(db)
    ensures Resolves(db, Canonical(recipient), o)
  {
    var canonical := Canonical(recipient);
    var alias := LookupActiveAlias(db, canonical);
    if alias.Some? {
      var active := MailboxIsActive(db, alias.value);
      if !active { return Rejected("mailbox_disabled", None, canonical); }
      return Stored(alias.value, None, canonical);
    }
    var name := DomainPart(canonical);
    if name.None? { return Rejected("invalid_recipient", None, canonical); }
    var domain := DomainByName(db, name.value);
    if domain.None? || db.domains[domain.value].status != DomainActive {
      return Rejected("unknown_domain", None, canonical);
    }
    o := ScanRules(db, domain.value, canonical);
  }

  // ---------------------------------------------------------------- what resolution guarantees

  lemma PicksUnique(db: Db, domain: string, canonical: string, i: int, j: int)
    requires Picks(db, domain, canonical, i) && Picks(db, domain, canonical, j)
    ensures i == j
  {}

  /** A recipient has one resolution. */
  lemma ResolutionUnique(db: Db, canonical: string, a: Resolution, b: Resolution)
    requires Constrained(db) && Resolves(db, canonical, a) && Resolves(db, canonical, b)
    ensures a == b
  {
    if !AliasServes(db, canonical) && DomainPart(canonical).Some? {
      forall i, j, d | Picks(db, d, canonical, i) && Picks(db, d, canonical, j) ensures i == j {
        PicksUnique(db, d, canonical, i, j);
      }
    }
  }

  /** The enabled matching rule no other outranks. */
  ghost predicate FirstMatching(db: Db, domain: string, canonical: string, i: int) {
    && 0 <= i < |db.rules| && Applies(db.rules[i], domain, canonical)
    && forall j | 0 <= j < |db.rules| && j != i && Applies(db.rules[j], domain, canonical) ::
         Outranks(db.rules, i, j)
  }

  /** Where the routes' invariant holds, the scan simply takes the first enabled matching rule. */
  lemma PicksFirstMatching(db: Db, domain: string, canonical: string, i: int)
    requires Sound(db) && Constrained(db)
    ensures Picks(db, domain, canonical, i) <==> FirstMatching(db, domain, canonical, i)
  {}

  /** Without it, a store rule that lost its mailbox is passed over in favour of a lower one. */
  lemma StrandedRulePassedOver() returns (db: Db, canonical: string)
    ensures Constrained(db) && !Sound(db)
    ensures FirstMatching(db, "d", canonical, 0) && Picks(db, "d", canonical, 1)
    ensures Resolves(db, canonical, Rejected("rejected_by_rule", Some("r1"), canonical))
  {
    canonical := "a@b.c";
    assert canonical == "a" + ['@'] + "b.c";
    SplitAfterFree("a", '@', "b.c");
    SplitOfFree("b.c", '@');
    assert DomainPart(canonical) == Some("b.c");
    db := StrandedWorld("d", "b.c", canonical, "r0", "r1");
  }

  lemma StrandedWorld(d: string, name: string, canonical: string, id0: string, id1: string) returns (db: Db)
    requires id0 != id1 && DomainPart(canonical) == Some(name)
    ensures Constrained(db) && !Sound(db)
    ensures FirstMatching(db, d, canonical, 0) && Picks(db, d, canonical, 1)
    ensures Resolves(db, canonical, Rejected("rejected_by_rule", Some(id1), canonical))
  {
    var r0 := RuleRow(id0, d, "*", 0, StoreRule, None, [], None, true);
    var r1 := RuleRow(id1, d, "*", 1, RejectRule, None, [], None, true);
    db := Db(map[d := DomainRow(name, "z", DomainActive)], map[], map[], [r0, r1]);
    assert !RuleSound(db.rules[0]);
    assert Picks(db, d, canonical, 1);
    assert RuleResolves(db, d, canonical, Rejected("rejected_by_rule", Some(id1), canonical));
    assert d in db.domains && db.domains[d].name == name && DomainIsActive(db, d);
  }

  /** Mail is stored only in an active mailbox, and only for an address on an active domain. */
  lemma StoredIsActive(db: Db, canonical: string, o: Resolution)
    requires Sound(db) && Constrained(db) && Resolves(db, canonical, o) && o.Stored?
    ensures MailboxActive(db, o.mailbox) && o.alias == canonical
    ensures DomainPart(canonical).Some?
    ensures exists d :: d in db.domains && db.domains[d].name == DomainPart(canonical).value
                        && DomainIsActive(db, d)
  {}

  /** src/db/d1.ts: the setup status's receivable count is not zero. */
  ghost predicate CanReceive(db: Db) {
    exists a | a in db.aliases ::
      db.aliases[a].active && MailboxActive(db, db.aliases[a].mailbox)
      && DomainIsActive(db, db.aliases[a].domain)
  }

  /** The setup status says "can receive" exactly when some recipient's mail is stored through an alias. */
  lemma CanReceiveIffStored(db: Db)
    requires Sound(db)
    ensures CanReceive(db) <==>
            exists r: string, mailbox :: Resolves(db, Canonical(r), Stored(mailbox, None, Canonical(r)))
  {
    if CanReceive(db) {
      var a :| a in db.aliases && db.aliases[a].active && MailboxActive(db, db.aliases[a].mailbox)
               && DomainIsActive(db, db.aliases[a].domain);
      assert AliasSound(db, a, db.aliases[a]);
      CanonicalSettles(a);
      assert Resolves(db, Canonical(a), Stored(db.aliases[a].mailbox, None, Canonical(a)));
    }
    if r: string, mailbox :| Resolves(db, Canonical(r), Stored(mailbox, None, Canonical(r))) {
      assert AliasServes(db, Canonical(r));
    }
  }
}
