/**
 * The onboarding manifest (scripts/lib/onboard-core.ts: validateManifest) and the step list built
 * from an accepted one (scripts/onboard.ts).
 */
module Manifest {
  import opened Common
  import opened StepEngine
  import SP = SendingPlan
  import opened Text

  datatype Subdomain = DefaultLabel | Named(name: string) | NoSubdomain

  datatype Store = Store(vault: string, title: string)

  /** A key entry; `policyIssues` counts the recipient rules the send path cannot parse. */
  datatype Key = Key(
    name: string, sender: string, listsTemplates: bool, policyIssues: nat, store: Option<Store>)

  /** A manifest its schema accepts: addresses are trimmed and lower-cased. */
  datatype Raw = Raw(
    zone: string, subdomain: Subdomain, apex: bool, dmarc: SP.Dmarc, address: string,
    aliases: seq<string>, templates: bool, telegram: bool, keys: seq<Key>)

  datatype Resolved = Resolved(
    zone: string, targets: seq<SP.Target>, address: string, aliases: seq<string>, templates: bool,
    telegram: bool, keys: seq<Key>)

  datatype ManifestError =
    | BadZone
    | BadSubdomain
    | NothingToProvision
    | BadDmarc(target: SP.Target)
    | AddressOffZone
    | AliasOffZone(alias: string)
    | AliasIsMailbox(alias: string)
    | AliasTwice(alias: string)
    | KeyNameTwice(key: string)
    | SenderOffPlan(key: string)
    | BadPolicy(key: string)
    | TemplatesMissing(key: string)
    | StoreTwice(key: string)

  /** `address.slice(address.lastIndexOf("@") + 1)`. */
  function DomainOf(address: string): string
    decreases |address|
  {
    if '@' !in address then address
    else DomainOf(AfterFirst(address, '@'))
  }

  function AfterFirst(s: string, c: char): (r: string)
    requires c in s
    ensures |r| < |s|
  {
    if s[0] == c then s[1..] else AfterFirst(s[1..], c)
  }

  // ---------------------------------------------------------------- validation

  function Requested(m: Raw): Option<string> {
    if m.subdomain.Named? then Some(m.subdomain.name) else None
  }

  /** The target of the subdomain asked for, or of the default one, if it makes a target. */
  ghost function Subtarget(m: Raw, zone: string): Option<SP.Target> {
    match m.subdomain
    case NoSubdomain => None
    case DefaultLabel => SP.ResolveTarget(zone, None, false)
    case Named(name) => SP.ResolveTarget(zone, Some(name), false)
  }

  /** The subdomain's target unless it is turned off, then the apex unless it is already named. */
  ghost function TargetsOf(m: Raw, zone: string): seq<SP.Target> {
    var sub, apex := Subtarget(m, zone), SP.Target(zone, None);
    (if sub.Some? then [sub.value] else []) + (if m.apex && sub != Some(apex) then [apex] else [])
  }

  method ResolveTargets(m: Raw, zone: string)
    returns (targets: seq<SP.Target>, errors: seq<ManifestError>)
    ensures targets == TargetsOf(m, zone)
    ensures forall i, j | 0 <= i < j < |targets| :: targets[i].SendingDomain() != targets[j].SendingDomain()
    ensures errors == [] <==> TargetsAccepted(m, zone)
    ensures forall e :: e in errors <==> TargetFault(m, zone, e)
  {
    targets, errors := [], [];
    var apex := SP.Target(zone, None);
    if m.subdomain != NoSubdomain {
      var sub := SP.ResolveTarget(zone, Requested(m), false);
      if sub.Some? {
        targets := [sub.value];
        SameDomain(sub.value, apex);
      } else {
        errors := [BadSubdomain];
      }
    }
    if m.apex && (targets == [] || targets[0].SendingDomain() != apex.SendingDomain()) {
      targets := targets + [apex];
    }
    if targets == [] && errors == [] { errors := [NothingToProvision]; }
  }

  ghost predicate TargetsAccepted(m: Raw, zone: string) {
    TargetsOf(m, zone) != [] && (m.subdomain != NoSubdomain ==> Subtarget(m, zone).Some?)
  }

  /** What can be wrong with the targets asked for. */
  ghost predicate TargetFault(m: Raw, zone: string, e: ManifestError) {
    match e
    case BadSubdomain => m.subdomain != NoSubdomain && Subtarget(m, zone).None?
    case NothingToProvision => m.subdomain == NoSubdomain && !m.apex
    case _ => false
  }

  lemma SameDomain(a: SP.Target, b: SP.Target)
    requires a.zone == b.zone && b.IsApex()
    ensures a.SendingDomain() == b.SendingDomain() <==> a == b
  {}

  /** One listed alias, after those kept so far. */
  method CheckAlias(zone: string, address: string, alias: string, aliases: seq<string>)
    returns (error: Option<ManifestError>)
    ensures error == if DomainOf(alias) != zone then Some(AliasOffZone(alias))
                     else if alias == address then Some(AliasIsMailbox(alias))
                     else if alias in aliases then Some(AliasTwice(alias)) else None
  {
    if DomainOf(alias) != zone { return Some(AliasOffZone(alias)); }
    if alias == address { return Some(AliasIsMailbox(alias)); }
    if alias in aliases { return Some(AliasTwice(alias)); }
    error := None;
  }

  method CheckAliases(zone: string, address: string, listed: seq<string>)
    returns (aliases: seq<string>, errors: seq<ManifestError>)
    ensures forall i | 0 <= i < |aliases| :: DomainOf(aliases[i]) == zone && aliases[i] != address
    ensures forall i, j | 0 <= i < j < |aliases| :: aliases[i] != aliases[j]
    ensures errors == [] <==> aliases == listed
    ensures forall e :: e in errors <==> AliasFault(zone, address, listed, e)
  {
    aliases, errors := [], [];
    for i := 0 to |listed|
      invariant |aliases| + |errors| == i
      invariant forall k, l | 0 <= k < l < |aliases| :: aliases[k] != aliases[l]
      invariant errors == [] ==> aliases == listed[..i]
      invariant forall a :: a in aliases <==> a in listed[..i] && DomainOf(a) == zone && a != address
      invariant forall e :: e in errors <==> AliasFault(zone, address, listed[..i], e)
    {
      var alias := listed[i];
      assert listed[..i + 1] == listed[..i] + [alias];
      NextAliasFault(zone, address, listed[..i], alias);
      var error := CheckAlias(zone, address, alias, aliases);
      if error.Some? { errors := errors + [error.value]; } else { aliases := aliases + [alias]; }
    }
    assert listed[..|listed|] == listed;
  }

  /** What is wrong with a listed alias: the first of three tests it fails. */
  ghost predicate AliasFault(zone: string, address: string, listed: seq<string>, e: ManifestError) {
    match e
    case AliasOffZone(a) => a in listed && DomainOf(a) != zone
    case AliasIsMailbox(a) => a in listed && DomainOf(a) == zone && a == address
    case AliasTwice(a) => Repeats(listed, a) && DomainOf(a) == zone && a != address
    case _ => false
  }

  ghost predicate Repeats(listed: seq<string>, a: string) {
    exists i, j :: 0 <= i < j < |listed| && listed[i] == a && listed[j] == a
  }

  lemma NextRepeats(listed: seq<string>, alias: string, a: string)
    ensures Repeats(listed + [alias], a) <==> Repeats(listed, a) || (alias == a && a in listed)
  {
    var all := listed + [alias];
    if i, j :| 0 <= i < j < |all| && all[i] == a && all[j] == a {
      if j == |listed| { assert listed[i] == a; } else { assert listed[i] == a && listed[j] == a; }
    }
    if i, j :| 0 <= i < j < |listed| && listed[i] == a && listed[j] == a { assert all[i] == a && all[j] == a; }
    if alias == a && a in listed {
      var i :| 0 <= i < |listed| && listed[i] == a;
      assert all[i] == a && all[|listed|] == a;
    }
  }

  lemma NextAliasFault(zone: string, address: string, listed: seq<string>, alias: string)
    ensures forall e :: AliasFault(zone, address, listed + [alias], e) <==>
              AliasFault(zone, address, listed, e)
              || (e == AliasOffZone(alias) && DomainOf(alias) != zone)
              || (e == AliasIsMailbox(alias) && DomainOf(alias) == zone && alias == address)
              || (e == AliasTwice(alias) && DomainOf(alias) == zone && alias != address && alias in listed)
  {
    forall a { NextRepeats(listed, alias, a); }
  }

  ghost predicate Offends(zone: string, address: string, listed: seq<string>) {
    || (exists i | 0 <= i < |listed| :: DomainOf(listed[i]) != zone || listed[i] == address)
    || (exists i, j | 0 <= i < j < |listed| :: listed[i] == listed[j])
  }

  lemma OffendsIff(zone: string, address: string, listed: seq<string>)
    ensures Offends(zone, address, listed) <==> exists e :: AliasFault(zone, address, listed, e)
  {
    if i :| 0 <= i < |listed| && (DomainOf(listed[i]) != zone || listed[i] == address) {
      var a := listed[i];
      assert AliasFault(zone, address, listed, if DomainOf(a) != zone then AliasOffZone(a) else AliasIsMailbox(a));
    } else if i, j :| 0 <= i < j < |listed| && listed[i] == listed[j] {
      assert Repeats(listed, listed[i]);
      assert AliasFault(zone, address, listed, AliasTwice(listed[i]));
    }
  }

  /** What one key entry must satisfy, given the entries before it. */
  ghost predicate KeyAccepted(keys: seq<Key>, i: int, sending: set<string>, templates: bool)
    requires 0 <= i < |keys|
  {
    var key := keys[i];
    && (forall j | 0 <= j < i :: keys[j].name != key.name)
    && DomainOf(key.sender) in sending
    && key.policyIssues == 0
    && (key.listsTemplates ==> templates)
    && (key.store.Some? ==> forall j | 0 <= j < i :: keys[j].store != key.store)
  }

  /** What is wrong with key entry i, by the name it is reported under. */
  ghost predicate KeyFault(keys: seq<Key>, i: int, sending: set<string>, templates: bool, e: ManifestError) {
    0 <= i < |keys| &&
    var key := keys[i];
    match e
    case KeyNameTwice(name) => name == key.name && exists j :: 0 <= j < i && keys[j].name == key.name
    case SenderOffPlan(name) => name == key.name && DomainOf(key.sender) !in sending
    case BadPolicy(name) => name == key.name && key.policyIssues > 0
    case TemplatesMissing(name) => name == key.name && key.listsTemplates && !templates
    case StoreTwice(name) =>
      name == key.name && key.store.Some? && exists j :: 0 <= j < i && keys[j].store == key.store
    case _ => false
  }

  lemma AcceptedIff(keys: seq<Key>, i: int, sending: set<string>, templates: bool)
    requires 0 <= i < |keys|
    ensures KeyAccepted(keys, i, sending, templates) <==> forall e :: !KeyFault(keys, i, sending, templates, e)
  {
    var name := keys[i].name;
    if forall e :: !KeyFault(keys, i, sending, templates, e) {
      assert !KeyFault(keys, i, sending, templates, KeyNameTwice(name));
      assert !KeyFault(keys, i, sending, templates, SenderOffPlan(name));
      assert !KeyFault(keys, i, sending, templates, BadPolicy(name));
      assert !KeyFault(keys, i, sending, templates, TemplatesMissing(name));
      assert !KeyFault(keys, i, sending, templates, StoreTwice(name));
    }
  }

  ghost predicate NamesOf(names: set<string>, stores: set<Store>, keys: seq<Key>, i: int)
    requires 0 <= i <= |keys|
  {
    && (forall n :: n in names <==> exists j | 0 <= j < i :: keys[j].name == n)
    && (forall s :: s in stores <==> exists j | 0 <= j < i :: keys[j].store == Some(s))
  }

  /** One key entry, after the names and stores of the entries before it. */
  method CheckKey(keys: seq<Key>, i: int, sending: set<string>, templates: bool, names: set<string>,
                  stores: set<Store>)
    returns (errors: seq<ManifestError>)
    requires 0 <= i < |keys| && NamesOf(names, stores, keys, i)
    ensures forall e :: e in errors <==> KeyFault(keys, i, sending, templates, e)
  {
    var key := keys[i];
    errors := [];
    if key.name in names { errors := errors + [KeyNameTwice(key.name)]; }
    if DomainOf(key.sender) !in sending { errors := errors + [SenderOffPlan(key.name)]; }
    if key.policyIssues > 0 { errors := errors + [BadPolicy(key.name)]; }
    if key.listsTemplates && !templates { errors := errors + [TemplatesMissing(key.name)]; }
    if key.store.Some? && key.store.value in stores { errors := errors + [StoreTwice(key.name)]; }
  }

  method CheckKeys(keys: seq<Key>, sending: set<string>, templates: bool)
    returns (errors: seq<ManifestError>)
    ensures forall e :: e in errors <==> exists i :: KeyFault(keys, i, sending, templates, e)
  {
    errors := [];
    var names: set<string>, stores: set<Store> := {}, {};
    for i := 0 to |keys|
      invariant NamesOf(names, stores, keys, i)
      invariant forall e :: e in errors <==> exists j :: j < i && KeyFault(keys, j, sending, templates, e)
    {
      var one := CheckKey(keys, i, sending, templates, names, stores);
      errors := errors + one;
      names := names + {keys[i].name};
      if keys[i].store.Some? { stores := stores + {keys[i].store.value}; }
    }
  }

  /** What validation establishes of an accepted manifest. */
  ghost predicate Coherent(r: Resolved) {
    && SP.ZoneShaped(r.zone) && r.targets != []
    && (forall i, j | 0 <= i < j < |r.targets| :: r.targets[i].SendingDomain() != r.targets[j].SendingDomain())
    && DomainOf(r.address) == r.zone
    && (forall i | 0 <= i < |r.aliases| :: DomainOf(r.aliases[i]) == r.zone && r.aliases[i] != r.address)
    && (forall i, j | 0 <= i < j < |r.aliases| :: r.aliases[i] != r.aliases[j])
    && (forall i | 0 <= i < |r.keys| :: KeyAccepted(r.keys, i, SendingDomains(r.targets), r.templates))
  }

  function SendingDomains(targets: seq<SP.Target>): set<string> {
    set t | t in targets :: t.SendingDomain()
  }

  predicate DmarcResolves(t: SP.Target, d: SP.Dmarc) {
    SP.ResolveDmarc(t, Some(d.policy), d.alignment, d.rua).Some?
  }

  /** A policy by name, which only a subdomain may leave out, and an alignment by name or none. */
  ghost predicate DmarcAccepted(t: SP.Target, d: SP.Dmarc) {
    && (if Trim(d.policy) == "" then t.sub.Some? else Lower(Trim(d.policy)) in {"none", "quarantine", "reject"})
    && (d.alignment.Some? && Trim(d.alignment.value) != "" ==>
          Lower(Trim(d.alignment.value)) in {"relaxed", "strict"})
  }

  lemma DmarcMeans(t: SP.Target, d: SP.Dmarc)
    ensures DmarcResolves(t, d) <==> DmarcAccepted(t, d)
  {}

  /** The cross-field rules, over the manifest as written. */
  ghost predicate Acceptable(m: Raw, zone: string) {
    && TargetsAccepted(m, zone)
    && (forall t | t in TargetsOf(m, zone) :: DmarcAccepted(t, m.dmarc))
    && DomainOf(m.address) == zone && !Offends(zone, m.address, m.aliases)
    && (forall i | 0 <= i < |m.keys| ::
          KeyAccepted(m.keys, i, SendingDomains(TargetsOf(m, zone)), m.templates))
  }

  /** What is wrong with a manifest of this zone. */
  ghost predicate Fault(m: Raw, zone: string, e: ManifestError) {
    || TargetFault(m, zone, e) || AliasFault(zone, m.address, m.aliases, e)
    || (exists t :: t in TargetsOf(m, zone) && !DmarcAccepted(t, m.dmarc) && e == BadDmarc(t))
    || (e == AddressOffZone && DomainOf(m.address) != zone)
    || (exists i :: KeyFault(m.keys, i, SendingDomains(TargetsOf(m, zone)), m.templates, e))
  }

  /** The refused DMARC plans of the first n targets. */
  ghost predicate DmarcFault(targets: seq<SP.Target>, d: SP.Dmarc, n: int, e: ManifestError) {
    exists j :: 0 <= j < n <= |targets| && !DmarcAccepted(targets[j], d) && e == BadDmarc(targets[j])
  }

  method CheckDmarc(targets: seq<SP.Target>, d: SP.Dmarc) returns (errors: seq<ManifestError>)
    ensures forall e :: e in errors <==> DmarcFault(targets, d, |targets|, e)
  {
    errors := [];
    for i := 0 to |targets|
      invariant forall e :: e in errors <==> DmarcFault(targets, d, i, e)
    {
      DmarcMeans(targets[i], d);
      if !DmarcResolves(targets[i], d) { errors := errors + [BadDmarc(targets[i])]; }
    }
  }

  lemma DmarcFaults(m: Raw, zone: string)
    ensures (forall t | t in TargetsOf(m, zone) :: DmarcAccepted(t, m.dmarc)) <==>
            forall e :: !DmarcFault(TargetsOf(m, zone), m.dmarc, |TargetsOf(m, zone)|, e)
  {
    var targets := TargetsOf(m, zone);
    if forall e :: !DmarcFault(targets, m.dmarc, |targets|, e) {
      forall t | t in targets ensures DmarcAccepted(t, m.dmarc) {
        var j :| 0 <= j < |targets| && targets[j] == t;
        assert !DmarcFault(targets, m.dmarc, |targets|, BadDmarc(t));
      }
    }
  }

  lemma TargetFaults(m: Raw, zone: string)
    ensures TargetsAccepted(m, zone) <==> forall e :: !TargetFault(m, zone, e)
  {
    if forall e :: !TargetFault(m, zone, e) {
      assert !TargetFault(m, zone, BadSubdomain) && !TargetFault(m, zone, NothingToProvision);
    }
  }

  lemma KeyFaults(keys: seq<Key>, sending: set<string>, templates: bool)
    ensures (forall i | 0 <= i < |keys| :: KeyAccepted(keys, i, sending, templates)) <==>
            forall e, i :: !KeyFault(keys, i, sending, templates, e)
  {
    if forall i | 0 <= i < |keys| :: KeyAccepted(keys, i, sending, templates) {
      forall e, i ensures !KeyFault(keys, i, sending, templates, e) {
        if 0 <= i < |keys| { AcceptedIff(keys, i, sending, templates); }
      }
    }
    if forall e, i :: !KeyFault(keys, i, sending, templates, e) {
      forall i | 0 <= i < |keys| ensures KeyAccepted(keys, i, sending, templates) {
        AcceptedIff(keys, i, sending, templates);
      }
    }
  }

  /** The rules are kept exactly when nothing is wrong. */
  lemma AcceptableIff(m: Raw, zone: string)
    ensures Acceptable(m, zone) <==> forall e :: !Fault(m, zone, e)
  {
    TargetFaults(m, zone);
    DmarcFaults(m, zone);
    OffendsIff(zone, m.address, m.aliases);
    KeyFaults(m.keys, SendingDomains(TargetsOf(m, zone)), m.templates);
    if forall e :: !Fault(m, zone, e) { assert !Fault(m, zone, AddressOffZone); }
    if !Acceptable(m, zone) { BrokenRule(m, zone); }
  }

  lemma BrokenRule(m: Raw, zone: string)
    requires !Acceptable(m, zone)
    ensures exists e :: Fault(m, zone, e)
  {
    TargetFaults(m, zone);
    DmarcFaults(m, zone);
    OffendsIff(zone, m.address, m.aliases);
    KeyFaults(m.keys, SendingDomains(TargetsOf(m, zone)), m.templates);
    var sending := SendingDomains(TargetsOf(m, zone));
    if e :| TargetFault(m, zone, e) || AliasFault(zone, m.address, m.aliases, e)
            || DmarcFault(TargetsOf(m, zone), m.dmarc, |TargetsOf(m, zone)|, e)
    {
      assert Fault(m, zone, e);
    } else if e, i :| KeyFault(m.keys, i, sending, m.templates, e) {
      assert Fault(m, zone, e);
    } else {
      assert Fault(m, zone, AddressOffZone);
    }
  }

  /** A manifest is accepted exactly when it breaks no rule, and refused for exactly the rules it breaks. */
  method Validate(m: Raw) returns (r: Result<Resolved, seq<ManifestError>>)
    ensures r.Ok? <==> SP.NormalizeZone(Some(m.zone)).Some?
                       && Acceptable(m, SP.NormalizeZone(Some(m.zone)).value)
    ensures r.Ok? ==> Coherent(r.value) && SP.NormalizeZone(Some(m.zone)) == Some(r.value.zone)
    ensures r.Ok? ==> r.value == Resolved(r.value.zone, TargetsOf(m, r.value.zone), m.address,
                                          m.aliases, m.templates, m.telegram, m.keys)
    ensures r.Err? ==> r.error != []
    ensures r.Err? && SP.NormalizeZone(Some(m.zone)).None? ==> r.error == [BadZone]
    ensures r.Err? && SP.NormalizeZone(Some(m.zone)).Some? ==>
              forall e :: e in r.error <==> Fault(m, SP.NormalizeZone(Some(m.zone)).value, e)
  {
    var zone := SP.NormalizeZone(Some(m.zone));
    if zone.None? { return Err([BadZone]); }
    var targets, errors, aliases := FindFaults(m, zone.value);
    AcceptableIff(m, zone.value);
    if errors != [] {
      assert errors[0] in errors;
      return Err(errors);
    }
    r := Ok(Resolved(zone.value, targets, m.address, aliases, m.templates, m.telegram, m.keys));
  }

  /** Every cross-field check, in order. */
  method FindFaults(m: Raw, zone: string)
    returns (targets: seq<SP.Target>, errors: seq<ManifestError>, aliases: seq<string>)
    ensures targets == TargetsOf(m, zone)
    ensures forall i, j | 0 <= i < j < |targets| :: targets[i].SendingDomain() != targets[j].SendingDomain()
    ensures forall e :: e in errors <==> Fault(m, zone, e)
    ensures errors == [] ==> aliases == m.aliases
    ensures errors == [] ==> forall i | 0 <= i < |aliases| :: DomainOf(aliases[i]) == zone && aliases[i] != m.address
    ensures errors == [] ==> forall i, j | 0 <= i < j < |aliases| :: aliases[i] != aliases[j]
  {
    targets, errors := ResolveTargets(m, zone);
    var dmarc := CheckDmarc(targets, m.dmarc);
    errors := errors + dmarc;
    if DomainOf(m.address) != zone { errors := errors + [AddressOffZone]; }
    var more, keyErrors;
    aliases, more := CheckAliases(zone, m.address, m.aliases);
    keyErrors := CheckKeys(m.keys, SendingDomains(targets), m.templates);
    errors := errors + more + keyErrors;
    ghost var refused := DmarcFaultsAre(m, zone);
  }

  lemma DmarcFaultsAre(m: Raw, zone: string) returns (targets: seq<SP.Target>)
    ensures targets == TargetsOf(m, zone)
    ensures forall e :: DmarcFault(targets, m.dmarc, |targets|, e) <==>
              exists t :: t in targets && !DmarcAccepted(t, m.dmarc) && e == BadDmarc(t)
  {
    targets := TargetsOf(m, zone);
    forall e ensures DmarcFault(targets, m.dmarc, |targets|, e) <==>
        exists t :: t in targets && !DmarcAccepted(t, m.dmarc) && e == BadDmarc(t)
    {
      if t :| t in targets && !DmarcAccepted(t, m.dmarc) && e == BadDmarc(t) {
        var j :| 0 <= j < |targets| && targets[j] == t;
      }
    }
  }

  // ---------------------------------------------------------------- the step list

  /** A step identifier of the form `kind:rest`. */
  function Tagged(kind: string, rest: string): string {
    kind + [':'] + rest
  }

  const CONFIG := Tagged("config", "MAIL_SENDING_DOMAINS")
  const DEPLOYED := Tagged("deployed", "MAIL_SENDING_DOMAINS")
  const ROUTING := Tagged("routing", "enable")
  const TOPIC := Tagged("telegram", "topic")

  function SendingStep(t: SP.Target, run: string -> RunEnd): Step {
    var id := Tagged("sending", t.SendingDomain());
    Step(id, [], run(id))
  }

  function RoutingStep(address: string, run: string -> RunEnd): Step {
    var id := Tagged("routing", address);
    Step(id, [ROUTING], run(id))
  }

  function AliasStep(alias: string, run: string -> RunEnd): Step {
    var id := Tagged("alias", alias);
    Step(id, ["mailbox"], run(id))
  }

  function KeyStep(key: Key, templates: bool, run: string -> RunEnd): Step {
    var id := Tagged("key", key.name);
    Step(id, ["mailbox"] + (if templates then ["templates"] else [])
             + [Tagged("sending", DomainOf(key.sender))], run(id))
  }

  function SendingSteps(ts: seq<SP.Target>, run: string -> RunEnd): seq<Step> {
    seq(|ts|, i requires 0 <= i < |ts| => SendingStep(ts[i], run))
  }

  function RoutingSteps(addresses: seq<string>, run: string -> RunEnd): seq<Step> {
    seq(|addresses|, i requires 0 <= i < |addresses| => RoutingStep(addresses[i], run))
  }

  function AliasSteps(aliases: seq<string>, run: string -> RunEnd): seq<Step> {
    seq(|aliases|, i requires 0 <= i < |aliases| => AliasStep(aliases[i], run))
  }

  function KeySteps(keys: seq<Key>, templates: bool, run: string -> RunEnd): seq<Step> {
    seq(|keys|, i requires 0 <= i < |keys| => KeyStep(keys[i], templates, run))
  }

  function ConfigSteps(ts: seq<SP.Target>, run: string -> RunEnd): seq<Step> {
    [Step(CONFIG, seq(|ts|, i requires 0 <= i < |ts| => Tagged("sending", ts[i].SendingDomain())), run(CONFIG)),
     Step(DEPLOYED, [CONFIG], run(DEPLOYED)),
     Step(ROUTING, [], run(ROUTING))]
  }

  function MailboxSteps(run: string -> RunEnd): seq<Step> {
    [Step("domain", [], run("domain")), Step("mailbox", ["domain"], run("mailbox"))]
  }

  function OptionalSteps(templates: bool, telegram: bool, run: string -> RunEnd): seq<Step> {
    (if templates then [Step("templates", ["mailbox"], run("templates"))] else [])
    + (if telegram then [Step(TOPIC, ["mailbox"], run(TOPIC))] else [])
  }

  /** scripts/onboard.ts: the steps in the order they run, whatever each of them would end with. */
  function Steps(r: Resolved, run: string -> RunEnd): seq<Step> {
    SendingSteps(r.targets, run) + ConfigSteps(r.targets, run)
    + RoutingSteps([r.address] + r.aliases, run) + MailboxSteps(run)
    + AliasSteps(r.aliases, run) + OptionalSteps(r.templates, r.telegram, run)
    + KeySteps(r.keys, r.templates, run)
  }

  // ---------------------------------------------------------------- the list is in order

  function Ids(steps: seq<Step>): set<string> {
    set s | s in steps :: s.id
  }

  ghost predicate IdsOnce(steps: seq<Step>) {
    forall i, j | 0 <= i < j < |steps| :: steps[i].id != steps[j].id
  }

  /** A stretch of steps that depends only on what came before it, and repeats no identifier. */
  ghost predicate Extends(before: seq<Step>, more: seq<Step>) {
    && (forall s, dep | s in more && dep in s.deps :: dep in Ids(before))
    && IdsOnce(more) && Ids(before) !! Ids(more)
  }

  lemma {:induction false} FoundEarlier(steps: seq<Step>, n: nat, id: string)
    requires n <= |steps| && id in Ids(steps[..n])
    ensures Latest(steps, n, id).Some?
  {}

  lemma OrderedOn(before: seq<Step>, more: seq<Step>)
    requires Ordered(before, |before|) && IdsOnce(before) && Extends(before, more)
    ensures Ordered(before + more, |before + more|) && IdsOnce(before + more)
  {
    var all := before + more;
    forall i, dep | 0 <= i < |all| && dep in all[i].deps ensures Latest(all, i, dep).Some? {
      if i < |before| {
        LatestInPrefix(before, more, i, dep);
      } else {
        assert all[i] == more[i - |before|] && dep in Ids(before);
        var s :| s in before && s.id == dep;
        assert all[..i] == before + more[..i - |before|] && s in all[..i];
        FoundEarlier(all, i, dep);
      }
    }
    forall i, j | 0 <= i < j < |all| ensures all[i].id != all[j].id {
      if i < |before| <= j {
        assert before[i] in before && more[j - |before|] in more;
        assert before[i].id in Ids(before) && more[j - |before|].id in Ids(more);
      }
    }
  }

  lemma {:induction false} LatestInPrefix(before: seq<Step>, more: seq<Step>, n: nat, id: string)
    requires n <= |before|
    ensures Latest(before + more, n, id) == Latest(before, n, id)
  {
    if n > 0 {
      assert (before + more)[n - 1] == before[n - 1];
      LatestInPrefix(before, more, n - 1, id);
    }
  }

  /** The place of a step's kind in the order of the list, told by its leading letters. */
  function RankOf(id: string): nat {
    if |id| < 3 then 10
    else if id[0] == 's' then 0
    else if id[0] == 'c' then 1
    else if id[0] == 'd' then (if id[1] == 'e' then 2 else 4)
    else if id[0] == 'r' then 3
    else if id[0] == 'm' then 5
    else if id[0] == 'a' then 6
    else if id[0] == 't' then (if id[2] == 'm' then 7 else 8)
    else if id[0] == 'k' then 9
    else 10
  }

  function Rank(s: Step): nat {
    RankOf(s.id)
  }

  lemma TaggedRank(kind: string, rest: string)
    requires |kind| >= 3
    ensures RankOf(Tagged(kind, rest)) == RankOf(kind)
  {}

  lemma TaggedInjective(kind: string, a: string, b: string)
    requires Tagged(kind, a) == Tagged(kind, b)
    ensures a == b
  {
    assert Tagged(kind, a)[|kind| + 1..] == a && Tagged(kind, b)[|kind| + 1..] == b;
  }

  /** A list in order whose steps all rank below n. */
  ghost predicate Good(steps: seq<Step>, n: nat) {
    && Ordered(steps, |steps|) && IdsOnce(steps)
    && forall s | s in steps :: Rank(s) < n
  }

  lemma AddSteps(before: seq<Step>, n: nat, more: seq<Step>)
    requires Good(before, n) && Extends(before, more) && forall s | s in more :: Rank(s) < n
    ensures Good(before + more, n) && Ids(before + more) == Ids(before) + Ids(more)
  {
    OrderedOn(before, more);
    assert Ids(before + more) == Ids(before) + Ids(more);
  }

  /** Steps of the next rank that depend only on earlier steps. */
  lemma AddRank(before: seq<Step>, n: nat, more: seq<Step>)
    requires Good(before, n) && IdsOnce(more) && forall s | s in more :: Rank(s) == n
    requires forall s, dep | s in more && dep in s.deps :: dep in Ids(before)
    ensures Good(before + more, n + 1) && Ids(before + more) == Ids(before) + Ids(more)
  {
    forall id | id in Ids(before) ensures RankOf(id) < n {
      var s :| s in before && s.id == id;
      assert Rank(s) < n;
    }
    forall id | id in Ids(more) ensures RankOf(id) == n {
      var s :| s in more && s.id == id;
      assert Rank(s) == n;
    }
    AddSteps(before, n + 1, more);
  }

  lemma AddStep(before: seq<Step>, n: nat, step: Step)
    requires Good(before, n) && Rank(step) == n
    requires forall dep | dep in step.deps :: dep in Ids(before)
    ensures Good(before + [step], n + 1) && Ids(before + [step]) == Ids(before) + {step.id}
  {
    AddRank(before, n, [step]);
    assert Ids([step]) == {step.id};
  }

  lemma SendingGood(ts: seq<SP.Target>, run: string -> RunEnd)
    requires forall i, j | 0 <= i < j < |ts| :: ts[i].SendingDomain() != ts[j].SendingDomain()
    ensures Good(SendingSteps(ts, run), 1)
    ensures forall t | t in ts :: Tagged("sending", t.SendingDomain()) in Ids(SendingSteps(ts, run))
  {
    var steps := SendingSteps(ts, run);
    forall i | 0 <= i < |ts| ensures Rank(steps[i]) == 0 {
      TaggedRank("sending", ts[i].SendingDomain());
    }
    forall i, j | 0 <= i < j < |ts| ensures steps[i].id != steps[j].id {
      if steps[i].id == steps[j].id {
        TaggedInjective("sending", ts[i].SendingDomain(), ts[j].SendingDomain());
      }
    }
    forall t | t in ts ensures Tagged("sending", t.SendingDomain()) in Ids(steps) {
      var i :| 0 <= i < |ts| && ts[i] == t;
      assert steps[i] in steps;
    }
  }

  lemma ConfigGood(before: seq<Step>, ts: seq<SP.Target>, run: string -> RunEnd)
    requires Good(before, 1)
    requires forall t | t in ts :: Tagged("sending", t.SendingDomain()) in Ids(before)
    ensures Good(before + ConfigSteps(ts, run), 4)
    ensures Ids(before + ConfigSteps(ts, run)) == Ids(before) + {CONFIG, DEPLOYED, ROUTING}
  {
    var c := ConfigSteps(ts, run);
    TaggedRank("config", "MAIL_SENDING_DOMAINS");
    TaggedRank("deployed", "MAIL_SENDING_DOMAINS");
    TaggedRank("routing", "enable");
    AddStep(before, 1, c[0]);
    AddStep(before + [c[0]], 2, c[1]);
    AddStep(before + [c[0]] + [c[1]], 3, c[2]);
    assert before + [c[0]] + [c[1]] + [c[2]] == before + c;
  }

  /** The address rules: no address is the word that names the enabling step. */
  lemma RoutingGood(before: seq<Step>, addresses: seq<string>, run: string -> RunEnd)
    requires Good(before, 4) && ROUTING in Ids(before)
    requires forall s | s in before && Rank(s) == 3 :: s.id == ROUTING
    requires forall i | 0 <= i < |addresses| :: addresses[i] != "enable"
    requires forall i, j | 0 <= i < j < |addresses| :: addresses[i] != addresses[j]
    ensures Good(before + RoutingSteps(addresses, run), 4)
    ensures Ids(before) <= Ids(before + RoutingSteps(addresses, run))
  {
    var more := RoutingSteps(addresses, run);
    forall i | 0 <= i < |addresses| ensures Rank(more[i]) == 3 && more[i].id !in Ids(before) {
      TaggedRank("routing", addresses[i]);
      if more[i].id == ROUTING { TaggedInjective("routing", addresses[i], "enable"); }
    }
    forall i, j | 0 <= i < j < |more| ensures more[i].id != more[j].id {
      if more[i].id == more[j].id { TaggedInjective("routing", addresses[i], addresses[j]); }
    }
    AddSteps(before, 4, more);
  }

  lemma MailboxGood(before: seq<Step>, run: string -> RunEnd)
    requires Good(before, 4)
    ensures Good(before + MailboxSteps(run), 6)
    ensures Ids(before + MailboxSteps(run)) == Ids(before) + {"domain", "mailbox"}
  {
    var m := MailboxSteps(run);
    AddStep(before, 4, m[0]);
    AddStep(before + [m[0]], 5, m[1]);
    assert before + [m[0]] + [m[1]] == before + m;
  }

  lemma AliasGood(before: seq<Step>, aliases: seq<string>, run: string -> RunEnd)
    requires Good(before, 6) && "mailbox" in Ids(before)
    requires forall i, j | 0 <= i < j < |aliases| :: aliases[i] != aliases[j]
    ensures Good(before + AliasSteps(aliases, run), 7)
    ensures Ids(before) <= Ids(before + AliasSteps(aliases, run))
  {
    var more := AliasSteps(aliases, run);
    forall i | 0 <= i < |aliases| ensures Rank(more[i]) == 6 {
      TaggedRank("alias", aliases[i]);
    }
    forall i, j | 0 <= i < j < |more| ensures more[i].id != more[j].id {
      if more[i].id == more[j].id { TaggedInjective("alias", aliases[i], aliases[j]); }
    }
    AddRank(before, 6, more);
  }

  lemma OptionalGood(before: seq<Step>, templates: bool, telegram: bool, run: string -> RunEnd)
    requires Good(before, 7) && "mailbox" in Ids(before)
    ensures Good(before + OptionalSteps(templates, telegram, run), 9)
    ensures Ids(before) <= Ids(before + OptionalSteps(templates, telegram, run))
    ensures templates ==> "templates" in Ids(before + OptionalSteps(templates, telegram, run))
  {
    TaggedRank("telegram", "topic");
    var t: seq<Step> := if templates then [Step("templates", ["mailbox"], run("templates"))] else [];
    var g: seq<Step> := if telegram then [Step(TOPIC, ["mailbox"], run(TOPIC))] else [];
    AddRank(before, 7, t);
    AddRank(before + t, 8, g);
    assert before + t + g == before + OptionalSteps(templates, telegram, run);
    if templates { assert t[0] in t; }
  }

  lemma KeysGood(before: seq<Step>, r: Resolved, run: string -> RunEnd)
    requires Coherent(r) && Good(before, 9) && "mailbox" in Ids(before)
    requires r.templates ==> "templates" in Ids(before)
    requires forall t | t in r.targets :: Tagged("sending", t.SendingDomain()) in Ids(before)
    ensures Good(before + KeySteps(r.keys, r.templates, run), 10)
  {
    var more := KeySteps(r.keys, r.templates, run);
    forall i | 0 <= i < |r.keys|
      ensures Rank(more[i]) == 9
      ensures forall dep | dep in more[i].deps :: dep in Ids(before)
    {
      TaggedRank("key", r.keys[i].name);
      assert KeyAccepted(r.keys, i, SendingDomains(r.targets), r.templates);
      var t :| t in r.targets && t.SendingDomain() == DomainOf(r.keys[i].sender);
    }
    forall i, j | 0 <= i < j < |more| ensures more[i].id != more[j].id {
      assert KeyAccepted(r.keys, j, SendingDomains(r.targets), r.templates);
      if more[i].id == more[j].id { TaggedInjective("key", r.keys[i].name, r.keys[j].name); }
    }
    AddRank(before, 9, more);
  }

  lemma AddressesDiffer(r: Resolved)
    requires Coherent(r)
    ensures var a := [r.address] + r.aliases;
            && (forall i | 0 <= i < |a| :: a[i] != "enable")
            && (forall i, j | 0 <= i < j < |a| :: a[i] != a[j])
  {}

  lemma OnlyEnabling(ts: seq<SP.Target>, run: string -> RunEnd)
    ensures forall s | s in SendingSteps(ts, run) + ConfigSteps(ts, run) && Rank(s) == 3 :: s.id == ROUTING
  {}

  /** The steps as far as the routing rules. */
  lemma FrontGood(r: Resolved, run: string -> RunEnd)
    requires Coherent(r)
    ensures var front := SendingSteps(r.targets, run) + ConfigSteps(r.targets, run)
                         + RoutingSteps([r.address] + r.aliases, run);
            && Good(front, 4)
            && forall t | t in r.targets :: Tagged("sending", t.SendingDomain()) in Ids(front)
  {
    SendingGood(r.targets, run);
    ConfigGood(SendingSteps(r.targets, run), r.targets, run);
    OnlyEnabling(r.targets, run);
    AddressesDiffer(r);
    RoutingGood(SendingSteps(r.targets, run) + ConfigSteps(r.targets, run),
                [r.address] + r.aliases, run);
  }

  /** An accepted manifest's steps repeat no identifier and depend only on earlier steps. */
  lemma StepsInOrder(r: Resolved, run: string -> RunEnd)
    requires Coherent(r)
    ensures IdsOnce(Steps(r, run)) && Ordered(Steps(r, run), |Steps(r, run)|)
  {
    FrontGood(r, run);
    var a := SendingSteps(r.targets, run) + ConfigSteps(r.targets, run)
             + RoutingSteps([r.address] + r.aliases, run);
    MailboxGood(a, run);
    var b := a + MailboxSteps(run);
    AliasGood(b, r.aliases, run);
    var c := b + AliasSteps(r.aliases, run);
    OptionalGood(c, r.templates, r.telegram, run);
    KeysGood(c + OptionalSteps(r.templates, r.telegram, run), r, run);
  }

  // ---------------------------------------------------------------- which steps, and what each waits for

  /** The step `id` of the manifest, and what has to succeed before it runs. */
  ghost predicate Waits(r: Resolved, id: string, needs: set<string>) {
    || (exists t :: t in r.targets && id == "sending:" + t.SendingDomain() && needs == {})
    || (id == "config:MAIL_SENDING_DOMAINS" && needs == set t | t in r.targets :: "sending:" + t.SendingDomain())
    || (id == "deployed:MAIL_SENDING_DOMAINS" && needs == {"config:MAIL_SENDING_DOMAINS"})
    || (id == "routing:enable" && needs == {})
    || (id == "routing:" + r.address && needs == {"routing:enable"})
    || (exists a :: a in r.aliases && id == "routing:" + a && needs == {"routing:enable"})
    || (id == "domain" && needs == {})
    || (id == "mailbox" && needs == {"domain"})
    || (exists a :: a in r.aliases && id == "alias:" + a && needs == {"mailbox"})
    || (r.templates && id == "templates" && needs == {"mailbox"})
    || (r.telegram && id == "telegram:topic" && needs == {"mailbox"})
    || (exists k :: k in r.keys && id == "key:" + k.name && needs == KeyNeeds(r, k))
  }

  ghost predicate IsPlanned(r: Resolved, id: string) {
    exists needs :: Waits(r, id, needs)
  }

  /** A key needs the mailbox, the templates when there are any, and the domain it sends from. */
  ghost function KeyNeeds(r: Resolved, k: Key): set<string> {
    {"mailbox", "sending:" + DomainOf(k.sender)} + if r.templates then {"templates"} else {}
  }

  ghost function Needs(s: Step): set<string> {
    set dep | dep in s.deps
  }

  lemma TagSpelled(rest: string)
    ensures Tagged("sending", rest) == "sending:" + rest && Tagged("routing", rest) == "routing:" + rest
    ensures Tagged("alias", rest) == "alias:" + rest && Tagged("key", rest) == "key:" + rest
    ensures Tagged("config", rest) == "config:" + rest && Tagged("deployed", rest) == "deployed:" + rest
    ensures Tagged("telegram", rest) == "telegram:" + rest
  {
    assert "sending:" == "sending" + [':'] && "routing:" == "routing" + [':'] && "alias:" == "alias" + [':'];
    assert "key:" == "key" + [':'] && "config:" == "config" + [':'] && "deployed:" == "deployed" + [':'];
    assert "telegram:" == "telegram" + [':'];
  }

  lemma ConstantsSpelled()
    ensures CONFIG == "config:MAIL_SENDING_DOMAINS" && DEPLOYED == "deployed:MAIL_SENDING_DOMAINS"
    ensures ROUTING == "routing:enable" && TOPIC == "telegram:topic"
  {
    TagSpelled("MAIL_SENDING_DOMAINS");
    TagSpelled("enable");
    TagSpelled("topic");
    assert "config:" + "MAIL_SENDING_DOMAINS" == "config:MAIL_SENDING_DOMAINS";
    assert "deployed:" + "MAIL_SENDING_DOMAINS" == "deployed:MAIL_SENDING_DOMAINS";
    assert "routing:" + "enable" == "routing:enable" && "telegram:" + "topic" == "telegram:topic";
  }

  ghost predicate IsStep(r: Resolved, run: string -> RunEnd, s: Step) {
    Waits(r, s.id, Needs(s)) && s.run == run(s.id)
  }

  ghost predicate AllSteps(r: Resolved, run: string -> RunEnd, steps: seq<Step>) {
    forall s | s in steps :: IsStep(r, run, s)
  }

  lemma SendingWaits(r: Resolved, run: string -> RunEnd)
    ensures AllSteps(r, run, SendingSteps(r.targets, run))
    ensures forall t | t in r.targets :: SendingStep(t, run) in SendingSteps(r.targets, run)
  {
    var steps := SendingSteps(r.targets, run);
    forall i | 0 <= i < |steps| ensures IsStep(r, run, steps[i]) {
      TagSpelled(r.targets[i].SendingDomain());
      assert r.targets[i] in r.targets && Needs(steps[i]) == {};
    }
    forall t | t in r.targets ensures SendingStep(t, run) in steps {
      var i :| 0 <= i < |r.targets| && r.targets[i] == t;
      assert steps[i] == SendingStep(t, run);
    }
  }

  lemma ConfigNeeds(r: Resolved, run: string -> RunEnd)
    ensures Needs(ConfigSteps(r.targets, run)[0]) == set t | t in r.targets :: "sending:" + t.SendingDomain()
  {
    var deps := ConfigSteps(r.targets, run)[0].deps;
    forall t | t in r.targets ensures "sending:" + t.SendingDomain() in deps {
      var i :| 0 <= i < |r.targets| && r.targets[i] == t;
      TagSpelled(t.SendingDomain());
      assert deps[i] == "sending:" + t.SendingDomain();
    }
    forall d | d in deps ensures exists t :: t in r.targets && d == "sending:" + t.SendingDomain() {
      var i :| 0 <= i < |deps| && deps[i] == d;
      TagSpelled(r.targets[i].SendingDomain());
      assert r.targets[i] in r.targets;
    }
  }

  lemma ConfigWaits(r: Resolved, run: string -> RunEnd)
    ensures AllSteps(r, run, ConfigSteps(r.targets, run))
  {
    ConstantsSpelled();
    ConfigNeeds(r, run);
    var c := ConfigSteps(r.targets, run);
    assert Needs(c[1]) == {CONFIG} && Needs(c[2]) == {};
    assert IsStep(r, run, c[0]) && IsStep(r, run, c[1]) && IsStep(r, run, c[2]);
  }

  lemma RoutingWaits(r: Resolved, run: string -> RunEnd)
    ensures AllSteps(r, run, RoutingSteps([r.address] + r.aliases, run))
    ensures forall a | a == r.address || a in r.aliases ::
              RoutingStep(a, run) in RoutingSteps([r.address] + r.aliases, run)
  {
    ConstantsSpelled();
    var all := [r.address] + r.aliases;
    var steps := RoutingSteps(all, run);
    forall i | 0 <= i < |steps| ensures IsStep(r, run, steps[i]) {
      TagSpelled(all[i]);
      assert Needs(steps[i]) == {ROUTING};
      if i > 0 { assert all[i] == r.aliases[i - 1] && all[i] in r.aliases; }
    }
    forall a | a == r.address || a in r.aliases ensures RoutingStep(a, run) in steps {
      assert a in all;
      var i :| 0 <= i < |all| && all[i] == a;
      assert steps[i] == RoutingStep(a, run);
    }
  }

  lemma MailboxWaits(r: Resolved, run: string -> RunEnd)
    ensures AllSteps(r, run, MailboxSteps(run))
  {
    var m := MailboxSteps(run);
    assert Needs(m[0]) == {} && Needs(m[1]) == {"domain"};
    assert IsStep(r, run, m[0]) && IsStep(r, run, m[1]);
  }

  lemma AliasWaits(r: Resolved, run: string -> RunEnd)
    ensures AllSteps(r, run, AliasSteps(r.aliases, run))
    ensures forall a | a in r.aliases :: AliasStep(a, run) in AliasSteps(r.aliases, run)
  {
    var steps := AliasSteps(r.aliases, run);
    forall i | 0 <= i < |steps| ensures IsStep(r, run, steps[i]) {
      TagSpelled(r.aliases[i]);
      assert r.aliases[i] in r.aliases && Needs(steps[i]) == {"mailbox"};
    }
    forall a | a in r.aliases ensures AliasStep(a, run) in steps {
      var i :| 0 <= i < |r.aliases| && r.aliases[i] == a;
      assert steps[i] == AliasStep(a, run);
    }
  }

  lemma OptionalWaits(r: Resolved, run: string -> RunEnd)
    ensures AllSteps(r, run, OptionalSteps(r.templates, r.telegram, run))
    ensures r.templates ==>
              Step("templates", ["mailbox"], run("templates")) in OptionalSteps(r.templates, r.telegram, run)
    ensures r.telegram ==> Step(TOPIC, ["mailbox"], run(TOPIC)) in OptionalSteps(r.templates, r.telegram, run)
  {
    ConstantsSpelled();
    var t, g := Step("templates", ["mailbox"], run("templates")), Step(TOPIC, ["mailbox"], run(TOPIC));
    assert Needs(t) == {"mailbox"} && Needs(g) == {"mailbox"};
    assert r.templates ==> IsStep(r, run, t);
    assert r.telegram ==> IsStep(r, run, g);
  }

  lemma KeyWaits(r: Resolved, run: string -> RunEnd)
    ensures AllSteps(r, run, KeySteps(r.keys, r.templates, run))
    ensures forall k | k in r.keys :: KeyStep(k, r.templates, run) in KeySteps(r.keys, r.templates, run)
    ensures forall k | k in r.keys :: Needs(KeyStep(k, r.templates, run)) == KeyNeeds(r, k)
  {
    var steps := KeySteps(r.keys, r.templates, run);
    forall k ensures Needs(KeyStep(k, r.templates, run)) == KeyNeeds(r, k) {
      TagSpelled(DomainOf(k.sender));
    }
    forall i | 0 <= i < |steps| ensures IsStep(r, run, steps[i]) {
      TagSpelled(r.keys[i].name);
      assert r.keys[i] in r.keys;
    }
    forall k | k in r.keys ensures KeyStep(k, r.templates, run) in steps {
      var i :| 0 <= i < |r.keys| && r.keys[i] == k;
      assert steps[i] == KeyStep(k, r.templates, run);
    }
  }

  /** Every step of the list is one of those, waits for what it is said to, and runs itself. */
  lemma StepsAreThose(r: Resolved, run: string -> RunEnd)
    ensures AllSteps(r, run, Steps(r, run))
  {
    SendingWaits(r, run);
    ConfigWaits(r, run);
    RoutingWaits(r, run);
    MailboxWaits(r, run);
    AliasWaits(r, run);
    OptionalWaits(r, run);
    KeyWaits(r, run);
  }

  ghost predicate Listed(r: Resolved, run: string -> RunEnd, id: string, needs: set<string>) {
    exists s :: s in Steps(r, run) && s.id == id && Needs(s) == needs
  }

  lemma Shown(r: Resolved, run: string -> RunEnd, s: Step)
    requires s in Steps(r, run)
    ensures Listed(r, run, s.id, Needs(s))
  {}

  lemma SendingListed(r: Resolved, run: string -> RunEnd, t: SP.Target)
    requires t in r.targets
    ensures Listed(r, run, "sending:" + t.SendingDomain(), {})
  {
    SendingWaits(r, run);
    TagSpelled(t.SendingDomain());
    assert Needs(SendingStep(t, run)) == {};
    Shown(r, run, SendingStep(t, run));
  }

  lemma RoutingListed(r: Resolved, run: string -> RunEnd, a: string)
    requires a == r.address || a in r.aliases
    ensures Listed(r, run, "routing:" + a, {"routing:enable"})
  {
    ConstantsSpelled();
    RoutingWaits(r, run);
    TagSpelled(a);
    assert Needs(RoutingStep(a, run)) == {ROUTING};
    Shown(r, run, RoutingStep(a, run));
  }

  lemma AliasListed(r: Resolved, run: string -> RunEnd, a: string)
    requires a in r.aliases
    ensures Listed(r, run, "alias:" + a, {"mailbox"})
  {
    AliasWaits(r, run);
    TagSpelled(a);
    assert Needs(AliasStep(a, run)) == {"mailbox"};
    Shown(r, run, AliasStep(a, run));
  }

  lemma KeyListed(r: Resolved, run: string -> RunEnd, k: Key)
    requires k in r.keys
    ensures Listed(r, run, "key:" + k.name, KeyNeeds(r, k))
  {
    KeyWaits(r, run);
    TagSpelled(k.name);
    Shown(r, run, KeyStep(k, r.templates, run));
  }

  lemma ConfigListed(r: Resolved, run: string -> RunEnd)
    ensures Listed(r, run, CONFIG, set t | t in r.targets :: "sending:" + t.SendingDomain())
    ensures Listed(r, run, DEPLOYED, {CONFIG}) && Listed(r, run, ROUTING, {})
  {
    var c := ConfigSteps(r.targets, run);
    ConfigNeeds(r, run);
    assert c[0] in c && c[1] in c && c[2] in c;
    assert Needs(c[1]) == {CONFIG} && Needs(c[2]) == {};
    Shown(r, run, c[0]);
    Shown(r, run, c[1]);
    Shown(r, run, c[2]);
  }

  lemma MailboxListed(r: Resolved, run: string -> RunEnd)
    ensures Listed(r, run, "domain", {}) && Listed(r, run, "mailbox", {"domain"})
  {
    var m := MailboxSteps(run);
    assert m[0] in m && m[1] in m && Needs(m[0]) == {} && Needs(m[1]) == {"domain"};
    Shown(r, run, m[0]);
    Shown(r, run, m[1]);
  }

  lemma OptionalListed(r: Resolved, run: string -> RunEnd)
    ensures r.templates ==> Listed(r, run, "templates", {"mailbox"})
    ensures r.telegram ==> Listed(r, run, TOPIC, {"mailbox"})
  {
    OptionalWaits(r, run);
    var t, g := Step("templates", ["mailbox"], run("templates")), Step(TOPIC, ["mailbox"], run(TOPIC));
    assert Needs(t) == {"mailbox"} && Needs(g) == {"mailbox"};
    if r.templates { Shown(r, run, t); }
    if r.telegram { Shown(r, run, g); }
  }

  /** And every one of those is in the list. */
  lemma ThoseAreSteps(r: Resolved, run: string -> RunEnd, id: string, needs: set<string>)
    requires Waits(r, id, needs)
    ensures Listed(r, run, id, needs)
  {
    ConstantsSpelled();
    ConfigListed(r, run);
    MailboxListed(r, run);
    OptionalListed(r, run);
    RoutingListed(r, run, r.address);
    forall t | t in r.targets ensures Listed(r, run, "sending:" + t.SendingDomain(), {}) { SendingListed(r, run, t); }
    forall a | a in r.aliases
      ensures Listed(r, run, "routing:" + a, {"routing:enable"}) && Listed(r, run, "alias:" + a, {"mailbox"})
    {
      RoutingListed(r, run, a);
      AliasListed(r, run, a);
    }
    forall k | k in r.keys ensures Listed(r, run, "key:" + k.name, KeyNeeds(r, k)) { KeyListed(r, run, k); }
  }

  // ---------------------------------------------------------------- what each step comes to

  ghost predicate HasResult(results: seq<StepResult>, id: string) {
    exists i :: 0 <= i < |results| && results[i].id == id
  }

  ghost function OutcomeOf(results: seq<StepResult>, id: string): Outcome
    requires HasResult(results, id)
  {
    var i :| 0 <= i < |results| && results[i].id == id;
    results[i].outcome
  }

  ghost predicate AllSucceeded(results: seq<StepResult>, mode: Mode, ids: set<string>) {
    forall id | id in ids :: HasResult(results, id) && Succeeded(OutcomeOf(results, id), mode)
  }

  /** The step ran exactly when all it waits for succeeded, and then ended as its own run does. */
  ghost predicate Follows(results: seq<StepResult>, mode: Mode, id: string, needs: set<string>, end: RunEnd) {
    && HasResult(results, id)
    && var o := OutcomeOf(results, id);
       if AllSucceeded(results, mode, needs)
       then (match end case Returned(own) => o == own case Threw => o == Failed)
       else o.Skipped?
  }

  lemma ResultAt(steps: seq<Step>, mode: Mode, results: seq<StepResult>, j: nat)
    requires IdsOnce(steps) && Recorded(steps, mode, |steps|, results) && j < |steps|
    ensures HasResult(results, steps[j].id) && OutcomeOf(results, steps[j].id) == results[j].outcome
  {
    assert results[j].id == steps[j].id;
    forall i | 0 <= i < |results| && results[i].id == steps[j].id ensures i == j {
      assert results[i].id == steps[i].id;
    }
  }

  lemma DependencyAt(steps: seq<Step>, mode: Mode, results: seq<StepResult>, i: nat, dep: string)
    returns (j: nat)
    requires IdsOnce(steps) && Ordered(steps, |steps|) && Recorded(steps, mode, |steps|, results)
    requires i < |steps| && dep in steps[i].deps
    ensures j < i && steps[j].id == dep && DependsOn(steps, i, j)
    ensures HasResult(results, dep) && OutcomeOf(results, dep) == results[j].outcome
    ensures Succeeded(results[j].outcome, mode) <==> Runs(steps, mode, j) && Succeeded(Own(steps[j]), mode)
  {
    j := Latest(steps, i, dep).value;
    ResultAt(steps, mode, results, j);
    MetMeansRan(steps, mode, |steps|, results, j);
  }

  lemma RunsIffSucceeded(steps: seq<Step>, mode: Mode, results: seq<StepResult>, i: nat)
    requires IdsOnce(steps) && Ordered(steps, |steps|) && Recorded(steps, mode, |steps|, results)
    requires i < |steps|
    ensures Runs(steps, mode, i) <==> AllSucceeded(results, mode, Needs(steps[i]))
  {
    if Runs(steps, mode, i) {
      forall dep | dep in Needs(steps[i])
        ensures HasResult(results, dep) && Succeeded(OutcomeOf(results, dep), mode)
      {
        var j := DependencyAt(steps, mode, results, i, dep);
      }
    }
    if AllSucceeded(results, mode, Needs(steps[i])) {
      forall j | 0 <= j < i && DependsOn(steps, i, j) ensures Runs(steps, mode, j) && Succeeded(Own(steps[j]), mode) {
        var dep :| dep in steps[i].deps && Latest(steps, i, dep) == Some(j);
        assert dep in Needs(steps[i]);
        var j' := DependencyAt(steps, mode, results, i, dep);
        assert j' == j;
      }
    }
  }

  lemma StepFollows(steps: seq<Step>, mode: Mode, results: seq<StepResult>, i: nat)
    requires IdsOnce(steps) && Ordered(steps, |steps|) && Recorded(steps, mode, |steps|, results)
    requires i < |steps|
    ensures Follows(results, mode, steps[i].id, Needs(steps[i]), steps[i].run)
  {
    ResultAt(steps, mode, results, i);
    RunsIffSucceeded(steps, mode, results, i);
    assert ResultOf(steps, mode, i, results[..i], results[i].outcome);
  }

  /** One result for each step of the manifest and for nothing else, each as what it waited for allows. */
  ghost predicate Reported(r: Resolved, run: string -> RunEnd, mode: Mode, results: seq<StepResult>) {
    && (forall i, j | 0 <= i < j < |results| :: results[i].id != results[j].id)
    && (forall i | 0 <= i < |results| :: IsPlanned(r, results[i].id))
    && (forall id, needs | Waits(r, id, needs) :: Follows(results, mode, id, needs, run(id)))
  }

  lemma WaitingFollows(r: Resolved, run: string -> RunEnd, mode: Mode, results: seq<StepResult>, id: string,
                       needs: set<string>)
    requires Coherent(r) && Recorded(Steps(r, run), mode, |Steps(r, run)|, results) && Waits(r, id, needs)
    ensures Follows(results, mode, id, needs, run(id))
  {
    var steps := Steps(r, run);
    StepsInOrder(r, run);
    ThoseAreSteps(r, run, id, needs);
    var s :| s in steps && s.id == id && Needs(s) == needs;
    assert IsStep(r, run, s) by { StepsAreThose(r, run); }
    var i :| 0 <= i < |steps| && steps[i] == s;
    StepFollows(steps, mode, results, i);
  }

  lemma ResultWaits(r: Resolved, run: string -> RunEnd, mode: Mode, results: seq<StepResult>, i: nat)
    requires Recorded(Steps(r, run), mode, |Steps(r, run)|, results) && i < |results|
    ensures IsPlanned(r, results[i].id)
  {
    var s := Steps(r, run)[i];
    StepsAreThose(r, run);
    assert s in Steps(r, run);
    assert Waits(r, s.id, Needs(s));
  }

  lemma RecordedReported(r: Resolved, run: string -> RunEnd, mode: Mode, results: seq<StepResult>)
    requires Coherent(r) && Recorded(Steps(r, run), mode, |Steps(r, run)|, results)
    ensures Reported(r, run, mode, results)
  {
    StepsInOrder(r, run);
    forall i | 0 <= i < |results| ensures IsPlanned(r, results[i].id) {
      ResultWaits(r, run, mode, results, i);
    }
    forall id, needs | Waits(r, id, needs) ensures Follows(results, mode, id, needs, run(id)) {
      WaitingFollows(r, run, mode, results, id, needs);
    }
  }

  /** The engine never abandons a run of an accepted manifest: every step gets a result. */
  method RunManifest(m: Raw, mode: Mode, run: string -> RunEnd)
    returns (r: Result<(Resolved, seq<StepResult>), seq<ManifestError>>)
    ensures r.Ok? <==> SP.NormalizeZone(Some(m.zone)).Some?
                       && Acceptable(m, SP.NormalizeZone(Some(m.zone)).value)
    ensures r.Ok? ==>
              && Coherent(r.value.0)
              && Recorded(Steps(r.value.0, run), mode, |Steps(r.value.0, run)|, r.value.1)
    ensures r.Ok? ==> Reported(r.value.0, run, mode, r.value.1)
  {
    var validated := Validate(m);
    if validated.Err? { return Err(validated.error); }
    StepsInOrder(validated.value, run);
    var results := RunSteps(Steps(validated.value, run), mode);
    RecordedReported(validated.value, run, mode, results.value);
    r := Ok((validated.value, results.value));
  }
}
