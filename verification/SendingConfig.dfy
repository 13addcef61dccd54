/**
 * scripts/lib/sending-config.ts: which sender and which sending domains a provisioning run leaves
 * in the generated configuration, and what a deploy of that file then ships.
 */
module SendingConfig {
  import opened Common
  import opened Overlay
  import opened Text

  datatype Config = Config(top: Block, envs: map<string, Block>)

  const FROM := "MAIL_FROM_ADDRESS"
  const DOMAINS := "MAIL_SENDING_DOMAINS"

  /** Keys a named environment does not inherit from the top level, besides vars and the lists. */
  const NOT_INHERITED := {"queues", "durable_objects", "r2_buckets", "kv_namespaces", "services"}

  /** The block wrangler would use: the environment's, with inheritable top-level keys filling gaps. */
  function EffectiveBlock(c: Config, env: Option<string>): Option<Block> {
    if env.None? then Some(c.top)
    else if env.value !in c.envs then None
    else
      var b := c.envs[env.value];
      Some(b.(routes := if b.routes.Some? then b.routes else c.top.routes,
              workersDev := if b.workersDev.Some? then b.workersDev else c.top.workersDev,
              rest := (map k | k in c.top.rest && k !in NOT_INHERITED :: c.top.rest[k]) + b.rest))
  }

  /**
   * Variables, databases and senders are the environment's own, if it has any; routes and workers_dev fall back on
   * the top level, and so does every other key but the five that are never inherited.
   */
  lemma EffectiveMeans(c: Config, env: string, key: string)
    requires env in c.envs
    ensures EffectiveBlock(c, Some(env)).Some? && EffectiveBlock(c, None) == Some(c.top)
    ensures var b, own := EffectiveBlock(c, Some(env)).value, c.envs[env];
            && b.vars == own.vars && b.d1 == own.d1 && b.email == own.email
            && (match own.routes case Some(r) => b.routes == Some(r) case None => b.routes == c.top.routes)
            && (match own.workersDev
                case Some(d) => b.workersDev == Some(d)
                case None => b.workersDev == c.top.workersDev)
            && if key in own.rest then key in b.rest && b.rest[key] == own.rest[key]
               else if key in {"queues", "durable_objects", "r2_buckets", "kv_namespaces", "services"} then
                 key !in b.rest
               else (key in b.rest <==> key in c.top.rest) && (key in b.rest ==> b.rest[key] == c.top.rest[key])
  {}

  /** The block a run writes to. */
  function OwnBlock(c: Config, env: Option<string>): Option<Block> {
    if env.None? then Some(c.top)
    else if env.value in c.envs then Some(c.envs[env.value]) else None
  }

  function WithBlock(c: Config, env: Option<string>, b: Block): Config {
    if env.None? then c.(top := b) else c.(envs := c.envs[env.value := b])
  }

  ghost predicate WellFormedConfig(c: Config) {
    WellFormed(c.top) && forall e | e in c.envs :: WellFormed(c.envs[e])
  }

  // ---------------------------------------------------------------- domain lists

  /** A JavaScript set built from a list: first occurrences, in order. */
  function Dedupe(s: seq<string>): seq<string> {
    if s == [] then []
    else
      var rest := Dedupe(s[..|s| - 1]);
      if s[|s| - 1] in rest then rest else rest + [s[|s| - 1]]
  }

  lemma {:induction false} DedupeKeeps(s: seq<string>)
    ensures forall x :: x in Dedupe(s) <==> x in s
    ensures Distinct(Dedupe(s)) && (Distinct(s) ==> Dedupe(s) == s)
  {
    if s != [] {
      var n := |s| - 1;
      DedupeKeeps(s[..n]);
      assert s == s[..n] + [s[n]];
      if Distinct(s) { assert s[n] !in s[..n]; }
    }
  }

  ghost predicate Distinct(s: seq<string>) {
    forall i, j | 0 <= i < j < |s| :: s[i] != s[j]
  }

  /** Trimmed, lower-cased, the empty ones dropped. */
  function CleanParts(parts: seq<string>): seq<string> {
    if parts == [] then []
    else
      var n := |parts| - 1;
      CleanParts(parts[..n]) + (if Canonical(parts[n]) != "" then [Canonical(parts[n])] else [])
  }

  /** The comma list as the Worker reads it. */
  function ParseDomains(raw: string): seq<string> {
    Dedupe(CleanParts(Split(raw, ',')))
  }

  /** `parseDomainList`: anything but a string is no list. */
  function ParseDomainList(raw: Option<Json>): seq<string> {
    if raw.Some? && raw.value.JStr? then ParseDomains(raw.value.s) else []
  }

  function Canonicals(s: seq<string>): (r: seq<string>)
    ensures |r| == |s| && forall i | 0 <= i < |s| :: r[i] == Canonical(s[i])
  {
    seq(|s|, i requires 0 <= i < |s| => Canonical(s[i]))
  }

  /** The sorted union. */
  function UnionOf(previous: seq<string>, added: seq<string>): seq<string> {
    Sort(Dedupe(previous + Canonicals(added)))
  }

  lemma SortKeeps(s: seq<string>)
    ensures Sorted(Sort(s)) && |Sort(s)| == |s| && (forall x :: x in Sort(s) <==> x in s)
    ensures Distinct(s) ==> Distinct(Sort(s))
  {
    SortSorts(s);
    assert |multiset(Sort(s))| == |Sort(s)| && |multiset(s)| == |s|;
    assert forall x :: x in Sort(s) <==> x in multiset(Sort(s));
    assert forall x :: x in s <==> x in multiset(s);
    if Distinct(s) { DistinctByCount(s, Sort(s)); }
  }

  lemma {:induction false} CountOnce(s: seq<string>, x: string)
    requires Distinct(s)
    ensures multiset(s)[x] <= 1
  {
    if s != [] {
      assert s == [s[0]] + s[1..];
      CountOnce(s[1..], x);
      if s[0] == x { assert x !in s[1..]; }
    }
  }

  lemma DistinctByCount(s: seq<string>, t: seq<string>)
    requires Distinct(s) && multiset(s) == multiset(t)
    ensures Distinct(t)
  {
    forall i, j | 0 <= i < j < |t| ensures t[i] != t[j] {
      CountOnce(s, t[i]);
      assert t == t[..i] + [t[i]] + t[i + 1..j] + [t[j]] + t[j + 1..];
    }
  }

  /** A sorted list without repeats is determined by its elements. */
  lemma {:induction false} SortedSetUnique(a: seq<string>, b: seq<string>)
    requires Sorted(a) && Sorted(b) && Distinct(a) && Distinct(b)
    requires forall x :: x in a <==> x in b
    ensures a == b
  {
    forall x ensures multiset(a)[x] == multiset(b)[x] {
      CountOnce(a, x);
      CountOnce(b, x);
      assert x in multiset(a) <==> x in a;
      assert x in multiset(b) <==> x in b;
    }
    assert multiset(a) == multiset(b);
    SortedUnique(a, b);
  }

  lemma UnionIs(previous: seq<string>, added: seq<string>)
    ensures var u := UnionOf(previous, added);
            && Sorted(u) && Distinct(u)
            && forall x :: x in u <==> x in previous || x in Canonicals(added)
  {
    DedupeKeeps(previous + Canonicals(added));
    SortKeeps(Dedupe(previous + Canonicals(added)));
  }

  // ---------------------------------------------------------------- printed and parsed again

  /** A name that survives the comma list. */
  predicate Listable(d: string) {
    d != "" && ',' !in d && IsCanonical(d)
  }

  lemma {:induction false} CleanAre(parts: seq<string>)
    requires forall i | 0 <= i < |parts| :: ',' !in parts[i]
    ensures forall x | x in CleanParts(parts) :: Listable(x)
    ensures (forall i | 0 <= i < |parts| :: Listable(parts[i])) ==> CleanParts(parts) == parts
    ensures forall x | x in parts && Listable(x) :: x in CleanParts(parts)
  {
    if parts != [] {
      var n := |parts| - 1;
      CleanAre(parts[..n]);
      assert parts == parts[..n] + [parts[n]];
      CanonicalSettles(parts[n]);
      CanonicalChars(parts[n], ',');
    }
  }

  lemma CanonicalChars(s: string, c: char)
    requires c !in s && LowerChar(c) == c && !('a' <= c <= 'z')
    ensures c !in Canonical(s)
  {
    TrimSettles(s);
    var t := Trim(s);
    forall i | 0 <= i < |t| ensures Lower(t)[i] != c {
      assert t[i] in t && t[i] in s;
    }
  }

  /** What the Worker reads is always a list of listable names. */
  lemma ParsedListable(raw: string)
    ensures forall x | x in ParseDomains(raw) :: Listable(x)
  {
    SplitPartsFree(raw, ',');
    CleanAre(Split(raw, ','));
    DedupeKeeps(CleanParts(Split(raw, ',')));
  }

  /** Printed with commas and parsed again, a list without repeats comes back exactly when listable. */
  lemma PrintedParsesBack(u: seq<string>)
    requires Distinct(u)
    ensures ParseDomains(Join(u, ',')) == u <==> forall i | 0 <= i < |u| :: Listable(u[i])
  {
    if forall i | 0 <= i < |u| :: Listable(u[i]) {
      if u != [] {
        SplitJoin(u, ',');
        CleanAre(u);
        DedupeKeeps(u);
      } else {
        EmptyParses();
      }
    }
    if ParseDomains(Join(u, ',')) == u {
      ParsedListable(Join(u, ','));
      forall i | 0 <= i < |u| ensures Listable(u[i]) { assert u[i] in u; }
    }
  }

  lemma EmptyParses()
    ensures ParseDomains("") == []
  {}

  lemma {:induction false} SplitConcat(a: string, b: string, sep: char)
    ensures Split(a + [sep] + b, sep) == Split(a, sep) + Split(b, sep)
  {
    var s := a + [sep] + b;
    if a == "" {
      assert s[1..] == b;
    } else {
      assert s[0] == a[0] && s[1..] == a[1..] + [sep] + b;
      SplitConcat(a[1..], b, sep);
    }
  }

  predicate HasPart(parts: seq<string>, x: string) {
    exists i | 0 <= i < |parts| :: Canonical(parts[i]) == x
  }

  lemma HasPartConcat(a: seq<string>, b: seq<string>, x: string)
    ensures HasPart(a + b, x) <==> HasPart(a, x) || HasPart(b, x)
  {
    var all := a + b;
    if HasPart(a, x) {
      var i :| 0 <= i < |a| && Canonical(a[i]) == x;
      assert all[i] == a[i];
    }
    if HasPart(b, x) {
      var i :| 0 <= i < |b| && Canonical(b[i]) == x;
      assert all[|a| + i] == b[i];
    }
  }

  lemma {:induction false} CleanIn(parts: seq<string>, x: string)
    ensures x in CleanParts(parts) <==> x != "" && HasPart(parts, x)
  {
    if parts != [] {
      var n := |parts| - 1;
      CleanIn(parts[..n], x);
      HasPartConcat(parts[..n], [parts[n]], x);
      assert parts == parts[..n] + [parts[n]];
      assert HasPart([parts[n]], x) <==> Canonical([parts[n]][0]) == x;
    }
  }

  predicate Reads(raw: string, x: string) {
    x in ParseDomains(raw)
  }

  lemma ReadsIff(raw: string, x: string)
    ensures Reads(raw, x) <==> x != "" && HasPart(Split(raw, ','), x)
  {
    DedupeKeeps(CleanParts(Split(raw, ',')));
    CleanIn(Split(raw, ','), x);
  }

  /** A printed list reads as everything its entries read as. */
  lemma {:induction false} JoinReads(u: seq<string>, x: string)
    ensures Reads(Join(u, ','), x) <==> exists i | 0 <= i < |u| :: Reads(u[i], x)
  {
    if |u| == 0 {
      EmptyParses();
    } else if |u| == 1 {
      assert Join(u, ',') == u[0];
    } else {
      var rest := u[1..];
      JoinReads(rest, x);
      SplitReads(u[0], Join(rest, ','), x);
      if i :| 0 <= i < |u| && Reads(u[i], x) && i > 0 { assert rest[i - 1] == u[i]; }
    }
  }

  lemma SplitReads(a: string, b: string, x: string)
    ensures Reads(a + [','] + b, x) <==> Reads(a, x) || Reads(b, x)
  {
    ReadsIff(a, x);
    ReadsIff(b, x);
    ReadsIff(a + [','] + b, x);
    SplitConcat(a, b, ',');
    HasPartConcat(Split(a, ','), Split(b, ','), x);
  }

  lemma ListableReadsItself(d: string)
    requires Listable(d)
    ensures forall x :: Reads(d, x) <==> x == d
  {
    SplitOfFree(d, ',');
    CanonicalSettles(d);
    forall x ensures Reads(d, x) <==> x == d { ReadsIff(d, x); }
  }

  // ---------------------------------------------------------------- the plan

  datatype BindingShape = NoBinding | Unbounded | Bounded

  datatype PlanError = NoSourceBlock | NoTrackedBlock

  datatype Request = Request(
    addDomains: seq<string>, fromAddress: string, addSenders: seq<string>, setDefaultFrom: bool,
    restrictSenders: bool)

  datatype Update = Update(
    config: Config, previousFrom: Option<string>, nextFrom: string, previousDomains: seq<string>,
    domains: seq<string>, shape: BindingShape, allowed: Option<seq<string>>, changed: bool)

  /** The vars a deploy ships: the tracked ones with the generated file's on top. */
  method DeployedVars(tracked: Config, generated: Option<Config>, env: Option<string>)
    returns (vars: Option<seq<Var>>)
    requires WellFormedConfig(tracked) && (generated.Some? ==> WellFormedConfig(generated.value))
    ensures vars.None? <==> (EffectiveBlock(tracked, env).None?
                             || (generated.Some? && EffectiveBlock(generated.value, env).None?))
    ensures vars.Some? ==> forall n :: Lookup(vars.value, n) == ShippedVar(tracked, generated, env, n)
  {
    var base := EffectiveBlock(tracked, env);
    if base.None? { return None; }
    if generated.None? { return Some(Or(base.value.vars)); }
    var own := EffectiveBlock(generated.value, env);
    if own.None? { return None; }
    var config, _, _ := ApplyGeneratedOverlay(base.value, own.value, None);
    vars := Some(Or(config.vars));
  }

  /** One shipped variable: the generated block's, else the tracked block's. */
  function ShippedVar(tracked: Config, generated: Option<Config>, env: Option<string>, name: string): Option<Json> {
    var base := EffectiveBlock(tracked, env);
    var own := if generated.Some? then EffectiveBlock(generated.value, env) else None;
    if own.Some? && Lookup(Or(own.value.vars), name).Some? then Lookup(Or(own.value.vars), name)
    else if base.Some? then Lookup(Or(base.value.vars), name) else None
  }

  function StringOf(j: Option<Json>): Option<string> {
    if j.Some? && j.value.JStr? then Some(j.value.s) else None
  }

  /** The sender is set only when there is none yet, or on request. */
  function NextFrom(previous: Option<string>, r: Request): string {
    if previous.Some? && previous.value != "" && !r.setDefaultFrom then previous.value else r.fromAddress
  }

  /** `send_email.find(EMAIL) ?? send_email[0]`. */
  function BindingAt(email: seq<Email>): (r: Option<nat>)
    ensures r.Some? ==> r.value < |email|
  {
    match Find(email, Some("EMAIL"))
    case Some(i) => Some(i)
    case None => if email == [] then None else Some(0)
  }

  /** The binding named EMAIL, or else the first there is. */
  lemma BindingMeans(email: seq<Email>)
    ensures match BindingAt(email)
            case None => email == []
            case Some(i) =>
              (forall j | 0 <= j < i :: email[j].key != Some("EMAIL"))
              && (email[i].key == Some("EMAIL")
                  || (i == 0 && forall j | 0 <= j < |email| :: email[j].key != Some("EMAIL")))
  {}

  function ShapeOf(email: seq<Email>): BindingShape {
    match BindingAt(email)
    case None => NoBinding
    case Some(i) => if email[i].value.None? then Unbounded else Bounded
  }

  /** The allow-list after the run: widened when bounded, narrowed from unbounded only on request. */
  function NextAllowed(email: seq<Email>, r: Request): Option<seq<string>> {
    match ShapeOf(email)
    case NoBinding => None
    case Unbounded => if r.restrictSenders then Some(Sort(Dedupe(r.addSenders))) else None
    case Bounded => Some(Sort(Dedupe(Or(email[BindingAt(email).value].value) + r.addSenders)))
  }

  function NextEmail(email: seq<Email>, r: Request): seq<Email> {
    var allowed := NextAllowed(email, r);
    if allowed.None? then email
    else
      var i := BindingAt(email).value;
      email[i := email[i].(value := allowed)]
  }

  function NextVars(vars: seq<Var>, from: string, domains: seq<string>): seq<Var> {
    Assign(Assign(vars, FROM, JStr(from)), DOMAINS, JStr(Join(domains, ',')))
  }

  function NextBlock(b: Block, from: string, domains: seq<string>, r: Request): Block {
    b.(vars := Some(NextVars(Or(b.vars), from, domains)),
       email := if b.email.Some? then Some(NextEmail(b.email.value, r)) else None)
  }

  /** What a run plans, given what a deploy ships now. */
  ghost predicate Planned(tracked: Config, generated: Option<Config>, env: Option<string>, r: Request, u: Update) {
    var source := if generated.Some? then generated.value else tracked;
    var block := OwnBlock(source, env);
    && block.Some?
    && u.previousFrom == StringOf(ShippedVar(tracked, generated, env, FROM))
    && u.nextFrom == NextFrom(u.previousFrom, r)
    && u.previousDomains == ParseDomainList(ShippedVar(tracked, generated, env, DOMAINS))
    && u.domains == UnionOf(u.previousDomains, r.addDomains)
    && u.config == WithBlock(source, env, NextBlock(block.value, u.nextFrom, u.domains, r))
    && u.shape == ShapeOf(Or(block.value.email))
    && u.allowed == NextAllowed(Or(block.value.email), r)
    && u.changed == (generated != Some(u.config))
  }

  /** In order, without repeats: the shipped domains and the canonical form of each new one, nothing else. */
  method SortedUnion(previous: seq<string>, added: seq<string>) returns (u: seq<string>)
    ensures Sorted(u) && Distinct(u)
    ensures forall x | x in previous :: x in u
    ensures forall i | 0 <= i < |added| :: Canonical(added[i]) in u
    ensures forall x | x in u :: x in previous || exists i | 0 <= i < |added| :: Canonical(added[i]) == x
  {
    var all := previous;
    for i := 0 to |added|
      invariant all == previous + Canonicals(added[..i])
    {
      assert Canonicals(added[..i + 1]) == Canonicals(added[..i]) + [Canonical(added[i])];
      all := all + [Canonical(added[i])];
    }
    assert added[..|added|] == added;
    u := Sort(Dedupe(all));
    UnionIs(previous, added);
    forall i | 0 <= i < |added| ensures Canonical(added[i]) in u { assert Canonicals(added)[i] in Canonicals(added); }
  }

  /** Those four facts leave one list. */
  lemma UnionUnique(previous: seq<string>, added: seq<string>, u: seq<string>)
    requires Sorted(u) && Distinct(u) && forall x | x in previous :: x in u
    requires forall i | 0 <= i < |added| :: Canonical(added[i]) in u
    requires forall x | x in u :: x in previous || exists i | 0 <= i < |added| :: Canonical(added[i]) == x
    ensures u == UnionOf(previous, added)
  {
    UnionIs(previous, added);
    forall x ensures x in u <==> x in UnionOf(previous, added) {
      if x in Canonicals(added) {
        var i :| 0 <= i < |added| && Canonicals(added)[i] == x;
      }
      if i :| 0 <= i < |added| && Canonical(added[i]) == x { assert Canonicals(added)[i] == x; }
    }
    SortedSetUnique(u, UnionOf(previous, added));
  }

  method PlanUpdate(tracked: Config, generated: Option<Config>, env: Option<string>, r: Request)
    returns (u: Result<Update, PlanError>)
    requires WellFormedConfig(tracked) && (generated.Some? ==> WellFormedConfig(generated.value))
    ensures u.Ok? ==> Planned(tracked, generated, env, r, u.value) && WellFormedConfig(u.value.config)
    ensures u == Err(NoSourceBlock) <==>
              OwnBlock(if generated.Some? then generated.value else tracked, env).None?
    ensures u == Err(NoTrackedBlock) ==> EffectiveBlock(tracked, env).None?
  {
    var source := if generated.Some? then generated.value else tracked;
    var own := OwnBlock(source, env);
    if own.None? { return Err(NoSourceBlock); }
    var block := own.value;
    var shipped := DeployedVars(tracked, generated, env);
    if shipped.None? { return Err(NoTrackedBlock); }
    var previousFrom := StringOf(Lookup(shipped.value, FROM));
    var nextFrom := if previousFrom.Some? && previousFrom.value != "" && !r.setDefaultFrom
                    then previousFrom.value else r.fromAddress;
    var previousDomains := ParseDomainList(Lookup(shipped.value, DOMAINS));
    var domains := SortedUnion(previousDomains, r.addDomains);
    UnionUnique(previousDomains, r.addDomains, domains);
    var next, allowed := WriteBlock(block, nextFrom, domains, r);
    var config := WithBlock(source, env, next);
    u := Ok(Update(config, previousFrom, nextFrom, previousDomains, domains, ShapeOf(Or(block.email)),
                   allowed, generated != Some(config)));
  }

  /** The assignments to the block: two variables, and the binding's list when it has one. */
  method WriteBlock(block: Block, from: string, domains: seq<string>, r: Request)
    returns (next: Block, allowed: Option<seq<string>>)
    requires WellFormed(block)
    ensures next == NextBlock(block, from, domains, r) && WellFormed(next)
    ensures allowed == NextAllowed(Or(block.email), r)
  {
    var vars := Or(block.vars);
    AssignNames(vars, FROM, JStr(from));
    AssignNames(Assign(vars, FROM, JStr(from)), DOMAINS, JStr(Join(domains, ',')));
    next := block.(vars := Some(NextVars(vars, from, domains)));
    var email := Or(block.email);
    var at := BindingAt(email);
    allowed := None;
    if at.Some? && (email[at.value].value.Some? || r.restrictSenders) {
      assert Or(None) + r.addSenders == r.addSenders;
      allowed := Some(Sort(Dedupe(Or(email[at.value].value) + r.addSenders)));
      next := next.(email := Some(email[at.value := email[at.value].(value := allowed)]));
    }
  }

  // ---------------------------------------------------------------- what a deploy of the plan ships

  lemma NextVarsLookup(vars: seq<Var>, from: string, domains: seq<string>, n: string)
    ensures Lookup(NextVars(vars, from, domains), n) ==
            if n == DOMAINS then Some(JStr(Join(domains, ',')))
            else if n == FROM then Some(JStr(from)) else Lookup(vars, n)
  {
    AssignLookup(vars, FROM, JStr(from), n);
    AssignLookup(Assign(vars, FROM, JStr(from)), DOMAINS, JStr(Join(domains, ',')), n);
  }

  /** The written variables are what the next deploy ships. */
  lemma WrittenIsShipped(tracked: Config, generated: Option<Config>, env: Option<string>, r: Request, u: Update)
    requires Planned(tracked, generated, env, r, u)
    ensures ShippedVar(tracked, Some(u.config), env, DOMAINS) == Some(JStr(Join(u.domains, ',')))
    ensures ShippedVar(tracked, Some(u.config), env, FROM) == Some(JStr(u.nextFrom))
  {
    var source := if generated.Some? then generated.value else tracked;
    var block := OwnBlock(source, env).value;
    var next := NextBlock(block, u.nextFrom, u.domains, r);
    assert OwnBlock(u.config, env) == Some(next);
    assert EffectiveBlock(u.config, env).value.vars == next.vars;
    assert FROM != DOMAINS by { assert |FROM| == 17 && |DOMAINS| == 20; }
    NextVarsLookup(Or(block.vars), u.nextFrom, u.domains, DOMAINS);
    NextVarsLookup(Or(block.vars), u.nextFrom, u.domains, FROM);
  }

  lemma PreviousListable(tracked: Config, generated: Option<Config>, env: Option<string>, r: Request, u: Update)
    requires Planned(tracked, generated, env, r, u)
    ensures forall x | x in u.previousDomains :: Listable(x)
  {
    var raw := ShippedVar(tracked, generated, env, DOMAINS);
    if raw.Some? && raw.value.JStr? { ParsedListable(raw.value.s); }
  }

  /** The union: sorted, without repeats, the old domains and the new ones and nothing else. */
  lemma DomainsAreUnion(tracked: Config, generated: Option<Config>, env: Option<string>, r: Request, u: Update)
    requires Planned(tracked, generated, env, r, u)
    ensures Sorted(u.domains) && Distinct(u.domains)
    ensures forall x :: x in u.domains <==>
              x in u.previousDomains || exists i | 0 <= i < |r.addDomains| :: Canonical(r.addDomains[i]) == x
  {
    UnionIs(u.previousDomains, r.addDomains);
    var c := Canonicals(r.addDomains);
    forall x ensures x in c <==> exists i | 0 <= i < |r.addDomains| :: Canonical(r.addDomains[i]) == x {
      if x in c { var i :| 0 <= i < |c| && c[i] == x; }
      if i :| 0 <= i < |r.addDomains| && Canonical(r.addDomains[i]) == x { assert c[i] == x; }
    }
  }

  /** A deploy of the plan reads back exactly the union when, and only when, every name is listable. */
  lemma DeployReadsUnionIff(tracked: Config, generated: Option<Config>, env: Option<string>, r: Request, u: Update)
    requires Planned(tracked, generated, env, r, u)
    ensures ParseDomainList(ShippedVar(tracked, Some(u.config), env, DOMAINS)) == u.domains <==>
            forall i | 0 <= i < |r.addDomains| ::
              Canonical(r.addDomains[i]) != "" && ',' !in Canonical(r.addDomains[i])
  {
    WrittenIsShipped(tracked, generated, env, r, u);
    DomainsAreUnion(tracked, generated, env, r, u);
    PreviousListable(tracked, generated, env, r, u);
    PrintedParsesBack(u.domains);
    forall i | 0 <= i < |r.addDomains|
      ensures Canonical(r.addDomains[i]) in u.domains
      ensures Listable(Canonical(r.addDomains[i])) <==>
              Canonical(r.addDomains[i]) != "" && ',' !in Canonical(r.addDomains[i])
    {
      CanonicalSettles(r.addDomains[i]);
      assert Canonical(r.addDomains[i]) == Canonicals(r.addDomains)[i];
    }
    if forall i | 0 <= i < |u.domains| :: Listable(u.domains[i]) {
      forall i | 0 <= i < |r.addDomains| ensures Listable(Canonical(r.addDomains[i])) {
        var j :| 0 <= j < |u.domains| && u.domains[j] == Canonical(r.addDomains[i]);
      }
    }
    if forall i | 0 <= i < |r.addDomains| ::
         Canonical(r.addDomains[i]) != "" && ',' !in Canonical(r.addDomains[i])
    {
      forall i | 0 <= i < |u.domains| ensures Listable(u.domains[i]) {
        assert u.domains[i] in u.domains;
      }
    }
  }

  /** Whatever is added, no domain shipped before is lost by deploying the plan. */
  lemma NothingShippedIsLost(tracked: Config, generated: Option<Config>, env: Option<string>, r: Request,
                             u: Update, x: string)
    requires Planned(tracked, generated, env, r, u) && x in u.previousDomains
    ensures x in ParseDomainList(ShippedVar(tracked, Some(u.config), env, DOMAINS))
  {
    WrittenIsShipped(tracked, generated, env, r, u);
    DomainsAreUnion(tracked, generated, env, r, u);
    PreviousListable(tracked, generated, env, r, u);
    ListableReadsItself(x);
    JoinReads(u.domains, x);
    var i :| 0 <= i < |u.domains| && u.domains[i] == x;
    assert Reads(u.domains[i], x);
  }

  // ---------------------------------------------------------------- planning again

  lemma {:induction false} AssignSame(vars: seq<Var>, n: string, v: Json)
    requires Lookup(vars, n) == Some(v)
    ensures Assign(vars, n, v) == vars
  {
    if vars[0].name != n { AssignSame(vars[1..], n, v); }
  }

  lemma {:induction false} AssignTwice(vars: seq<Var>, n: string, v: Json, w: Json)
    ensures Assign(Assign(vars, n, v), n, w) == Assign(vars, n, w)
  {
    if vars != [] && vars[0].name != n { AssignTwice(vars[1..], n, v, w); }
  }

  lemma NextVarsTwice(vars: seq<Var>, from: string, a: seq<string>, b: seq<string>)
    ensures NextVars(NextVars(vars, from, a), from, b) == NextVars(vars, from, b)
    ensures NextVars(vars, from, a) == NextVars(vars, from, b) <==> Join(a, ',') == Join(b, ',')
  {
    var y := Assign(vars, FROM, JStr(from));
    assert FROM != DOMAINS by { assert |FROM| == 17 && |DOMAINS| == 20; }
    NextVarsLookup(vars, from, a, FROM);
    NextVarsLookup(vars, from, a, DOMAINS);
    NextVarsLookup(vars, from, b, DOMAINS);
    AssignSame(NextVars(vars, from, a), FROM, JStr(from));
    AssignTwice(y, DOMAINS, JStr(Join(a, ',')), JStr(Join(b, ',')));
  }

  lemma SortedAgain(l: seq<string>, added: seq<string>)
    requires Sorted(l) && Distinct(l) && forall x | x in added :: x in l
    ensures Sort(Dedupe(l + added)) == l
  {
    DedupeKeeps(l + added);
    SortKeeps(Dedupe(l + added));
    SortedSetUnique(Sort(Dedupe(l + added)), l);
  }

  /** Widening the allow-list twice is widening it once. */
  lemma NextEmailTwice(email: seq<Email>, r: Request)
    ensures NextEmail(NextEmail(email, r), r) == NextEmail(email, r)
  {
    var once := NextEmail(email, r);
    FindSameKeys(email, once, Some("EMAIL"));
    var allowed := NextAllowed(email, r);
    if allowed.Some? {
      var i := BindingAt(email).value;
      var base := if email[i].value.Some? then email[i].value.value else [];
      assert base + r.addSenders == if email[i].value.Some? then base + r.addSenders else r.addSenders;
      DedupeKeeps(base + r.addSenders);
      SortKeeps(Dedupe(base + r.addSenders));
      SortedAgain(allowed.value, r.addSenders);
      assert once[i := once[i].(value := allowed)] == once;
    }
  }

  // The printed length tells a list from a strictly larger one.

  function Weight(s: seq<string>): nat {
    if s == [] then 0 else |s[0]| + 1 + Weight(s[1..])
  }

  lemma {:induction false} WeightConcat(a: seq<string>, b: seq<string>)
    ensures Weight(a + b) == Weight(a) + Weight(b)
  {
    if a == [] {
      assert a + b == b;
    } else {
      assert (a + b)[1..] == a[1..] + b;
      WeightConcat(a[1..], b);
    }
  }

  lemma {:induction false} JoinLength(s: seq<string>)
    ensures |Join(s, ',')| == if s == [] then 0 else Weight(s) - 1
  {
    if |s| > 1 { JoinLength(s[1..]); }
  }

  lemma {:induction false} WeightSubset(a: seq<string>, b: seq<string>)
    requires Distinct(a) && forall x | x in a :: x in b
    ensures Weight(a) <= Weight(b)
  {
    if a != [] {
      assert a[0] in b;
      var i :| 0 <= i < |b| && b[i] == a[0];
      var rest := b[..i] + b[i + 1..];
      forall x | x in a[1..] ensures x in rest {
        assert x in a && x != a[0];
        var j :| 0 <= j < |b| && b[j] == x;
        if j < i { assert rest[j] == x; } else { assert rest[j - 1] == x; }
      }
      WeightSubset(a[1..], rest);
      WeightConcat(b[..i], b[i + 1..]);
      WeightConcat(b[..i], b[i..]);
      assert b == b[..i] + b[i..] && b[i..][1..] == b[i + 1..];
    }
  }

  lemma PrintedAlikeIffSame(a: seq<string>, b: seq<string>)
    requires Sorted(a) && Sorted(b) && Distinct(a) && Distinct(b) && a != []
    requires forall x | x in a :: x in b
    ensures Join(a, ',') == Join(b, ',') <==> a == b
  {
    if x :| x in b && x !in a {
      var more := a + [x];
      assert Distinct(more);
      WeightSubset(more, b);
      WeightConcat(a, [x]);
      JoinLength(a);
      JoinLength(b);
    } else {
      SortedSetUnique(a, b);
    }
  }

  /** Everything the added names read as is already listed. */
  ghost predicate PiecesListed(added: seq<string>, u: seq<string>) {
    forall i, x | 0 <= i < |added| && Reads(Canonical(added[i]), x) :: x in u
  }

  lemma InUnion(previous: seq<string>, added: seq<string>, x: string)
    ensures x in UnionOf(previous, added) <==>
            x in previous || exists i | 0 <= i < |added| :: Canonical(added[i]) == x
  {
    UnionIs(previous, added);
    var c := Canonicals(added);
    if i :| 0 <= i < |added| && Canonical(added[i]) == x { assert c[i] == x; }
  }

  /** The union taken again from its own printing holds at least what it held. */
  lemma UnionGrows(previous: seq<string>, added: seq<string>, x: string)
    requires forall y | y in previous :: Listable(y)
    requires x in UnionOf(previous, added)
    ensures x in UnionOf(ParseDomains(Join(UnionOf(previous, added), ',')), added)
  {
    var u := UnionOf(previous, added);
    InUnion(previous, added, x);
    InUnion(ParseDomains(Join(u, ',')), added, x);
    if x in previous {
      ListableReadsItself(x);
      JoinReads(u, x);
      var i :| 0 <= i < |u| && u[i] == x;
      assert Reads(u[i], x);
    }
  }

  lemma PieceListed(previous: seq<string>, added: seq<string>, d: string, x: string)
    requires forall y | y in previous :: Listable(y)
    requires PiecesListed(added, UnionOf(previous, added)) && d in UnionOf(previous, added) && Reads(d, x)
    ensures x in UnionOf(previous, added)
  {
    InUnion(previous, added, d);
    if d in previous { ListableReadsItself(d); }
  }

  lemma UnionAgain(previous: seq<string>, added: seq<string>)
    requires forall y | y in previous :: Listable(y)
    ensures var u := UnionOf(previous, added);
            UnionOf(ParseDomains(Join(u, ',')), added) == u <==> PiecesListed(added, u)
  {
    var u := UnionOf(previous, added);
    var back := ParseDomains(Join(u, ','));
    var again := UnionOf(back, added);
    if PiecesListed(added, u) {
      forall x ensures x in again <==> x in u {
        InUnion(previous, added, x);
        InUnion(back, added, x);
        JoinReads(u, x);
        if x in u { UnionGrows(previous, added, x); }
        if x in back {
          var i :| 0 <= i < |u| && Reads(u[i], x);
          PieceListed(previous, added, u[i], x);
        }
      }
      UnionIs(previous, added);
      UnionIs(back, added);
      SortedSetUnique(again, u);
    }
    if again == u {
      forall i, x | 0 <= i < |added| && Reads(Canonical(added[i]), x) ensures x in u {
        InUnion(previous, added, Canonical(added[i]));
        var j :| 0 <= j < |u| && u[j] == Canonical(added[i]);
        assert Reads(u[j], x);
        JoinReads(u, x);
        InUnion(back, added, x);
      }
    }
  }

  lemma EmptyUnion(previous: seq<string>, added: seq<string>)
    requires UnionOf(previous, added) == []
    ensures UnionOf(ParseDomains(Join(UnionOf(previous, added), ',')), added) == []
    ensures PiecesListed(added, [])
  {}

  lemma BlockAgain(b: Block, from: string, first: seq<string>, second: seq<string>, r: Request)
    ensures NextBlock(NextBlock(b, from, first, r), from, second, r) == NextBlock(b, from, first, r) <==>
            Join(first, ',') == Join(second, ',')
  {
    NextVarsTwice(Or(b.vars), from, first, second);
    if b.email.Some? { NextEmailTwice(b.email.value, r); }
  }

  lemma WrittenAgain(c: Config, env: Option<string>, b: Block, b': Block)
    requires env.Some? ==> env.value in c.envs
    ensures OwnBlock(WithBlock(c, env, b), env) == Some(b)
    ensures WithBlock(WithBlock(c, env, b), env, b') == WithBlock(c, env, b) <==> b' == b
  {}

  /**
   * Planning again from the written file changes nothing exactly when everything the added names
   * read as is already in the union: always, for names without commas.
   */
  lemma ReplanUnchangedIff(tracked: Config, generated: Option<Config>, env: Option<string>, r: Request,
                           u: Update, again: Update)
    requires Planned(tracked, generated, env, r, u) && Planned(tracked, Some(u.config), env, r, again)
    ensures !again.changed <==> PiecesListed(r.addDomains, u.domains)
  {
    var source := if generated.Some? then generated.value else tracked;
    var block := OwnBlock(source, env).value;
    var next := NextBlock(block, u.nextFrom, u.domains, r);
    WrittenIsShipped(tracked, generated, env, r, u);
    assert again.nextFrom == u.nextFrom;
    WrittenAgain(source, env, next, NextBlock(next, u.nextFrom, again.domains, r));
    BlockAgain(block, u.nextFrom, u.domains, again.domains, r);
    PreviousListable(tracked, generated, env, r, u);
    UnionAgain(u.previousDomains, r.addDomains);
    if u.domains == [] {
      EmptyUnion(u.previousDomains, r.addDomains);
    } else {
      UnionIs(u.previousDomains, r.addDomains);
      UnionIs(again.previousDomains, r.addDomains);
      forall x | x in u.domains ensures x in again.domains {
        UnionGrows(u.previousDomains, r.addDomains, x);
      }
      PrintedAlikeIffSame(u.domains, again.domains);
    }
  }

  /** Names without commas read as themselves, so a second plan changes nothing. */
  lemma CommaFreeReplansUnchanged(tracked: Config, generated: Option<Config>, env: Option<string>,
                                  r: Request, u: Update, again: Update)
    requires Planned(tracked, generated, env, r, u) && Planned(tracked, Some(u.config), env, r, again)
    requires forall i | 0 <= i < |r.addDomains| :: ',' !in Canonical(r.addDomains[i])
    ensures !again.changed
  {
    ReplanUnchangedIff(tracked, generated, env, r, u, again);
    forall i, x | 0 <= i < |r.addDomains| && Reads(Canonical(r.addDomains[i]), x) ensures x in u.domains {
      var d := Canonical(r.addDomains[i]);
      CanonicalSettles(r.addDomains[i]);
      InUnion(u.previousDomains, r.addDomains, x);
      if d == "" { EmptyParses(); } else { ListableReadsItself(d); }
    }
  }

  /** Only this environment's block is written, and in it only the two variables and the one list. */
  lemma OthersUntouched(tracked: Config, generated: Option<Config>, env: Option<string>, r: Request, u: Update)
    requires Planned(tracked, generated, env, r, u)
    ensures var source := if generated.Some? then generated.value else tracked;
            && (env.Some? ==> u.config.top == source.top)
            && u.config.envs.Keys == source.envs.Keys
            && (forall e | e in source.envs && Some(e) != env :: u.config.envs[e] == source.envs[e])
            && var was, now := OwnBlock(source, env).value, OwnBlock(u.config, env).value;
            && now == was.(vars := now.vars, email := now.email)
            && (forall n | n != FROM && n != DOMAINS :: Lookup(Or(now.vars), n) == Lookup(Or(was.vars), n))
            && |Or(now.email)| == |Or(was.email)|
            && forall i | 0 <= i < |Or(was.email)| && BindingAt(Or(was.email)) != Some(i) ::
                 Or(now.email)[i] == Or(was.email)[i]
  {
    var source := if generated.Some? then generated.value else tracked;
    var was := OwnBlock(source, env).value;
    assert OwnBlock(u.config, env) == Some(NextBlock(was, u.nextFrom, u.domains, r));
    forall n | n != FROM && n != DOMAINS
      ensures Lookup(NextVars(Or(was.vars), u.nextFrom, u.domains), n) == Lookup(Or(was.vars), n)
    {
      NextVarsLookup(Or(was.vars), u.nextFrom, u.domains, n);
    }
  }

  /** Who may send never shrinks, and an unbounded permission is bounded only on request. */
  lemma SendersOnlyWiden(tracked: Config, generated: Option<Config>, env: Option<string>, r: Request, u: Update)
    requires Planned(tracked, generated, env, r, u)
    ensures var source := if generated.Some? then generated.value else tracked;
            var was, now := Or(OwnBlock(source, env).value.email), Or(OwnBlock(u.config, env).value.email);
            match u.shape
            case NoBinding => now == was
            case Unbounded =>
              if !r.restrictSenders then now == was
              else now[BindingAt(was).value].value.Some?
                   && forall x :: x in now[BindingAt(was).value].value.value <==> x in r.addSenders
            case Bounded =>
              now[BindingAt(was).value].value.Some? &&
              forall x :: x in now[BindingAt(was).value].value.value <==>
                x in was[BindingAt(was).value].value.value || x in r.addSenders
  {
    var source := if generated.Some? then generated.value else tracked;
    var block := OwnBlock(source, env).value;
    assert OwnBlock(u.config, env) == Some(NextBlock(block, u.nextFrom, u.domains, r));
    var was := Or(block.email);
    if u.shape.Bounded? {
      var all := Or(was[BindingAt(was).value].value) + r.addSenders;
      DedupeKeeps(all);
      SortKeeps(Dedupe(all));
    }
    DedupeKeeps(r.addSenders);
    SortKeeps(Dedupe(r.addSenders));
  }
}
