/**
 * Which name gets Email Sending and what its DMARC says (scripts/lib/sending-plan.ts), and the
 * command line by which onboarding hands that plan to setup:sending.
 */
module SendingPlan {
  import opened Common
  import opened Text

  // ---------------------------------------------------------------- names

  predicate IsLetter(c: char) {
    'a' <= c <= 'z'
  }

  predicate LabelChar(c: char) {
    IsLetter(c) || '0' <= c <= '9' || c == '-'
  }

  /** Host characters, then a dot, then a top-level name of two letters or more. */
  predicate ZoneShaped(s: string) {
    exists n | 1 <= n < |s| - 2 ::
      && s[n] == '.'
      && (forall i | 0 <= i < n :: LabelChar(s[i]) || s[i] == '.')
      && (forall i | n < i < |s| :: IsLetter(s[i]))
  }

  /** Dot-separated labels, none empty. */
  predicate LabelShaped(s: string) {
    var parts := Split(s, '.');
    forall i | 0 <= i < |parts| :: parts[i] != "" && forall c | c in parts[i] :: LabelChar(c)
  }

  function WithoutFinalDot(s: string): string {
    if s != "" && s[|s| - 1] == '.' then s[..|s| - 1] else s
  }

  function NormalizeZone(raw: Option<string>): Option<string> {
    var normalized := WithoutFinalDot(Canonical(if raw.Some? then raw.value else ""));
    if ZoneShaped(normalized) then Some(normalized) else None
  }

  datatype Target = Target(zone: string, sub: Option<string>) {
    predicate IsApex() {
      sub.None?
    }

    function SendingDomain(): string {
      if sub.Some? then sub.value + "." + zone else zone
    }
  }

  /** The label under the zone, or the zone itself when it is named explicitly. */
  function ResolveTarget(zone: string, subdomain: Option<string>, apex: bool): Option<Target> {
    var raw := if subdomain.Some? then Trim(subdomain.value) else "";
    var lowered := WithoutFinalDot(Lower(raw));
    var namesApex := subdomain.Some? && (lowered == "@" || lowered == zone);
    if apex && raw != "" && !namesApex then None
    else if apex || namesApex then Some(Target(zone, None))
    else
      var fallback := if lowered != "" then lowered else "send";
      var relative := if EndsWith(fallback, "." + zone)
                      then fallback[..|fallback| - |zone| - 1] else fallback;
      if LabelShaped(relative) then Some(Target(zone, Some(relative))) else None
  }

  datatype DmarcPlan = DmarcPlan(policy: string, alignment: string, rua: Option<string>)

  function NonBlank(s: Option<string>): Option<string> {
    if s.Some? && Trim(s.value) != "" then Some(Trim(s.value)) else None
  }

  /** The apex record governs every sender, so there it has no default policy. */
  function ResolveDmarc(target: Target, policy: Option<string>, alignment: Option<string>,
                        rua: Option<string>): Option<DmarcPlan>
  {
    var p := NonBlank(policy);
    var a := NonBlank(alignment);
    if target.IsApex() && p.None? then None
    else
      var policy' := if p.Some? then Lower(p.value) else "none";
      var alignment' := if a.Some? then Lower(a.value) else "relaxed";
      if policy' !in {"none", "quarantine", "reject"} || alignment' !in {"relaxed", "strict"} then None
      else Some(DmarcPlan(policy', alignment', NonBlank(rua)))
  }

  // ---------------------------------------------------------------- what is accepted, and as what

  /** The code of a small letter, a digit or the hyphen. */
  ghost predicate LabelCode(n: int) {
    97 <= n <= 122 || 48 <= n <= 57 || n == 45
  }

  /** Letters, digits, hyphens and dots, a dot, and two letters or more. */
  ghost predicate ZoneParts(s: string, front: string, tld: string) {
    && s == front + "." + tld && front != "" && |tld| >= 2
    && (forall i | 0 <= i < |front| :: LabelCode(front[i] as int) || front[i] == '.')
    && forall i | 0 <= i < |tld| :: 97 <= tld[i] as int <= 122
  }

  lemma LabelCharIff(c: char)
    ensures LabelChar(c) <==> LabelCode(c as int)
    ensures IsLetter(c) <==> 97 <= c as int <= 122
  {}

  lemma ZoneMeans(s: string)
    ensures ZoneShaped(s) <==> exists front, tld :: ZoneParts(s, front, tld)
  {
    if ZoneShaped(s) {
      var n :| 1 <= n < |s| - 2 && s[n] == '.' && (forall i | 0 <= i < n :: LabelChar(s[i]) || s[i] == '.')
               && (forall i | n < i < |s| :: IsLetter(s[i]));
      ZoneSplit(s, n);
    }
    if front, tld :| ZoneParts(s, front, tld) { ZoneJoined(s, front, tld); }
  }

  lemma ZoneSplit(s: string, n: int)
    requires 1 <= n < |s| - 2 && s[n] == '.'
    requires (forall i | 0 <= i < n :: LabelChar(s[i]) || s[i] == '.') && forall i | n < i < |s| :: IsLetter(s[i])
    ensures ZoneParts(s, s[..n], s[n + 1..])
  {
    assert s == s[..n] + "." + s[n + 1..];
    forall i | 0 <= i < n ensures LabelCode(s[i] as int) || s[i] == '.' { LabelCharIff(s[i]); }
    forall i | n < i < |s| ensures 97 <= s[i] as int <= 122 { LabelCharIff(s[i]); }
  }

  lemma ZoneJoined(s: string, front: string, tld: string)
    requires ZoneParts(s, front, tld)
    ensures ZoneShaped(s)
  {
    var n := |front|;
    assert s[n] == '.';
    forall i | 0 <= i < n ensures LabelChar(s[i]) || s[i] == '.' {
      assert s[i] == front[i];
      LabelCharIff(s[i]);
    }
    forall i | n < i < |s| ensures IsLetter(s[i]) {
      assert s[i] == tld[i - n - 1];
      LabelCharIff(s[i]);
    }
    assert 1 <= n < |s| - 2;
  }

  ghost predicate LabelParts(parts: seq<string>) {
    && parts != []
    && forall i | 0 <= i < |parts| :: parts[i] != "" && forall c | c in parts[i] :: LabelCode(c as int)
  }

  /** Labels of letters, digits and hyphens, none empty, with dots between them. */
  lemma LabelMeans(s: string)
    ensures LabelShaped(s) <==> exists parts :: LabelParts(parts) && s == Join(parts, '.')
  {
    forall c: char ensures LabelChar(c) <==> LabelCode(c as int) { LabelCharIff(c); }
    if LabelShaped(s) {
      JoinSplit(s, '.');
      assert LabelParts(Split(s, '.'));
    }
    if parts :| LabelParts(parts) && s == Join(parts, '.') {
      assert !LabelCode('.' as int);
      SplitJoin(parts, '.');
    }
  }

  ghost predicate Given(s: Option<string>) {
    s.Some? && Trim(s.value) != ""
  }

  /** The plan a policy, an alignment and a report address make; None where one is not a word that is known. */
  ghost predicate DmarcFor(apex: bool, policy: Option<string>, alignment: Option<string>, rua: Option<string>,
                            plan: Option<DmarcPlan>)
  {
    var p := if Given(policy) then Lower(Trim(policy.value)) else "none";
    var a := if Given(alignment) then Lower(Trim(alignment.value)) else "relaxed";
    if (apex && !Given(policy)) || p !in {"none", "quarantine", "reject"} || a !in {"relaxed", "strict"} then
      plan == None
    else
      && plan.Some? && plan.value.policy == p && plan.value.alignment == a
      && if Given(rua) then plan.value.rua == Some(Trim(rua.value)) else plan.value.rua == None
  }

  lemma DmarcMeans(target: Target, policy: Option<string>, alignment: Option<string>, rua: Option<string>)
    ensures DmarcFor(target.sub.None?, policy, alignment, rua, ResolveDmarc(target, policy, alignment, rua))
  {}

  /** The name asked for, folded, without blanks around it or a final dot. */
  ghost function Asked(sub: Option<string>): string {
    if sub.Some? then WithoutFinalDot(Lower(Trim(sub.value))) else ""
  }

  /** The apex only when it is named or flagged, else a label under the zone; a flag beside a label is refused. */
  ghost predicate TargetFor(zone: string, sub: Option<string>, apex: bool, t: Option<Target>) {
    if sub.Some? && (Asked(sub) == "@" || Asked(sub) == zone) then t == Some(Target(zone, None))
    else if apex then t == if Given(sub) then None else Some(Target(zone, None))
    else
      LabelFor(zone, if Asked(sub) == "" then "send" else Asked(sub), t)
  }

  /** The name, or what is left of it without the zone, if that is a label. */
  ghost predicate LabelFor(zone: string, name: string, t: Option<Target>) {
    || (exists front :: Under(name, front, zone)
          && t == if LabelShaped(front) then Some(Target(zone, Some(front))) else None)
    || ((forall front :: !Under(name, front, zone))
        && t == if LabelShaped(name) then Some(Target(zone, Some(name))) else None)
  }

  ghost predicate Under(name: string, front: string, zone: string) {
    name == front + "." + zone
  }

  lemma UnderIff(name: string, zone: string)
    ensures EndsWith(name, "." + zone) <==> exists front :: Under(name, front, zone)
    ensures forall front | Under(name, front, zone) :: |front| + |zone| + 1 == |name| && front == name[..|front|]
  {
    if EndsWith(name, "." + zone) {
      var front := name[..|name| - |zone| - 1];
      assert name == front + ("." + zone);
      assert Under(name, front, zone);
    }
    forall front | Under(name, front, zone) ensures EndsWith(name, "." + zone) {
      assert name == front + ("." + zone);
    }
  }

  lemma RelativeFor(zone: string, name: string, t: Option<Target>)
    requires var relative := if EndsWith(name, "." + zone) then name[..|name| - |zone| - 1] else name;
             t == if LabelShaped(relative) then Some(Target(zone, Some(relative))) else None
    ensures LabelFor(zone, name, t)
  {
    UnderIff(name, zone);
  }

  lemma AskedIs(sub: Option<string>)
    ensures Asked(sub) == WithoutFinalDot(Lower(if sub.Some? then Trim(sub.value) else ""))
  {}

  lemma TargetMeans(zone: string, sub: Option<string>, apex: bool)
    ensures TargetFor(zone, sub, apex, ResolveTarget(zone, sub, apex))
  {
    AskedIs(sub);
    if !apex && !(sub.Some? && (Asked(sub) == "@" || Asked(sub) == zone)) {
      RelativeFor(zone, if Asked(sub) == "" then "send" else Asked(sub), ResolveTarget(zone, sub, apex));
    }
  }

  lemma ResolvesUnder(zone: string, full: string, sub: string)
    requires WithoutFinalDot(Lower(Trim(full))) == full && Under(full, sub, zone) && LabelShaped(sub)
    requires full != "@" && full != zone && full != ""
    ensures ResolveTarget(zone, Some(full), false) == Some(Target(zone, Some(sub)))
  {
    UnderIff(full, zone);
    assert full[..|full| - |zone| - 1] == sub;
  }

  /** A name spelled in full, label, dot and zone, resolves to the target it is the sending domain of. */
  lemma FullNameReadBack(zone: string, sub: string)
    requires ZoneShaped(zone) && LabelShaped(sub)
    ensures Target(zone, Some(sub)).SendingDomain() == sub + "." + zone
    ensures Target(zone, None).SendingDomain() == zone
    ensures ResolveTarget(zone, Some(sub + "." + zone), false) == Some(Target(zone, Some(sub)))
  {
    FullPlain(zone, sub);
    ZoneFolded(zone);
    assert |sub + "." + zone| == |sub| + 1 + |zone| > 1;
    ResolvesUnder(zone, sub + "." + zone, sub);
  }

  lemma FullPlain(zone: string, sub: string)
    requires ZoneShaped(zone) && LabelShaped(sub)
    ensures WithoutFinalDot(Lower(Trim(sub + "." + zone))) == sub + "." + zone
  {
    var full := sub + "." + zone;
    ZoneReadBack(zone);
    ZoneFolded(zone);
    LabelFolded(sub);
    forall i | 0 <= i < |full| ensures LowerChar(full[i]) == full[i] && !IsBlank(full[i]) {
      if i < |sub| { assert full[i] == sub[i]; }
      if i > |sub| { assert full[i] == zone[i - |sub| - 1]; }
    }
    TrimSettles(full);
    assert Lower(full) == full;
    assert full[|full| - 1] == zone[|zone| - 1];
  }

  lemma ZoneFolded(zone: string)
    requires ZoneShaped(zone)
    ensures forall i | 0 <= i < |zone| :: LowerChar(zone[i]) == zone[i] && !IsBlank(zone[i])
    ensures zone != "" && zone[|zone| - 1] != '.'
  {
    var n :| 1 <= n < |zone| - 2 && zone[n] == '.'
             && (forall i | 0 <= i < n :: LabelChar(zone[i]) || zone[i] == '.')
             && (forall i | n < i < |zone| :: IsLetter(zone[i]));
    forall i | 0 <= i < |zone| ensures LowerChar(zone[i]) == zone[i] && !IsBlank(zone[i]) {
      if i < n { assert LabelChar(zone[i]) || zone[i] == '.'; }
      if i > n { assert IsLetter(zone[i]); }
    }
    assert IsLetter(zone[|zone| - 1]);
  }

  lemma LabelFolded(sub: string)
    requires LabelShaped(sub)
    ensures forall i | 0 <= i < |sub| :: LowerChar(sub[i]) == sub[i] && !IsBlank(sub[i])
    ensures sub != ""
  {
    SplitCovers(sub, '.');
    forall c | c in sub ensures LabelChar(c) || c == '.' {
      if c != '.' {
        assert InPart(Split(sub, '.'), c);
        var i :| 0 <= i < |Split(sub, '.')| && c in Split(sub, '.')[i];
      }
    }
    assert Split("", '.')[0] == "";
    forall i | 0 <= i < |sub| ensures LowerChar(sub[i]) == sub[i] && !IsBlank(sub[i]) {
      assert sub[i] in sub;
    }
  }

  // ---------------------------------------------------------------- the command line

  datatype Dmarc = Dmarc(policy: string, alignment: Option<string>, rua: Option<string>)

  /** A rendered option: `--key`, or `--key value`. */
  datatype Item = Flag(key: string) | Pair(key: string, value: string)

  function Render(items: seq<Item>): seq<string> {
    if items == [] then []
    else
      (match items[0]
       case Flag(k) => ["--" + k]
       case Pair(k, v) => ["--" + k, v]) + Render(items[1..])
  }

  function Optional(key: string, value: Option<string>): seq<Item> {
    if value.Some? then [Pair(key, value.value)] else []
  }

  function TargetItem(target: Target): Item {
    if target.IsApex() then Flag("apex") else Pair("subdomain", target.sub.value)
  }

  function SetupItems(env: Option<string>, target: Target, dmarc: Dmarc, apply: bool): seq<Item> {
    Optional("env", env) + [Pair("domain", target.zone), TargetItem(target),
    Pair("dmarc-policy", dmarc.policy)] + Optional("dmarc-alignment", dmarc.alignment)
    + Optional("dmarc-rua", dmarc.rua) + (if apply then [Flag("apply")] else [])
  }

  /** scripts/lib/onboard-core.ts: setupSendingArgs. */
  function SetupSendingArgs(env: Option<string>, target: Target, dmarc: Dmarc, apply: bool): seq<string> {
    ["setup:sending"] + Render(SetupItems(env, target, dmarc, apply))
  }

  predicate FlagLike(s: string) {
    "--" <= s
  }

  function ParseFrom(argv: seq<string>, args: map<string, string>): map<string, string>
    decreases |argv|
  {
    if argv == [] then args
    else if !FlagLike(argv[0]) then ParseFrom(argv[1..], args)
    else
      var parts := Split(argv[0][2..], '=');
      if parts[0] == "" then ParseFrom(argv[1..], args)
      else if |parts| > 1 then ParseFrom(argv[1..], args[parts[0] := parts[1]])
      else if |argv| == 1 || argv[1] == "" || FlagLike(argv[1])
      then ParseFrom(argv[1..], args[parts[0] := "true"])
      else ParseFrom(argv[2..], args[parts[0] := argv[1]])
  }

  /** scripts/setup-sending.ts: parseArgs, an index loop that may take two arguments at once. */
  method ParseArgs(argv: seq<string>) returns (args: map<string, string>)
    ensures args == ParseFrom(argv, map[])
  {
    args := map[];
    var i := 0;
    while i < |argv|
      invariant i <= |argv| && ParseFrom(argv[i..], args) == ParseFrom(argv, map[])
      decreases |argv| - i
    {
      var rest := argv[i..];
      assert rest[1..] == argv[i + 1..];
      assert i + 1 < |argv| ==> rest[2..] == argv[i + 2..];
      var arg := argv[i];
      i := i + 1;
      if !FlagLike(arg) { continue; }
      var parts := Split(arg[2..], '=');
      if parts[0] == "" { continue; }
      if |parts| > 1 {
        args := args[parts[0] := parts[1]];
        continue;
      }
      if i == |argv| || argv[i] == "" || FlagLike(argv[i]) {
        args := args[parts[0] := "true"];
        continue;
      }
      args := args[parts[0] := argv[i]];
      i := i + 1;
    }
  }

  // ---------------------------------------------------------------- what the parser makes of it

  predicate KeyLike(k: string) {
    k != "" && '=' !in k
  }

  /** A value that looks like a flag is read as one. */
  function Stray(args: map<string, string>, v: string): map<string, string>
    requires FlagLike(v)
  {
    var parts := Split(v[2..], '=');
    if parts[0] == "" then args
    else args[parts[0] := if |parts| > 1 then parts[1] else "true"]
  }

  function ReadItem(args: map<string, string>, item: Item): map<string, string> {
    match item
    case Flag(k) => args[k := "true"]
    case Pair(k, v) =>
      if v == "" then args[k := "true"]
      else if FlagLike(v) then Stray(args[k := "true"], v)
      else args[k := v]
  }

  function ReadItems(args: map<string, string>, items: seq<Item>): map<string, string>
    decreases |items|
  {
    if items == [] then args else ReadItems(ReadItem(args, items[0]), items[1..])
  }

  lemma RenderFlags(items: seq<Item>)
    ensures Render(items) == [] || FlagLike(Render(items)[0])
  {}

  /** A stray value is one argument, whether or not anything can be taken from it. */
  lemma StrayRead(v: string, rest: seq<string>, args: map<string, string>)
    requires rest == [] || FlagLike(rest[0])
    ensures ParseFrom([v] + rest, args) ==
            ParseFrom(rest, if FlagLike(v) then Stray(args, v) else args)
  {}

  lemma FlagRead(k: string, rest: seq<string>, args: map<string, string>)
    requires KeyLike(k) && (rest == [] || FlagLike(rest[0]))
    ensures ParseFrom(["--" + k] + rest, args) == ParseFrom(rest, args[k := "true"])
  {
    SplitOfFree(k, '=');
    assert ("--" + k)[2..] == k;
    assert (["--" + k] + rest)[1..] == rest;
  }

  lemma PairRead(k: string, v: string, rest: seq<string>, args: map<string, string>)
    requires KeyLike(k) && (rest == [] || FlagLike(rest[0]))
    ensures ParseFrom(["--" + k, v] + rest, args) == ParseFrom(rest, ReadItem(args, Pair(k, v)))
  {
    var argv := ["--" + k, v] + rest;
    SplitOfFree(k, '=');
    assert ("--" + k)[2..] == k;
    assert argv[1..] == [v] + rest && argv[2..] == rest;
    StrayRead(v, rest, args[k := "true"]);
  }

  lemma {:induction false} ParseRendered(items: seq<Item>, args: map<string, string>)
    requires forall i | 0 <= i < |items| :: KeyLike(items[i].key)
    ensures ParseFrom(Render(items), args) == ReadItems(args, items)
    decreases |items|
  {
    if items != [] {
      var rest := Render(items[1..]);
      RenderFlags(items[1..]);
      ParseRendered(items[1..], ReadItem(args, items[0]));
      match items[0]
      case Flag(k) => FlagRead(k, rest, args);
      case Pair(k, v) => PairRead(k, v, rest, args);
    }
  }

  lemma {:induction false} ReadConcat(args: map<string, string>, a: seq<Item>, b: seq<Item>)
    ensures ReadItems(args, a + b) == ReadItems(ReadItems(args, a), b)
    decreases |a|
  {
    if a == [] {
      assert a + b == b;
    } else {
      assert (a + b)[0] == a[0] && (a + b)[1..] == a[1..] + b;
      ReadConcat(ReadItem(args, a[0]), a[1..], b);
    }
  }

  // ---------------------------------------------------------------- names are read as written

  lemma ZoneReadBack(zone: string)
    requires ZoneShaped(zone)
    ensures NormalizeZone(Some(zone)) == Some(zone) && '=' !in zone && '.' in zone
    ensures zone[0] != '@'
  {
    var n :| 1 <= n < |zone| - 2 && zone[n] == '.'
             && (forall i | 0 <= i < n :: LabelChar(zone[i]) || zone[i] == '.')
             && (forall i | n < i < |zone| :: IsLetter(zone[i]));
    forall i | 0 <= i < |zone|
      ensures !IsBlank(zone[i]) && LowerChar(zone[i]) == zone[i] && zone[i] != '='
    {
      if i < n { assert LabelChar(zone[i]) || zone[i] == '.'; }
      if i > n { assert IsLetter(zone[i]); }
    }
    assert IsLetter(zone[|zone| - 1]);
    CanonicalSettles(zone);
  }

  predicate InPart(parts: seq<string>, c: char) {
    exists i :: 0 <= i < |parts| && c in parts[i]
  }

  lemma {:induction false} SplitCovers(s: string, sep: char)
    ensures forall c | c in s && c != sep :: InPart(Split(s, sep), c)
  {
    if s != "" {
      var r, all := Split(s[1..], sep), Split(s, sep);
      SplitCovers(s[1..], sep);
      forall c | c in s && c != sep ensures InPart(all, c) {
        if c == s[0] {
          assert c in all[0];
        } else {
          assert c in s[1..] && InPart(r, c);
          var i :| 0 <= i < |r| && c in r[i];
          assert c in all[if s[0] == sep then i + 1 else i];
        }
      }
    }
  }

  lemma {:induction false} SplitEnd(s: string, sep: char)
    requires s != "" && s[|s| - 1] == sep
    ensures |Split(s, sep)| > 1 && Split(s, sep)[|Split(s, sep)| - 1] == ""
  {
    if |s| > 1 { SplitEnd(s[1..], sep); }
  }

  lemma LabelReadBack(name: string)
    requires LabelShaped(name)
    ensures name != "" && WithoutFinalDot(Lower(Trim(name))) == name
    ensures '@' !in name && '=' !in name
  {
    SplitCovers(name, '.');
    forall c | c in name ensures LabelChar(c) || c == '.' {
      if c != '.' {
        assert InPart(Split(name, '.'), c);
        var i :| 0 <= i < |Split(name, '.')| && c in Split(name, '.')[i];
      }
    }
    assert Split("", '.')[0] == "";
    if name != "" && name[|name| - 1] == '.' { SplitEnd(name, '.'); }
    forall i | 0 <= i < |name| ensures !IsBlank(name[i]) && LowerChar(name[i]) == name[i] {
      assert name[i] in name;
    }
    assert Trimmed(name) && IsLower(name);
    TrimSettles(name);
    CanonicalSettles(name);
  }

  // ---------------------------------------------------------------- the round trip

  datatype Command = Command(env: Option<string>, target: Target, dmarc: DmarcPlan, apply: bool)

  function Get(args: map<string, string>, key: string): Option<string> {
    if key in args then Some(args[key]) else None
  }

  /** What setup:sending does with its arguments. */
  function Interpret(args: map<string, string>): Option<Command> {
    var zone := NormalizeZone(Get(args, "domain"));
    if zone.None? then None
    else
      var target := ResolveTarget(zone.value, Get(args, "subdomain"), Get(args, "apex") == Some("true"));
      if target.None? then None
      else
        var plan := ResolveDmarc(target.value, Get(args, "dmarc-policy"), Get(args, "dmarc-alignment"),
                                 Get(args, "dmarc-rua"));
        if plan.None? then None
        else Some(Command(Get(args, "env"), target.value, plan.value, Get(args, "apply") == Some("true")))
  }

  /** What a validated manifest hands over. */
  predicate Accepted(env: Option<string>, target: Target, dmarc: Dmarc) {
    && (env.Some? ==> env.value != "")
    && ZoneShaped(target.zone) && (target.sub.Some? ==> LabelShaped(target.sub.value))
    && dmarc.policy in {"none", "quarantine", "reject"}
    && (dmarc.alignment.Some? ==> dmarc.alignment.value in {"relaxed", "strict"})
    && (dmarc.rua.Some? ==> dmarc.rua.value != "" && Trimmed(dmarc.rua.value))
  }

  function PlanOf(dmarc: Dmarc): DmarcPlan {
    DmarcPlan(dmarc.policy, if dmarc.alignment.Some? then dmarc.alignment.value else "relaxed", dmarc.rua)
  }

  predicate Plain(v: Option<string>) {
    v.Some? ==> !FlagLike(v.value)
  }

  /** The label is still a label when it is read relative to the zone again. */
  predicate StaysUnder(target: Target) {
    target.sub.Some? ==>
      target.sub.value != target.zone && !EndsWith(target.sub.value, "." + target.zone)
  }

  /** The values a parser of flags can carry. */
  predicate Carried(env: Option<string>, target: Target, dmarc: Dmarc) {
    && Plain(env) && !FlagLike(target.zone) && Plain(target.sub) && Plain(dmarc.rua)
    && StaysUnder(target)
  }

  lemma {:induction false} ReadOne(args: map<string, string>, item: Item)
    ensures ReadItems(args, [item]) == ReadItem(args, item)
  {}

  lemma ReadOptional(args: map<string, string>, key: string, value: Option<string>)
    requires value.Some? ==> value.value != ""
    ensures ReadItems(args, Optional(key, value)) ==
            if value.None? then args
            else if FlagLike(value.value) then Stray(args[key := "true"], value.value)
            else args[key := value.value]
  {}

  /** The argument map, option by option. */
  function ReadSetup(env: Option<string>, target: Target, dmarc: Dmarc, apply: bool): map<string, string> {
    var args := ReadDmarc(ReadTarget(env, target), dmarc);
    if apply then args["apply" := "true"] else args
  }

  lemma SetupRead(env: Option<string>, target: Target, dmarc: Dmarc, apply: bool)
    ensures ParseFrom(SetupSendingArgs(env, target, dmarc, apply), map[]) ==
            ReadSetup(env, target, dmarc, apply)
  {
    var items := SetupItems(env, target, dmarc, apply);
    PlainWord("setup:sending");
    SetupKeys(env, target, dmarc, apply);
    ParseSkips("setup:sending", Render(items), map[]);
    ParseRendered(items, map[]);
    SetupFolds(env, target, dmarc, apply);
  }

  lemma SetupKeys(env: Option<string>, target: Target, dmarc: Dmarc, apply: bool)
    ensures var items := SetupItems(env, target, dmarc, apply);
            forall i | 0 <= i < |items| :: KeyLike(items[i].key)
  {
    assert forall k | k in {"env", "domain", "apex", "subdomain", "dmarc-policy", "dmarc-alignment",
                            "dmarc-rua", "apply"} :: KeyLike(k);
  }

  lemma PlainWord(s: string)
    requires s != "" && s[0] != '-'
    ensures !FlagLike(s)
  {}

  lemma ParseSkips(word: string, rest: seq<string>, args: map<string, string>)
    requires !FlagLike(word)
    ensures ParseFrom([word] + rest, args) == ParseFrom(rest, args)
  {}

  lemma SetupFolds(env: Option<string>, target: Target, dmarc: Dmarc, apply: bool)
    ensures ReadItems(map[], SetupItems(env, target, dmarc, apply)) == ReadSetup(env, target, dmarc, apply)
  {
    var o1 := Optional("env", env);
    var mid := [Pair("domain", target.zone), TargetItem(target), Pair("dmarc-policy", dmarc.policy)];
    var o2, o3 := Optional("dmarc-alignment", dmarc.alignment), Optional("dmarc-rua", dmarc.rua);
    var last: seq<Item> := if apply then [Flag("apply")] else [];
    var a := ReadItems(map[], o1);
    ReadConcat(map[], o1 + mid + o2 + o3, last);
    ReadConcat(map[], o1 + mid + o2, o3);
    ReadConcat(map[], o1 + mid, o2);
    ReadConcat(map[], o1, mid);
    ReadThree(a, mid[0], mid[1], mid[2]);
    if apply {
      ReadOne(ReadItems(map[], o1 + mid + o2 + o3), Flag("apply"));
    }
  }

  lemma ReadThree(args: map<string, string>, x: Item, y: Item, z: Item)
    ensures ReadItems(args, [x, y, z]) == ReadItem(ReadItem(ReadItem(args, x), y), z)
  {
    assert [x, y, z] == [x] + ([y] + [z]);
    ReadConcat(args, [x], [y] + [z]);
    ReadConcat(ReadItem(args, x), [y], [z]);
    ReadOne(args, x);
    ReadOne(ReadItem(args, x), y);
    ReadOne(ReadItem(ReadItem(args, x), y), z);
  }

  predicate TargetRead(args: map<string, string>, env: Option<string>, target: Target) {
    && Get(args, "env") == env && Get(args, "domain") == Some(target.zone)
    && Get(args, "subdomain") == target.sub
    && Get(args, "apex") == (if target.IsApex() then Some("true") else None)
  }

  predicate DmarcRead(args: map<string, string>, dmarc: Dmarc) {
    && Get(args, "dmarc-policy") == Some(dmarc.policy)
    && Get(args, "dmarc-alignment") == dmarc.alignment && Get(args, "dmarc-rua") == dmarc.rua
  }

  function ReadTarget(env: Option<string>, target: Target): map<string, string> {
    ReadItem(ReadItem(ReadItems(map[], Optional("env", env)), Pair("domain", target.zone)),
             TargetItem(target))
  }

  lemma CarriedTarget(env: Option<string>, target: Target)
    requires (env.Some? ==> env.value != "") && ZoneShaped(target.zone)
    requires target.sub.Some? ==> target.sub.value != ""
    requires Plain(env) && !FlagLike(target.zone) && Plain(target.sub)
    ensures TargetRead(ReadTarget(env, target), env, target)
    ensures ReadTarget(env, target).Keys <= {"env", "domain", "subdomain", "apex"}
  {
    ReadOptional(map[], "env", env);
  }

  function ReadDmarc(args: map<string, string>, dmarc: Dmarc): map<string, string> {
    ReadItems(ReadItems(ReadItem(args, Pair("dmarc-policy", dmarc.policy)),
                        Optional("dmarc-alignment", dmarc.alignment)),
              Optional("dmarc-rua", dmarc.rua))
  }

  lemma CarriedDmarc(args: map<string, string>, dmarc: Dmarc)
    requires args.Keys <= {"env", "domain", "subdomain", "apex"}
    requires dmarc.policy in {"none", "quarantine", "reject"} && Plain(dmarc.rua)
    requires dmarc.alignment.Some? ==> dmarc.alignment.value in {"relaxed", "strict"}
    requires dmarc.rua.Some? ==> dmarc.rua.value != ""
    ensures var args' := ReadDmarc(args, dmarc);
            && DmarcRead(args', dmarc) && "apply" !in args'
            && forall k | k in {"env", "domain", "subdomain", "apex"} :: Get(args', k) == Get(args, k)
  {
    var p := ReadItem(args, Pair("dmarc-policy", dmarc.policy));
    PlainWord(dmarc.policy);
    if dmarc.alignment.Some? { PlainWord(dmarc.alignment.value); }
    ReadOptional(p, "dmarc-alignment", dmarc.alignment);
    ReadOptional(ReadItems(p, Optional("dmarc-alignment", dmarc.alignment)), "dmarc-rua", dmarc.rua);
  }

  lemma CarriedRead(env: Option<string>, target: Target, dmarc: Dmarc, apply: bool)
    requires Accepted(env, target, dmarc)
    requires Plain(env) && !FlagLike(target.zone) && Plain(target.sub) && Plain(dmarc.rua)
    ensures var args := ReadSetup(env, target, dmarc, apply);
            && TargetRead(args, env, target) && DmarcRead(args, dmarc)
            && (Get(args, "apply") == Some("true") <==> apply)
  {
    if target.sub.Some? { LabelReadBack(target.sub.value); }
    CarriedTarget(env, target);
    CarriedDmarc(ReadTarget(env, target), dmarc);
  }

  lemma PlanReadBack(target: Target, dmarc: Dmarc)
    requires Accepted(None, target, dmarc)
    ensures ResolveDmarc(target, Some(dmarc.policy), dmarc.alignment, dmarc.rua) == Some(PlanOf(dmarc))
  {
    Enums();
    if dmarc.rua.Some? { TrimSettles(dmarc.rua.value); }
  }

  lemma Enums()
    ensures forall s | s in {"none", "quarantine", "reject", "relaxed", "strict"} ::
              Trim(s) == s && Lower(s) == s
  {
    forall s | s in {"none", "quarantine", "reject", "relaxed", "strict"}
      ensures Trim(s) == s && Lower(s) == s
    {
      assert IsCanonical(s);
      TrimSettles(s);
      CanonicalSettles(s);
    }
  }

  lemma TargetReadBack(target: Target)
    requires ZoneShaped(target.zone) && (target.sub.Some? ==> LabelShaped(target.sub.value))
    ensures ResolveTarget(target.zone, target.sub, target.IsApex()) == Some(target) <==> StaysUnder(target)
  {
    ZoneReadBack(target.zone);
    if target.sub.Some? { LabelReadBack(target.sub.value); }
  }

  lemma {:induction false} SplitShort(s: string, sep: char, i: nat)
    requires i < |Split(s, sep)|
    ensures |Split(s, sep)[i]| <= |s|
  {
    if s != "" && i > 0 {
      SplitShort(s[1..], sep, if s[0] == sep then i - 1 else i);
    } else if s != "" && s[0] != sep {
      SplitShort(s[1..], sep, 0);
    }
  }

  lemma TrimShort(s: string)
    ensures |Trim(s)| <= |s|
  {
    TrimLeftStarts(s);
    TrimRightEnds(TrimLeft(s));
  }

  /** A value read as a flag can only leave `true`, or a piece of itself, in its own place. */
  lemma StrayLeaves(args: map<string, string>, k: string, v: string)
    requires FlagLike(v) && k in args && args[k] == "true"
    ensures k in Stray(args, v)
    ensures Stray(args, v)[k] == "true" || |Stray(args, v)[k]| < |v|
  {
    var parts := Split(v[2..], '=');
    if |parts| > 1 { SplitShort(v[2..], '=', 1); }
  }

  /** Without an `=`, a stray value sets the key it spells to `true` and nothing else. */
  lemma StraySpells(args: map<string, string>, v: string)
    requires FlagLike(v) && '=' !in v
    ensures Stray(args, v) == if v[2..] == "" then args else args[v[2..] := "true"]
  {
    SplitOfFree(v[2..], '=');
  }

  lemma TrueIsPlain(v: string)
    requires FlagLike(v)
    ensures v != "true"
  {
    assert v[0] == '-';
  }

  /** After the domain and the target are read, the environment is still what it was, or `true`. */
  lemma EnvironmentKept(a: map<string, string>, target: Target)
    requires ZoneShaped(target.zone) && (target.sub.Some? ==> LabelShaped(target.sub.value))
    requires "env" in a
    ensures var c := ReadItem(ReadItem(a, Pair("domain", target.zone)), TargetItem(target));
            "env" in c && (c["env"] == a["env"] || c["env"] == "true")
  {
    ZoneReadBack(target.zone);
    if FlagLike(target.zone) { StraySpells(a["domain" := "true"], target.zone); }
    if target.sub.Some? {
      LabelReadBack(target.sub.value);
      if FlagLike(target.sub.value) {
        var b := ReadItem(a, Pair("domain", target.zone));
        StraySpells(b["subdomain" := "true"], target.sub.value);
      }
    }
  }

  /** Reading the rest leaves the earlier keys alone, when the report address is plain. */
  lemma RestKept(args: map<string, string>, dmarc: Dmarc, k: string)
    requires k in {"env", "domain", "subdomain", "apex"} && Plain(dmarc.rua)
    requires dmarc.policy in {"none", "quarantine", "reject"}
    requires dmarc.alignment.Some? ==> dmarc.alignment.value in {"relaxed", "strict"}
    requires dmarc.rua.Some? ==> dmarc.rua.value != ""
    ensures Get(ReadDmarc(args, dmarc), k) == Get(args, k)
  {
    var p := ReadItem(args, Pair("dmarc-policy", dmarc.policy));
    PlainWord(dmarc.policy);
    if dmarc.alignment.Some? { PlainWord(dmarc.alignment.value); }
    ReadOptional(p, "dmarc-alignment", dmarc.alignment);
    ReadOptional(ReadItems(p, Optional("dmarc-alignment", dmarc.alignment)), "dmarc-rua", dmarc.rua);
  }

  lemma FlagLikeReport(env: Option<string>, target: Target, dmarc: Dmarc, apply: bool)
    requires Accepted(env, target, dmarc) && !Plain(dmarc.rua)
    ensures NonBlank(Get(ReadSetup(env, target, dmarc, apply), "dmarc-rua")) != dmarc.rua
  {
    var t := ReadTarget(env, target);
    var e := ReadItems(ReadItem(t, Pair("dmarc-policy", dmarc.policy)),
                       Optional("dmarc-alignment", dmarc.alignment));
    ReadOptional(e, "dmarc-rua", dmarc.rua);
    StrayLeaves(e["dmarc-rua" := "true"], "dmarc-rua", dmarc.rua.value);
    TrueIsPlain(dmarc.rua.value);
    var found := Get(ReadSetup(env, target, dmarc, apply), "dmarc-rua").value;
    TrimShort(found);
    assert Trim("true") == "true" by { TrimSettles("true"); }
  }

  lemma FlagLikeEnvironment(env: Option<string>, target: Target, dmarc: Dmarc, apply: bool)
    requires Accepted(env, target, dmarc) && Plain(dmarc.rua) && !Plain(env)
    ensures Get(ReadSetup(env, target, dmarc, apply), "env") != env
  {
    ReadOptional(map[], "env", env);
    StrayLeaves(map["env" := "true"], "env", env.value);
    TrueIsPlain(env.value);
    EnvironmentKept(ReadItems(map[], Optional("env", env)), target);
    RestKept(ReadTarget(env, target), dmarc, "env");
  }

  lemma FlagLikeZoneRead(a: map<string, string>, target: Target)
    requires ZoneShaped(target.zone) && FlagLike(target.zone)
    ensures var b := ReadItem(a, Pair("domain", target.zone)); "domain" in b && b["domain"] == "true"
  {
    ZoneReadBack(target.zone);
    StraySpells(a["domain" := "true"], target.zone);
    assert target.zone[0] == '-' && target.zone[1] == '-';
    assert '.' in target.zone[2..];
  }

  lemma DomainKept(b: map<string, string>, target: Target)
    requires "domain" in b && b["domain"] == "true"
    requires target.sub.Some? ==> LabelShaped(target.sub.value)
    ensures Get(ReadItem(b, TargetItem(target)), "domain") == Some("true")
  {
    if target.sub.Some? {
      LabelReadBack(target.sub.value);
      if FlagLike(target.sub.value) { StraySpells(b["subdomain" := "true"], target.sub.value); }
    }
  }

  lemma FlagLikeZone(env: Option<string>, target: Target, dmarc: Dmarc, apply: bool)
    requires Accepted(env, target, dmarc) && Plain(dmarc.rua) && FlagLike(target.zone)
    ensures NormalizeZone(Get(ReadSetup(env, target, dmarc, apply), "domain")).None?
  {
    var a := ReadItems(map[], Optional("env", env));
    FlagLikeZoneRead(a, target);
    DomainKept(ReadItem(a, Pair("domain", target.zone)), target);
    RestKept(ReadTarget(env, target), dmarc, "domain");
    NoDotNoZone("true");
  }

  lemma NoDotNoZone(s: string)
    requires IsCanonical(s) && '.' !in s
    ensures NormalizeZone(Some(s)).None?
  {}

  lemma FlagLikeLabel(env: Option<string>, target: Target, dmarc: Dmarc, apply: bool)
    requires Accepted(env, target, dmarc) && Plain(dmarc.rua) && target.sub.Some? && !Plain(target.sub)
    ensures Get(ReadSetup(env, target, dmarc, apply), "subdomain") == Some("true")
  {
    LabelReadBack(target.sub.value);
    var b := ReadItem(ReadItems(map[], Optional("env", env)), Pair("domain", target.zone));
    StraySpells(b["subdomain" := "true"], target.sub.value);
    RestKept(ReadTarget(env, target), dmarc, "subdomain");
  }

  lemma TrueIsALabel(zone: string, apex: bool)
    requires ZoneShaped(zone)
    ensures var t := ResolveTarget(zone, Some("true"), apex); t.Some? ==> t.value.sub == Some("true")
  {
    ZoneReadBack(zone);
    TrimSettles("true");
    assert Lower("true") == "true" by { CanonicalSettles("true"); }
    assert '.' in zone && '.' !in "true";
    assert ("." + zone)[0] == '.';
  }

  /**
   * What onboarding renders and setup:sending parses and resolves is the same environment, target,
   * DMARC plan and mode, exactly when no value looks like a flag and the label stays a label
   * relative to the zone.
   */
  lemma RoundTripIffCarried(env: Option<string>, target: Target, dmarc: Dmarc, apply: bool)
    requires Accepted(env, target, dmarc)
    ensures Interpret(ParseFrom(SetupSendingArgs(env, target, dmarc, apply), map[])) ==
              Some(Command(env, target, PlanOf(dmarc), apply))
            <==> Carried(env, target, dmarc)
  {
    SetupRead(env, target, dmarc, apply);
    if !Plain(dmarc.rua) {
      FlagLikeReport(env, target, dmarc, apply);
    } else if !Plain(env) {
      FlagLikeEnvironment(env, target, dmarc, apply);
    } else if FlagLike(target.zone) {
      FlagLikeZone(env, target, dmarc, apply);
    } else if !Plain(target.sub) {
      FlagLikeLabel(env, target, dmarc, apply);
      FlagLikeLabelMissed(ReadSetup(env, target, dmarc, apply), target);
    } else {
      CarriedRead(env, target, dmarc, apply);
      ZoneReadBack(target.zone);
      TargetReadBack(target);
      PlanReadBack(target, dmarc);
    }
  }

  lemma FlagLikeLabelMissed(args: map<string, string>, target: Target)
    requires target.sub.Some? && FlagLike(target.sub.value) && Get(args, "subdomain") == Some("true")
    ensures Interpret(args).Some? ==> Interpret(args).value.target != target
  {
    TrueIsPlain(target.sub.value);
    var zone := NormalizeZone(Get(args, "domain"));
    if zone.Some? { TrueIsALabel(zone.value, Get(args, "apex") == Some("true")); }
  }
}
