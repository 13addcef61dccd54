/**
 * The DMARC record the program writes (src/lib/dns-gate.ts: buildDmarcValue) and how it reads one
 * (scripts/lib/dmarc.ts: parseDmarcTags): what is written is read back tag by tag.
 */
module Dmarc {
  import opened Common
  import opened Text
  import U = Upserts
  import Plans = SendingPlan

  type Tags = map<string, string>

  // ---------------------------------------------------------------- writing a record

  function TagTexts(plan: Plans.DmarcPlan): seq<string> {
    var mode := if plan.alignment == "strict" then "s" else "r";
    ["v=DMARC1", "p=" + plan.policy, "adkim=" + mode, "aspf=" + mode]
    + (if plan.policy != "none" then ["pct=100"] else [])
    + (if plan.rua.Some? then ["rua=mailto:" + plan.rua.value] else [])
  }

  /** `tags.join("; ")`. */
  function JoinTags(tags: seq<string>): string {
    if |tags| == 0 then ""
    else if |tags| == 1 then tags[0]
    else tags[0] + ";" + (" " + JoinTags(tags[1..]))
  }

  /** src/lib/dns-gate.ts: buildDmarcValue. */
  function DmarcValue(plan: Plans.DmarcPlan): string {
    JoinTags(TagTexts(plan))
  }

  // ---------------------------------------------------------------- reading a record

  /** One `key=value`; a part without a `=` or without a key says nothing. */
  function WithTag(tags: Tags, part: string): Tags {
    if '=' !in part then tags
    else
      var key := Split(part, '=')[0];
      if Lower(Trim(key)) == "" || |part| <= |key| then tags
      else tags[Lower(Trim(key)) := Trim(part[|key| + 1..])]
  }

  function ReadParts(parts: seq<string>, tags: Tags): Tags
    decreases |parts|
  {
    if parts == [] then tags else ReadParts(parts[1..], WithTag(tags, parts[0]))
  }

  /** scripts/lib/dmarc.ts: parseDmarcTags. */
  function ParseTags(txt: string): Option<Tags> {
    var content := U.NormalizeTxt(txt);
    if !U.DmarcTagged(content) then None else Some(ReadParts(Split(content, ';'), map[]))
  }

  // ---------------------------------------------------------------- the parts of a joined record

  ghost predicate Unbroken(s: string) {
    s != "" && ';' !in s && '"' !in s
  }

  ghost predicate AllUnbroken(tags: seq<string>) {
    forall i | 0 <= i < |tags| :: Unbroken(tags[i])
  }

  /** Where the record is split: after the first tag each part keeps the blank before it. */
  ghost function Parted(tags: seq<string>): seq<string>
    decreases |tags|
  {
    if |tags| <= 1 then tags else [tags[0]] + Parted([" " + tags[1]] + tags[2..])
  }

  lemma BlankJoined(tags: seq<string>)
    requires tags != []
    ensures " " + JoinTags(tags) == JoinTags([" " + tags[0]] + tags[1..])
  {
    var spaced := [" " + tags[0]] + tags[1..];
    if |tags| > 1 {
      assert spaced[1..] == tags[1..];
      assert " " + (tags[0] + ";" + (" " + JoinTags(tags[1..]))) ==
             (" " + tags[0]) + ";" + (" " + JoinTags(tags[1..]));
    }
  }

  lemma {:induction false} JoinedSplits(tags: seq<string>)
    requires tags != [] && AllUnbroken(tags)
    ensures Split(JoinTags(tags), ';') == Parted(tags)
    decreases |tags|
  {
    if |tags| == 1 {
      SplitOfFree(tags[0], ';');
    } else {
      var rest := [" " + tags[1]] + tags[2..];
      assert tags[1..][1..] == tags[2..];
      BlankJoined(tags[1..]);
      assert tags[0] + ";" + JoinTags(rest) == tags[0] + [';'] + JoinTags(rest);
      SplitAfterFree(tags[0], ';', JoinTags(rest));
      forall i | 0 <= i < |rest| ensures Unbroken(rest[i]) {
        if i > 0 { assert rest[i] == tags[i + 1]; } else { assert Unbroken(tags[1]); }
      }
      JoinedSplits(rest);
    }
  }

  lemma {:induction false} BlankInFront(tags: Tags, part: string)
    requires '=' in part
    ensures WithTag(tags, " " + part) == WithTag(tags, part)
  {
    var key, value := AtFirst(part, '=');
    SplitAfterFree(key, '=', value);
    assert " " + part == (" " + key) + ['='] + value;
    SplitAfterFree(" " + key, '=', value);
    assert (" " + part)[|" " + key| + 1..] == value && part[|key| + 1..] == value;
    assert (" " + key)[1..] == key;
  }

  lemma ReadOne(part: string, rest: seq<string>, tags: Tags)
    ensures ReadParts([part] + rest, tags) == ReadParts(rest, WithTag(tags, part))
  {
    assert ([part] + rest)[1..] == rest;
  }

  ghost predicate AllPairs(tags: seq<string>) {
    forall i | 0 <= i < |tags| :: '=' in tags[i]
  }

  lemma {:induction false} PartedRead(parts: seq<string>, tags: Tags)
    requires AllPairs(parts)
    ensures ReadParts(Parted(parts), tags) == ReadParts(parts, tags)
    decreases |parts|
  {
    if |parts| > 1 {
      var rest := [" " + parts[1]] + parts[2..];
      var tags' := WithTag(tags, parts[0]);
      ReadOne(parts[0], Parted(rest), tags);
      PartedRead(rest, tags');
      ReadOne(" " + parts[1], parts[2..], tags');
      BlankInFront(tags', parts[1]);
      assert parts == [parts[0]] + ([parts[1]] + parts[2..]);
      ReadOne(parts[0], [parts[1]] + parts[2..], tags);
      ReadOne(parts[1], parts[2..], tags');
    }
  }

  // ---------------------------------------------------------------- reading back what is written

  /** The plans the program makes: known words, and reports to an address that cannot break the record up. */
  ghost predicate Spellable(plan: Plans.DmarcPlan) {
    && plan.policy in {"none", "quarantine", "reject"} && plan.alignment in {"relaxed", "strict"}
    && (plan.rua.Some? ==> Unbroken(plan.rua.value) && Trimmed(plan.rua.value))
  }

  /** What the record of a plan has to say: the whole mail is affected wherever an action is asked for. */
  ghost function TagsOf(plan: Plans.DmarcPlan): Tags {
    var mode := if plan.alignment == "strict" then "s" else "r";
    var tags := map["v" := "DMARC1"]["p" := plan.policy]["adkim" := mode]["aspf" := mode];
    var tags' := if plan.policy == "none" then tags else tags["pct" := "100"];
    if plan.rua.None? then tags' else tags'["rua" := "mailto:" + plan.rua.value]
  }

  lemma PairRead(tags: Tags, key: string, value: string)
    requires key != "" && IsCanonical(key) && '=' !in key && Trimmed(value)
    ensures WithTag(tags, key + "=" + value) == tags[key := value]
  {
    var part := key + "=" + value;
    assert part == key + ['='] + value;
    SplitAfterFree(key, '=', value);
    assert part[|key| + 1..] == value && part[|key|] == '=';
    TrimSettles(value);
    TrimSettles(key);
    assert Lower(key) == key;
  }

  lemma WordsPlain(policy: string, mode: string)
    requires policy in {"none", "quarantine", "reject"} && mode in {"s", "r"}
    ensures Unbroken(policy) && Trimmed(policy) && Unbroken(mode) && Trimmed(mode)
  {}

  lemma VersionRead(tags: Tags)
    ensures WithTag(tags, "v=DMARC1") == tags["v" := "DMARC1"]
  {
    assert "v" + "=" + "DMARC1" == "v=DMARC1";
    PairRead(tags, "v", "DMARC1");
  }

  lemma PolicyRead(tags: Tags, policy: string)
    requires Trimmed(policy)
    ensures WithTag(tags, "p=" + policy) == tags["p" := policy]
  {
    assert "p" + "=" == "p=";
    PairRead(tags, "p", policy);
  }

  lemma AdkimRead(tags: Tags, mode: string)
    requires Trimmed(mode)
    ensures WithTag(tags, "adkim=" + mode) == tags["adkim" := mode]
  {
    assert "adkim" + "=" == "adkim=";
    PairRead(tags, "adkim", mode);
  }

  lemma AspfRead(tags: Tags, mode: string)
    requires Trimmed(mode)
    ensures WithTag(tags, "aspf=" + mode) == tags["aspf" := mode]
  {
    assert "aspf" + "=" == "aspf=";
    PairRead(tags, "aspf", mode);
  }

  lemma FourRead(a: string, b: string, c: string, d: string, rest: seq<string>, tags: Tags)
    ensures ReadParts([a, b, c, d] + rest, tags) ==
            ReadParts(rest, WithTag(WithTag(WithTag(WithTag(tags, a), b), c), d))
  {
    assert [a, b, c, d] + rest == [a] + ([b] + ([c] + ([d] + rest)));
    ReadOne(a, [b] + ([c] + ([d] + rest)), tags);
    ReadOne(b, [c] + ([d] + rest), WithTag(tags, a));
    ReadOne(c, [d] + rest, WithTag(WithTag(tags, a), b));
    ReadOne(d, rest, WithTag(WithTag(WithTag(tags, a), b), c));
  }

  lemma FrontRead(policy: string, mode: string, rest: seq<string>)
    requires Trimmed(policy) && Trimmed(mode)
    ensures ReadParts(["v=DMARC1", "p=" + policy, "adkim=" + mode, "aspf=" + mode] + rest, map[]) ==
            ReadParts(rest, map["v" := "DMARC1"]["p" := policy]["adkim" := mode]["aspf" := mode])
  {
    var tags: Tags := map["v" := "DMARC1"];
    VersionRead(map[]);
    PolicyRead(tags, policy);
    AdkimRead(tags["p" := policy], mode);
    AspfRead(tags["p" := policy]["adkim" := mode], mode);
    FourRead("v=DMARC1", "p=" + policy, "adkim=" + mode, "aspf=" + mode, rest, map[]);
  }

  lemma PctRead(rest: seq<string>, tags: Tags)
    ensures ReadParts(["pct=100"] + rest, tags) == ReadParts(rest, tags["pct" := "100"])
  {
    assert "pct" + "=" + "100" == "pct=100";
    PairRead(tags, "pct", "100");
    ReadOne("pct=100", rest, tags);
  }

  lemma RuaRead(rua: string, tags: Tags)
    requires Unbroken(rua) && Trimmed(rua)
    ensures ReadParts(["rua=mailto:" + rua], tags) == tags["rua" := "mailto:" + rua]
  {
    assert "rua" + "=" + ("mailto:" + rua) == "rua=mailto:" + rua;
    PairRead(tags, "rua", "mailto:" + rua);
    assert ["rua=mailto:" + rua][1..] == [];
  }

  lemma TextsRead(plan: Plans.DmarcPlan)
    requires Spellable(plan)
    ensures ReadParts(TagTexts(plan), map[]) == TagsOf(plan)
  {
    var mode := if plan.alignment == "strict" then "s" else "r";
    var pct: seq<string> := if plan.policy != "none" then ["pct=100"] else [];
    var rua: seq<string> := if plan.rua.Some? then ["rua=mailto:" + plan.rua.value] else [];
    var front := ["v=DMARC1", "p=" + plan.policy, "adkim=" + mode, "aspf=" + mode];
    var tags := map["v" := "DMARC1"]["p" := plan.policy]["adkim" := mode]["aspf" := mode];
    assert TagTexts(plan) == front + (pct + rua);
    WordsPlain(plan.policy, mode);
    FrontRead(plan.policy, mode, pct + rua);
    if plan.policy != "none" { PctRead(rua, tags); } else { assert pct + rua == rua; }
    if plan.rua.Some? { RuaRead(plan.rua.value, if plan.policy == "none" then tags else tags["pct" := "100"]); }
  }

  ghost predicate Sound(text: string) {
    Unbroken(text) && '=' in text
  }

  lemma PairSound(key: string, value: string)
    requires Unbroken(key) && Unbroken(value)
    ensures Sound(key + "=" + value)
  {
    assert (key + "=" + value)[|key|] == '=';
  }

  lemma FrontSound(policy: string, mode: string)
    requires Unbroken(policy) && Unbroken(mode)
    ensures Sound("v=DMARC1") && Sound("p=" + policy) && Sound("adkim=" + mode) && Sound("aspf=" + mode)
    ensures Sound("pct=100")
  {
    PairSound("v", "DMARC1");
    PairSound("p", policy);
    PairSound("adkim", mode);
    PairSound("aspf", mode);
    PairSound("pct", "100");
    assert "v" + "=" + "DMARC1" == "v=DMARC1" && "pct" + "=" + "100" == "pct=100";
    assert "p" + "=" + policy == "p=" + policy && "adkim" + "=" + mode == "adkim=" + mode;
    assert "aspf" + "=" + mode == "aspf=" + mode;
  }

  lemma RuaSound(rua: string)
    requires Unbroken(rua)
    ensures Sound("rua=mailto:" + rua)
  {
    PairSound("rua", "mailto:" + rua);
    assert "rua" + "=" + ("mailto:" + rua) == "rua=mailto:" + rua;
  }

  lemma TextsUnbroken(plan: Plans.DmarcPlan)
    requires Spellable(plan)
    ensures AllUnbroken(TagTexts(plan)) && AllPairs(TagTexts(plan))
  {
    var mode := if plan.alignment == "strict" then "s" else "r";
    WordsPlain(plan.policy, mode);
    FrontSound(plan.policy, mode);
    if plan.rua.Some? { RuaSound(plan.rua.value); }
    assert forall i | 0 <= i < |TagTexts(plan)| :: Sound(TagTexts(plan)[i]);
  }

  /** A joined record is as free of quotes as its tags, and is trimmed where its ends are. */
  lemma {:induction false} JoinedBare(tags: seq<string>)
    requires tags != [] && AllUnbroken(tags)
    ensures '"' !in JoinTags(tags) && JoinTags(tags) != ""
    ensures JoinTags(tags)[0] == tags[0][0]
    ensures var last := tags[|tags| - 1]; JoinTags(tags)[|JoinTags(tags)| - 1] == last[|last| - 1]
  {
    assert Unbroken(tags[0]);
    if |tags| > 1 { JoinedBare(tags[1..]); }
  }

  /** The last tag ends in a letter or a digit, or in the last character of the address. */
  lemma LastUnblank(plan: Plans.DmarcPlan)
    requires Spellable(plan)
    ensures var last := TagTexts(plan)[|TagTexts(plan)| - 1]; last != "" && !IsBlank(last[|last| - 1])
  {
    var mode := if plan.alignment == "strict" then "s" else "r";
    var last := TagTexts(plan)[|TagTexts(plan)| - 1];
    if plan.rua.Some? {
      assert last == "rua=mailto:" + plan.rua.value;
    } else if plan.policy != "none" {
      assert last == "pct=100";
    } else {
      assert last == "aspf=" + mode;
    }
  }

  lemma ValueBare(plan: Plans.DmarcPlan)
    requires Spellable(plan)
    ensures U.NormalizeTxt(DmarcValue(plan)) == DmarcValue(plan)
  {
    TextsUnbroken(plan);
    JoinedBare(TagTexts(plan));
    LastUnblank(plan);
    assert TagTexts(plan)[0] == "v=DMARC1";
    U.NormalizeBare(DmarcValue(plan));
  }

  lemma ValueStarts(plan: Plans.DmarcPlan)
    ensures U.Starts(DmarcValue(plan), U.DMARC + ";") && U.DmarcTagged(DmarcValue(plan))
  {
    var v := DmarcValue(plan);
    assert v[..9] == "v=DMARC1;";
    forall i | 0 <= i < 9 ensures LowerChar(v[i]) == (U.DMARC + ";")[i] {
      assert v[i] == "v=DMARC1;"[i];
    }
    assert v[8] == "v=DMARC1;"[8] == ';';
    assert forall i | 0 <= i < 8 :: (U.DMARC + ";")[i] == U.DMARC[i];
    U.PrefixTagged(v);
  }

  /** The record of a plan says what the plan says, read by the program itself. */
  lemma ValueReadsBack(plan: Plans.DmarcPlan)
    requires Spellable(plan)
    ensures ParseTags(DmarcValue(plan)) == Some(TagsOf(plan))
  {
    ValueBare(plan);
    ValueStarts(plan);
    TextsUnbroken(plan);
    JoinedSplits(TagTexts(plan));
    PartedRead(TagTexts(plan), map[]);
    TextsRead(plan);
  }
}
