/**
 * TXT and MX records of one name, and the upserts of scripts/setup-sending.ts on them. Text is
 * compared in the form of src/lib/dns-gate.ts: normalizeTxtContent.
 */
module Upserts {
  import opened Common
  import opened Text

  const SPF := "v=spf1"
  const DKIM := "v=dkim1"
  const DMARC := "v=dmarc1"

  // ---------------------------------------------------------------- text forms

  function Blanks(s: string): (k: nat)
    ensures k <= |s|
    ensures k < |s| ==> !IsBlank(s[k])
  {
    if s != "" && IsBlank(s[0]) then 1 + Blanks(s[1..]) else 0
  }

  /** Two quotes with only blanks between them join the strings around them. */
  function DropPairs(s: string): string
    decreases |s|
  {
    if s == "" then ""
    else
      var k := if s[0] == '"' then Blanks(s[1..]) else 0;
      if s[0] == '"' && 1 + k < |s| && s[1 + k] == '"' then DropPairs(s[2 + k..])
      else [s[0]] + DropPairs(s[1..])
  }

  function Unquote(s: string): string {
    var t := if s != "" && s[0] == '"' then s[1..] else s;
    if t != "" && t[|t| - 1] == '"' then t[..|t| - 1] else t
  }

  /** src/lib/dns-gate.ts: normalizeTxtContent. */
  function NormalizeTxt(content: string): string {
    Trim(Unquote(DropPairs(Trim(content))))
  }

  /** `value.toLowerCase().startsWith(prefix)`. */
  predicate Starts(s: string, prefix: string) {
    |prefix| <= |s| && forall i | 0 <= i < |prefix| :: LowerChar(s[i]) == prefix[i]
  }

  predicate Bare(s: string) {
    forall i | 0 <= i < |s| :: s[i] != '"'
  }

  predicate Word(s: string) {
    s != "" && forall i | 0 <= i < |s| :: s[i] != '"' && !IsBlank(s[i])
  }

  lemma {:induction false} DropKeeps(s: string, prefix: string)
    requires Bare(prefix) && Starts(s, prefix)
    ensures Starts(DropPairs(s), prefix)
  {
    if prefix != "" {
      assert LowerChar(s[0]) == prefix[0];
      DropKeeps(s[1..], prefix[1..]);
    }
  }

  lemma {:induction false} DropBare(s: string)
    requires Bare(s)
    ensures DropPairs(s) == s
  {
    if s != "" { DropBare(s[1..]); }
  }

  lemma {:induction false} TrimRightKeeps(s: string, prefix: string)
    requires Word(prefix) && Starts(s, prefix)
    ensures Starts(TrimRight(s), prefix)
  {
    assert |s| == |prefix| ==> LowerChar(s[|s| - 1]) == prefix[|s| - 1];
    if IsBlank(s[|s| - 1]) { TrimRightKeeps(s[..|s| - 1], prefix); }
  }

  lemma TrimKeeps(s: string, prefix: string)
    requires Word(prefix) && Starts(s, prefix)
    ensures Starts(Trim(s), prefix)
  {
    assert LowerChar(s[0]) == prefix[0];
    TrimRightKeeps(s, prefix);
  }

  lemma UnquoteKeeps(s: string, prefix: string)
    requires Word(prefix) && Starts(s, prefix)
    ensures Starts(Unquote(s), prefix)
  {}

  /** Normalising keeps a word at the front. */
  lemma NormalizeKeeps(s: string, prefix: string)
    requires Word(prefix) && Starts(Trim(s), prefix)
    ensures Starts(NormalizeTxt(s), prefix)
  {
    DropKeeps(Trim(s), prefix);
    UnquoteKeeps(DropPairs(Trim(s)), prefix);
    TrimKeeps(Unquote(DropPairs(Trim(s))), prefix);
  }

  lemma NormalizeBare(s: string)
    requires Trimmed(s) && Bare(s)
    ensures NormalizeTxt(s) == s
  {
    TrimSettles(s);
    DropBare(s);
  }

  // ---------------------------------------------------------------- selecting texts

  function Forms(texts: seq<string>): (r: seq<string>)
    ensures |r| == |texts| && forall i | 0 <= i < |r| :: r[i] == NormalizeTxt(texts[i])
  {
    seq(|texts|, i requires 0 <= i < |texts| => NormalizeTxt(texts[i]))
  }

  function Starting(forms: seq<string>, prefix: string): seq<string> {
    if forms == [] then []
    else if Starts(forms[0], prefix) then [forms[0]] + Starting(forms[1..], prefix)
    else Starting(forms[1..], prefix)
  }

  predicate WordChar(c: char) {
    'a' <= c <= 'z' || 'A' <= c <= 'Z' || '0' <= c <= '9' || c == '_'
  }

  function Skip(s: string): string {
    s[Blanks(s)..]
  }

  predicate DmarcWord(t: string) {
    Starts(t, "dmarc1") && (|t| == 6 || !WordChar(t[6]))
  }

  /** scripts/lib/dmarc.ts: the test of parseDmarcTags. */
  predicate DmarcTagged(s: string) {
    s != "" && LowerChar(s[0]) == 'v'
    && var a := Skip(s[1..]);
       a != "" && a[0] == '='
       && var b := Skip(a[1..]);
          DmarcWord(b)
  }

  function Tagged(forms: seq<string>): seq<string> {
    if forms == [] then []
    else if DmarcTagged(forms[0]) then [forms[0]] + Tagged(forms[1..])
    else Tagged(forms[1..])
  }

  /** Begins like a DMARC record, but the version runs on into a longer word. */
  predicate LookAlike(s: string) {
    Starts(s, DMARC) && |s| > 8 && WordChar(s[8])
  }

  /** The two tests for a DMARC record part exactly at the look-alikes. */
  lemma PrefixTagged(s: string)
    requires Starts(s, DMARC)
    ensures DmarcTagged(s) <==> !LookAlike(s)
  {
    assert LowerChar(s[0]) == DMARC[0] == 'v';
    assert LowerChar(s[1]) == DMARC[1] == '=';
    assert LowerChar(s[2]) == DMARC[2] == 'd';
    assert s[1..][0] == s[1] && Skip(s[1..]) == s[1..];
    assert s[2..][0] == s[2] && Skip(s[2..]) == s[2..];
    assert s[1..][1..] == s[2..];
    assert |s| > 8 ==> s[2..][6] == s[8];
    forall i | 0 <= i < 6 ensures LowerChar(s[2..][i]) == "dmarc1"[i] {
      assert LowerChar(s[2 + i]) == DMARC[2 + i];
    }
  }

  // ---------------------------------------------------------------- what the forms and the tests mean

  ghost predicate AllBlank(s: string) {
    forall i | 0 <= i < |s| :: IsBlank(s[i])
  }

  lemma {:induction false} BlanksAre(s: string, n: nat)
    requires n < |s| && AllBlank(s[..n]) && !IsBlank(s[n])
    ensures Blanks(s) == n
  {
    if n > 0 {
      assert s[..n][0] == s[0] && s[1..][..n - 1] == s[..n][1..];
      BlanksAre(s[1..], n - 1);
    }
  }

  lemma {:induction false} BlanksBlank(s: string)
    ensures AllBlank(s[..Blanks(s)])
  {
    if s != "" && IsBlank(s[0]) {
      BlanksBlank(s[1..]);
      forall i | 0 <= i < Blanks(s) ensures IsBlank(s[i]) {
        if i > 0 { assert s[1..][..Blanks(s[1..])][i - 1] == s[i]; }
      }
    }
  }

  /** Without capitals, a prefix is tested for in either case. */
  lemma StartsMeans(s: string, prefix: string)
    requires IsLower(prefix)
    ensures Starts(s, prefix) <==> |prefix| <= |s| && SameUpToCase(s[..|prefix|], prefix)
  {
    if |prefix| <= |s| {
      forall i | 0 <= i < |prefix| ensures LowerChar(s[i]) == prefix[i] <==> SameLetter(s[..|prefix|][i], prefix[i]) {
        LetterFolded(s[i], prefix[i]);
        assert LowerChar(prefix[i]) == prefix[i];
      }
    }
  }

  /** The code of a digit, a capital, the underscore or a small letter. */
  ghost predicate WordCode(n: int) {
    48 <= n <= 57 || 65 <= n <= 90 || n == 95 || 97 <= n <= 122
  }

  /** A `v`, an `=` and the word DMARC1, blanks allowed on both sides of the `=` and no case meant. */
  ghost predicate VersionTag(s: string, a: int, b: int) {
    && 1 <= a < b && b + 6 <= |s| && SameUpToCase(s[..1], "v")
    && AllBlank(s[1..a]) && s[a] == '=' && AllBlank(s[a + 1..b])
    && SameUpToCase(s[b..b + 6], "dmarc1") && (|s| == b + 6 || !WordCode(s[b + 6] as int))
  }

  lemma SkipAt(s: string, from: nat, to: nat)
    requires from <= to < |s| && AllBlank(s[from..to]) && !IsBlank(s[to])
    ensures Skip(s[from..]) == s[to..]
  {
    var t := s[from..];
    assert t[..to - from] == s[from..to] && t[to - from] == s[to];
    BlanksAre(t, to - from);
  }

  lemma SkipPlace(s: string, from: nat) returns (to: nat)
    requires from <= |s|
    ensures from <= to <= |s| && AllBlank(s[from..to]) && Skip(s[from..]) == s[to..]
  {
    var t := s[from..];
    BlanksBlank(t);
    to := from + Blanks(t);
    assert t[..to - from] == s[from..to];
  }

  lemma WordAt(s: string, b: nat)
    requires b <= |s|
    ensures DmarcWord(s[b..]) <==> b + 6 <= |s| && SameUpToCase(s[b..b + 6], "dmarc1")
                                   && (|s| == b + 6 || !WordCode(s[b + 6] as int))
  {
    var t := s[b..];
    StartsMeans(t, "dmarc1");
    if 6 <= |t| { assert t[..6] == s[b..b + 6]; }
    if 6 < |t| { assert t[6] == s[b + 6] && (WordChar(t[6]) <==> WordCode(t[6] as int)); }
  }

  lemma FirstLetter(s: string)
    requires s != ""
    ensures LowerChar(s[0]) == 'v' <==> SameUpToCase(s[..1], "v")
  {
    LetterFolded(s[0], 'v');
    assert SameUpToCase(s[..1], "v") <==> SameLetter(s[..1][0], "v"[0]);
  }

  lemma TaggedAt(s: string, a: int, b: int)
    requires VersionTag(s, a, b)
    ensures DmarcTagged(s)
  {
    FirstLetter(s);
    SkipAt(s, 1, a);
    assert s[a..][1..] == s[a + 1..];
    assert SameLetter(s[b..b + 6][0], "dmarc1"[0]);
    SkipAt(s, a + 1, b);
    WordAt(s, b);
  }

  lemma TagPlace(s: string) returns (a: int, b: int)
    requires DmarcTagged(s)
    ensures VersionTag(s, a, b)
  {
    FirstLetter(s);
    a := SkipPlace(s, 1);
    assert s[a..][1..] == s[a + 1..];
    b := SkipPlace(s, a + 1);
    WordAt(s, b);
  }

  /** The test of parseDmarcTags, letter by letter. */
  lemma DmarcTaggedMeans(s: string)
    ensures DmarcTagged(s) <==> exists a, b :: VersionTag(s, a, b)
  {
    if DmarcTagged(s) { var a, b := TagPlace(s); }
    if a, b :| VersionTag(s, a, b) { TaggedAt(s, a, b); }
  }

  ghost function Concat(chunks: seq<string>): string {
    if chunks == [] then "" else chunks[0] + Concat(chunks[1..])
  }

  /** The rest of a multi-string text once its first quote is open. */
  ghost function Opened(chunks: seq<string>, gaps: seq<string>): string
    requires chunks != [] && |gaps| == |chunks|
  {
    if |chunks| == 1 then chunks[0] + "\""
    else chunks[0] + ("\"" + gaps[0] + "\"") + Opened(chunks[1..], gaps[1..])
  }

  ghost predicate Says(chunk: string) {
    Bare(chunk) && exists i :: 0 <= i < |chunk| && !IsBlank(chunk[i])
  }

  ghost predicate Strings(chunks: seq<string>, gaps: seq<string>) {
    && chunks != [] && |gaps| == |chunks|
    && (forall i | 0 <= i < |chunks| :: Says(chunks[i])) && forall i | 0 <= i < |gaps| :: AllBlank(gaps[i])
  }

  lemma {:induction false} DropPast(front: string, rest: string)
    requires Bare(front)
    ensures DropPairs(front + rest) == front + DropPairs(rest)
  {
    if front == "" {
      assert front + rest == rest;
    } else {
      assert (front + rest)[1..] == front[1..] + rest;
      DropPast(front[1..], rest);
    }
  }

  lemma DropGap(gap: string, rest: string)
    requires AllBlank(gap)
    ensures DropPairs("\"" + gap + "\"" + rest) == DropPairs(rest)
  {
    var s := "\"" + gap + "\"" + rest;
    assert s[1..] == gap + "\"" + rest && s[1..][..|gap|] == gap && s[1..][|gap|] == '"';
    BlanksAre(s[1..], |gap|);
    assert s[2 + |gap|..] == rest;
  }

  lemma DropLast()
    ensures DropPairs("\"") == "\""
  {
    assert "\""[1..] == "";
    assert DropPairs("") == "";
  }

  lemma {:induction false} OpenedDropped(chunks: seq<string>, gaps: seq<string>)
    requires Strings(chunks, gaps)
    ensures DropPairs(Opened(chunks, gaps)) == Concat(chunks) + "\""
  {
    if |chunks| == 1 {
      DropPast(chunks[0], "\"");
      DropLast();
      assert Concat(chunks[1..]) == "";
    } else {
      var rest := Opened(chunks[1..], gaps[1..]);
      OpenedDropped(chunks[1..], gaps[1..]);
      assert Opened(chunks, gaps) == chunks[0] + ("\"" + gaps[0] + "\"" + rest);
      DropPast(chunks[0], "\"" + gaps[0] + "\"" + rest);
      DropGap(gaps[0], rest);
    }
  }

  lemma FirstSays(chunk: string, rest: string)
    requires Says(chunk)
    ensures Blanks(chunk + rest) < |chunk| && (chunk + rest)[Blanks(chunk + rest)] != '"'
  {
    BlanksBlank(chunk + rest);
    var i :| 0 <= i < |chunk| && !IsBlank(chunk[i]);
    var t := chunk + rest;
    assert t[i] == chunk[i] && forall j | 0 <= j < Blanks(t) :: t[..Blanks(t)][j] == t[j];
  }

  lemma OpenedStarts(chunks: seq<string>, gaps: seq<string>) returns (rest: string)
    requires Strings(chunks, gaps)
    ensures Opened(chunks, gaps) == chunks[0] + rest
  {
    if |chunks| == 1 {
      rest := "\"";
    } else {
      rest := ("\"" + gaps[0] + "\"") + Opened(chunks[1..], gaps[1..]);
      assert chunks[0] + ("\"" + gaps[0] + "\"") + Opened(chunks[1..], gaps[1..]) == chunks[0] + rest;
    }
  }

  lemma {:induction false} OpenedEnds(chunks: seq<string>, gaps: seq<string>)
    requires chunks != [] && |gaps| == |chunks|
    ensures Opened(chunks, gaps) != "" && Opened(chunks, gaps)[|Opened(chunks, gaps)| - 1] == '"'
  {
    if |chunks| > 1 { OpenedEnds(chunks[1..], gaps[1..]); }
  }

  /** A text in quoted strings, with blanks between and around them, means the strings joined. */
  lemma QuotedReads(chunks: seq<string>, gaps: seq<string>, left: string, right: string)
    requires Strings(chunks, gaps)
    requires (forall c | c in left :: IsBlank(c)) && (forall c | c in right :: IsBlank(c))
    ensures NormalizeTxt(left + ("\"" + Opened(chunks, gaps)) + right) == Trim(Concat(chunks))
  {
    var s := "\"" + Opened(chunks, gaps);
    OpenedEnds(chunks, gaps);
    TrimPadded(left, s, right);
    var rest := OpenedStarts(chunks, gaps);
    FirstSays(chunks[0], rest);
    assert s[1..] == Opened(chunks, gaps);
    OpenedDropped(chunks, gaps);
    var t := "\"" + (Concat(chunks) + "\"");
    assert DropPairs(s) == t;
    assert t[1..] == Concat(chunks) + "\"" && t[1..][..|t[1..]| - 1] == Concat(chunks);
  }

  lemma HostMeans(value: string, host: string)
    requires host == "" || host[|host| - 1] != '.'
    ensures Host(value) == host <==> Canonical(value) == host || Canonical(value) == host + "."
  {
    var s := Canonical(value);
    if s == host + "." { assert s[..|s| - 1] == host; }
    if s != "" && s[|s| - 1] == '.' { assert s == s[..|s| - 1] + "."; }
  }

  // ---------------------------------------------------------------- TXT records of one name

  datatype Txt = Txt(id: nat, content: string)

  /** The records an upsert takes for its own. */
  function Owning(prefix: string): Txt -> bool {
    (r: Txt) => Starts(NormalizeTxt(r.content), prefix)
  }

  function Those(rs: seq<Txt>, p: Txt -> bool): seq<Txt> {
    if rs == [] then []
    else if p(rs[0]) then [rs[0]] + Those(rs[1..], p)
    else Those(rs[1..], p)
  }

  function Not(p: Txt -> bool): Txt -> bool {
    (r: Txt) => !p(r)
  }

  function Others(rs: seq<Txt>, p: Txt -> bool): seq<Txt> {
    Those(rs, Not(p))
  }

  function Ids(rs: seq<Txt>): set<nat> {
    if rs == [] then {} else {rs[0].id} + Ids(rs[1..])
  }

  predicate IdsOnce(rs: seq<Txt>) {
    rs == [] || (rs[0].id !in Ids(rs[1..]) && IdsOnce(rs[1..]))
  }

  function Without(rs: seq<Txt>, id: nat): seq<Txt> {
    if rs == [] then []
    else if rs[0].id == id then Without(rs[1..], id)
    else [rs[0]] + Without(rs[1..], id)
  }

  function Patched(rs: seq<Txt>, id: nat, content: string): seq<Txt> {
    if rs == [] then []
    else [if rs[0].id == id then Txt(id, content) else rs[0]] + Patched(rs[1..], id, content)
  }

  /** The records an upsert with this prefix manages. */
  function Managed(rs: seq<Txt>, prefix: string): seq<Txt> {
    Those(rs, Owning(prefix))
  }

  /** Exactly one record is ours, and it says what is wanted. */
  predicate Settled(rs: seq<Txt>, prefix: string, desired: string) {
    |Managed(rs, prefix)| == 1 && NormalizeTxt(Managed(rs, prefix)[0].content) == NormalizeTxt(desired)
  }

  /** How an upsert ends: the record as wanted, a refusal to choose, or an API call that failed. */
  datatype Ending = Done | Refused | Failed

  /** What a deduplication leaves when it stops early: the first record, and those not yet deleted. */
  predicate Cut(before: seq<Txt>, after: seq<Txt>) {
    exists k | 1 <= k <= |before| :: after == [before[0]] + before[k..]
  }

  class TxtName {
    var records: seq<Txt>
    var next: nat

    ghost predicate Valid()
      reads this
    {
      IdsOnce(records) && forall id | id in Ids(records) :: id < next
    }

    constructor (records: seq<Txt>, next: nat)
      requires IdsOnce(records) && forall id | id in Ids(records) :: id < next
      ensures Valid() && this.records == records
    {
      this.records, this.next := records, next;
    }

    method Delete(id: nat)
      requires Valid()
      modifies this`records
      ensures Valid() && records == Without(old(records), id)
    {
      WithoutKeeps(records, id);
      records := Without(records, id);
    }

    method Patch(id: nat, content: string)
      requires Valid()
      modifies this`records
      ensures Valid() && records == Patched(old(records), id, content)
    {
      PatchedKeeps(records, id, content);
      records := Patched(records, id, content);
    }

    method Create(content: string)
      requires Valid()
      modifies this
      ensures Valid()
      ensures records == old(records) + [Txt(old(next), content)]
    {
      AppendedKeeps(records, Txt(next, content));
      records := records + [Txt(next, content)];
      next := next + 1;
    }

    /** Delete the managed records after the first, in order, while the calls go through. */
    method Collapse(p: Txt -> bool, calls: nat) returns (left: nat, k: nat)
      requires Valid() && |Those(records, p)| > 1
      modifies this`records
      ensures Valid() && 1 <= k <= |Those(old(records), p)| && left == calls - (k - 1)
      ensures k < |Those(old(records), p)| ==> left == 0
      ensures Those(records, p) == [Those(old(records), p)[0]] + Those(old(records), p)[k..]
      ensures Others(records, p) == Others(old(records), p)
      ensures k == 1 ==> records == old(records)
    {
      var managed := Those(records, p);
      left, k := calls, 1;
      while k < |managed| && left > 0
        invariant Valid() && 1 <= k <= |managed| && left == calls - (k - 1)
        invariant Those(records, p) == [managed[0]] + managed[k..]
        invariant Others(records, p) == Others(old(records), p)
        invariant k == 1 ==> records == old(records)
      {
        NextDeleted(records, p, managed, k);
        Delete(managed[k].id);
        left, k := left - 1, k + 1;
      }
    }

    /** Patch the one managed record, or create one. */
    method Write(p: Txt -> bool, desired: string, calls: nat) returns (end: Ending, changes: nat, left: nat)
      requires Valid() && |Those(records, p)| <= 1 && forall id :: p(Txt(id, desired))
      modifies this
      ensures Valid() && !end.Refused? && left <= calls <= left + 1 && (end.Failed? ==> calls == 0)
      ensures changes == 0 ==> records == old(records)
      ensures Others(records, p) == Others(old(records), p)
      ensures end.Failed? ==> changes == 0
      ensures end.Done? ==>
                |Those(records, p)| == 1 && NormalizeTxt(Those(records, p)[0].content) == NormalizeTxt(desired)
      ensures end.Done? && Those(old(records), p) != [] ==> Those(records, p)[0].id == Those(old(records), p)[0].id
      ensures end.Done? ==> (changes == 0 <==> (Those(old(records), p) != []
                && NormalizeTxt(Those(old(records), p)[0].content) == NormalizeTxt(desired)))
    {
      var managed := Those(records, p);
      end, changes, left := Done, 0, calls;
      if managed != [] && NormalizeTxt(managed[0].content) == NormalizeTxt(desired) { return; }
      if calls == 0 { return Failed, 0, 0; }
      changes, left := 1, calls - 1;
      if managed != [] {
        PatchOnly(records, p, desired);
        Patch(managed[0].id, desired);
      } else {
        ThoseAppended(records, Txt(next, desired), p);
        ThoseAppended(records, Txt(next, desired), Not(p));
        Create(desired);
      }
    }

    /** scripts/setup-sending.ts: upsertTxtStyleRecord. The first `calls` API calls go through, no more. */
    method Upsert(prefix: string, desired: string, dedupe: bool, calls: nat)
      returns (end: Ending, changes: nat, left: nat)
      requires Valid() && Word(prefix) && Starts(Trim(desired), prefix)
      modifies this
      ensures Valid()
      ensures left <= calls <= left + |Managed(old(records), prefix)| + 2
      ensures end.Failed? ==> calls < |Managed(old(records), prefix)| + 2
      ensures !end.Failed? ==> (end.Refused? <==> |Managed(old(records), prefix)| > 1 && !dedupe)
      ensures changes == 0 ==> records == old(records)
      ensures !end.Failed? ==> (changes == 0 <==> end.Refused? || Settled(old(records), prefix, desired))
      ensures end.Done? ==> Settled(records, prefix, desired)
      ensures !end.Done? ==> records == old(records)
                             || (dedupe && Cut(Managed(old(records), prefix), Managed(records, prefix)))
      ensures Others(records, Owning(prefix)) == Others(old(records), Owning(prefix))
      ensures end.Done? && Managed(old(records), prefix) != [] ==>
                Managed(records, prefix)[0].id == Managed(old(records), prefix)[0].id
    {
      NormalizeKeeps(desired, prefix);
      var p := Owning(prefix);
      changes := 0;
      if calls == 0 { return Failed, 0, 0; }
      left := calls - 1;
      var managed := Those(records, p);
      if |managed| > 1 {
        if !dedupe { return Refused, 0, left; }
        var k;
        left, k := Collapse(p, left);
        changes := k - 1;
        if k < |managed| { return Failed, changes, left; }
        assert Those(records, p) == [managed[0]];
      }
      var more;
      end, more, left := Write(p, desired, left);
      changes := changes + more;
    }
  }

  lemma {:induction false} PatchedKeeps(rs: seq<Txt>, id: nat, content: string)
    requires IdsOnce(rs)
    ensures IdsOnce(Patched(rs, id, content)) && Ids(Patched(rs, id, content)) == Ids(rs)
  {
    if rs != [] { PatchedKeeps(rs[1..], id, content); }
  }

  lemma {:induction false} WithoutKeeps(rs: seq<Txt>, id: nat)
    requires IdsOnce(rs)
    ensures IdsOnce(Without(rs, id)) && Ids(Without(rs, id)) <= Ids(rs)
  {
    if rs != [] { WithoutKeeps(rs[1..], id); }
  }

  lemma {:induction false} AppendedKeeps(rs: seq<Txt>, r: Txt)
    requires IdsOnce(rs) && r.id !in Ids(rs)
    ensures IdsOnce(rs + [r]) && Ids(rs + [r]) == Ids(rs) + {r.id}
  {
    if rs == [] {
      assert rs + [r] == [r];
    } else {
      AppendedKeeps(rs[1..], r);
      assert (rs + [r])[1..] == rs[1..] + [r];
    }
  }

  lemma {:induction false} Unlisted(rs: seq<Txt>, id: nat, content: string)
    requires id !in Ids(rs)
    ensures Without(rs, id) == rs && Patched(rs, id, content) == rs
  {
    if rs != [] { Unlisted(rs[1..], id, content); }
  }

  /** Each list function, one record at a time. */
  lemma Unfolded(r: Txt, rest: seq<Txt>, p: Txt -> bool, id: nat)
    ensures Those([r] + rest, p) == if p(r) then [r] + Those(rest, p) else Those(rest, p)
    ensures Without([r] + rest, id) == if r.id == id then Without(rest, id) else [r] + Without(rest, id)
    ensures Ids([r] + rest) == {r.id} + Ids(rest)
    ensures IdsOnce([r] + rest) <==> r.id !in Ids(rest) && IdsOnce(rest)
  {}

  lemma {:induction false} ThoseWithout(rs: seq<Txt>, p: Txt -> bool, id: nat)
    ensures Those(Without(rs, id), p) == Without(Those(rs, p), id)
  {
    if rs != [] {
      ThoseWithout(rs[1..], p, id);
      Unfolded(rs[0], Those(rs[1..], p), p, id);
      Unfolded(rs[0], Without(rs[1..], id), p, id);
    }
  }

  lemma {:induction false} ThoseOnce(rs: seq<Txt>, p: Txt -> bool)
    requires IdsOnce(rs)
    ensures IdsOnce(Those(rs, p)) && Ids(Those(rs, p)) <= Ids(rs)
  {
    if rs != [] {
      ThoseOnce(rs[1..], p);
      Unfolded(rs[0], Those(rs[1..], p), p, 0);
    }
  }

  lemma {:induction false} Apart(rs: seq<Txt>, p: Txt -> bool)
    requires IdsOnce(rs)
    ensures Ids(Those(rs, p)) !! Ids(Others(rs, p))
  {
    if rs != [] {
      Apart(rs[1..], p);
      ThoseOnce(rs[1..], p);
      ThoseOnce(rs[1..], Not(p));
      Unfolded(rs[0], Those(rs[1..], p), p, 0);
      Unfolded(rs[0], Others(rs[1..], p), p, 0);
    }
  }

  lemma SecondDropped(m: seq<Txt>)
    requires IdsOnce(m) && |m| > 1
    ensures Without(m, m[1].id) == [m[0]] + m[2..]
  {
    assert m[1..][0] == m[1] && m[1..][1..] == m[2..];
    Unlisted(m[2..], m[1].id, "");
  }

  lemma {:induction false} Named(rs: seq<Txt>, i: int)
    requires 0 <= i < |rs|
    ensures rs[i].id in Ids(rs)
  {
    if i > 0 { Named(rs[1..], i - 1); }
  }

  lemma DeleteSecond(rs: seq<Txt>, p: Txt -> bool)
    requires IdsOnce(rs) && |Those(rs, p)| > 1
    ensures var rest := Without(rs, Those(rs, p)[1].id);
            Those(rest, p) == [Those(rs, p)[0]] + Those(rs, p)[2..] && Others(rest, p) == Others(rs, p)
  {
    var m := Those(rs, p);
    ThoseWithout(rs, p, m[1].id);
    ThoseWithout(rs, Not(p), m[1].id);
    ThoseOnce(rs, p);
    SecondDropped(m);
    Apart(rs, p);
    Named(m, 1);
    Unlisted(Others(rs, p), m[1].id, "");
  }

  /** One turn of the deletion. */
  lemma NextDeleted(rs: seq<Txt>, p: Txt -> bool, managed: seq<Txt>, k: nat)
    requires IdsOnce(rs) && 1 <= k < |managed| && Those(rs, p) == [managed[0]] + managed[k..]
    ensures var rest := Without(rs, managed[k].id);
            Those(rest, p) == [managed[0]] + managed[k + 1..] && Others(rest, p) == Others(rs, p)
  {
    DeleteSecond(rs, p);
    assert Those(rs, p)[1] == managed[k];
    assert Those(rs, p)[2..] == managed[k + 1..];
  }

  lemma {:induction false} PatchOthers(rs: seq<Txt>, p: Txt -> bool, id: nat, content: string)
    requires IdsOnce(rs) && id in Ids(Those(rs, p)) && p(Txt(id, content))
    ensures Others(Patched(rs, id, content), p) == Others(rs, p)
    ensures Those(Patched(rs, id, content), p) == Patched(Those(rs, p), id, content)
  {
    ThoseOnce(rs[1..], p);
    if rs[0].id == id {
      Apart(rs, p);
      Unlisted(rs[1..], id, content);
      assert p(rs[0]);
      Unlisted(Those(rs[1..], p), id, content);
    } else {
      PatchOthers(rs[1..], p, id, content);
    }
  }

  lemma PatchOnly(rs: seq<Txt>, p: Txt -> bool, content: string)
    requires IdsOnce(rs) && |Those(rs, p)| == 1 && p(Txt(Those(rs, p)[0].id, content))
    ensures var r := Those(rs, p)[0];
            var after := Patched(rs, r.id, content);
            Those(after, p) == [Txt(r.id, content)] && Others(after, p) == Others(rs, p)
  {
    Named(Those(rs, p), 0);
    PatchOthers(rs, p, Those(rs, p)[0].id, content);
  }

  lemma {:induction false} ThoseAppended(rs: seq<Txt>, r: Txt, p: Txt -> bool)
    ensures Those(rs + [r], p) == Those(rs, p) + Those([r], p)
  {
    if rs == [] {
      assert rs + [r] == [r];
    } else {
      ThoseAppended(rs[1..], r, p);
      assert rs + [r] == [rs[0]] + (rs[1..] + [r]);
      Unfolded(rs[0], rs[1..] + [r], p, 0);
    }
  }

  // ---------------------------------------------------------------- MX records of one name

  datatype MxRecord = MxRecord(id: nat, content: string, priority: int)

  datatype MxWant = MxWant(content: string, priority: int)

  /** scripts/lib/dns-lookup.ts: canonicalHost. */
  function Host(value: string): string {
    var s := Lower(Trim(value));
    if s != "" && s[|s| - 1] == '.' then s[..|s| - 1] else s
  }

  function Hosts(rs: seq<MxRecord>): (r: seq<string>)
    ensures |r| == |rs| && forall i | 0 <= i < |r| :: r[i] == Host(rs[i].content)
  {
    seq(|rs|, i requires 0 <= i < |rs| => Host(rs[i].content))
  }

  /** Where a host is first listed. */
  function First(hosts: seq<string>, host: string): (r: Option<nat>)
    ensures r.Some? ==> r.value < |hosts| && hosts[r.value] == host
                        && forall k | 0 <= k < r.value :: hosts[k] != host
    ensures r.None? ==> host !in hosts
  {
    if hosts == [] then None
    else if hosts[0] == host then Some(0)
    else
      var r := First(hosts[1..], host);
      if r.Some? then Some(r.value + 1) else None
  }

  /** The first record of an exchange, which is the one an upsert compares. */
  function Priority(rs: seq<MxRecord>, host: string): Option<int> {
    var k := First(Hosts(rs), host);
    if k.Some? then Some(rs[k.value].priority) else None
  }

  predicate FirstHas(rs: seq<MxRecord>, w: MxWant) {
    Priority(rs, Host(w.content)) == Some(w.priority)
  }

  predicate FirstsTo(rs: seq<MxRecord>, wants: seq<MxWant>, n: nat)
    requires n <= |wants|
  {
    forall i | 0 <= i < n :: FirstHas(rs, wants[i])
  }

  predicate AllFirst(rs: seq<MxRecord>, wants: seq<MxWant>) {
    FirstsTo(rs, wants, |wants|)
  }

  /** No exchange is wanted at two priorities. */
  predicate Consistent(wants: seq<MxWant>) {
    forall i, j | 0 <= i < j < |wants| ::
      Host(wants[i].content) == Host(wants[j].content) ==> wants[i].priority == wants[j].priority
  }

  lemma FirstsAgree(rs: seq<MxRecord>, wants: seq<MxWant>)
    requires AllFirst(rs, wants)
    ensures Consistent(wants)
  {}

  /** The priority last wanted of an exchange. */
  function LastWant(wants: seq<MxWant>, host: string): Option<int> {
    if wants == [] then None
    else
      var w := wants[|wants| - 1];
      if Host(w.content) == host then Some(w.priority) else LastWant(wants[..|wants| - 1], host)
  }

  /** No earlier record is of the same exchange. */
  predicate Ahead(hosts: seq<string>, i: int)
    requires 0 <= i < |hosts|
  {
    forall j | 0 <= j < i :: hosts[j] != hosts[i]
  }

  /** Of every exchange the first record has the priority last wanted of it, or its own if none was. */
  ghost predicate Prioritized(start: seq<MxRecord>, now: seq<MxRecord>, wants: seq<MxWant>) {
    forall host {:trigger Priority(now, host)} :: Priority(now, host) ==
      if LastWant(wants, host).Some? then LastWant(wants, host) else Priority(start, host)
  }

  /** The records behind the first of their exchange are as they were, and none is new. */
  ghost predicate RestKept(start: seq<MxRecord>, now: seq<MxRecord>) {
    && |start| <= |now| && Hosts(now)[..|start|] == Hosts(start)
    && (forall i {:trigger Ahead(Hosts(start), i)} | 0 <= i < |start| :: Ahead(Hosts(start), i) || now[i] == start[i])
    && (forall i {:trigger Ahead(Hosts(now), i)} | |start| <= i < |now| :: Ahead(Hosts(now), i))
  }

  /** What upserting these leaves. */
  ghost predicate Swept(start: seq<MxRecord>, now: seq<MxRecord>, wants: seq<MxWant>) {
    Prioritized(start, now, wants) && RestKept(start, now)
  }

  class MxName {
    var records: seq<MxRecord>
    var next: nat

    ghost predicate Valid()
      reads this
    {
      (forall i, j | 0 <= i < j < |records| :: records[i].id != records[j].id)
      && forall i | 0 <= i < |records| :: records[i].id < next
    }

    constructor (records: seq<MxRecord>, next: nat)
      requires forall i, j | 0 <= i < j < |records| :: records[i].id != records[j].id
      requires forall i | 0 <= i < |records| :: records[i].id < next
      ensures Valid() && this.records == records
    {
      this.records, this.next := records, next;
    }

    method Patch(id: nat, content: string, priority: int)
      modifies this`records
      ensures |records| == |old(records)|
      ensures forall i | 0 <= i < |records| ::
                records[i] == if old(records)[i].id == id then MxRecord(id, content, priority) else old(records)[i]
    {
      var l: seq<MxRecord> := [];
      for i := 0 to |records|
        invariant |l| == i && records == old(records)
        invariant forall j | 0 <= j < i ::
                    l[j] == if records[j].id == id then MxRecord(id, content, priority) else records[j]
      {
        l := l + [if records[i].id == id then MxRecord(id, content, priority) else records[i]];
      }
      records := l;
    }

    /** scripts/setup-sending.ts: upsertMxRecord. The first `calls` API calls go through, no more. */
    method Upsert(want: MxWant, calls: nat) returns (end: Ending, changed: bool, left: nat)
      requires Valid()
      modifies this
      ensures Valid() && !end.Refused? && left <= calls <= left + 2
      ensures end.Failed? <==> calls == 0 || (calls == 1 && !FirstHas(old(records), want))
      ensures end.Failed? ==> !changed && left == 0
      ensures end.Done? ==> left == calls - if changed then 2 else 1
      ensures end.Done? ==> (!changed <==> FirstHas(old(records), want))
      ensures !changed ==> records == old(records)
      ensures changed ==> Upserted(old(records), records, want)
    {
      if calls == 0 { return Failed, false, 0; }
      left := calls - 1;
      var host := Host(want.content);
      var k := First(Hosts(records), host);
      if k.Some? && records[k.value].priority == want.priority { return Done, false, left; }
      if left == 0 { return Failed, false, 0; }
      left := left - 1;
      if k.Some? {
        ghost var before := records;
        Patch(records[k.value].id, want.content, want.priority);
        PatchedAt(before, records, k.value, want);
      } else {
        records := records + [MxRecord(next, want.content, want.priority)];
        next := next + 1;
      }
      end, changed := Done, true;
    }

    /** The pass: one upsert after the other, as far as the calls go. */
    method Sweep(wants: seq<MxWant>, calls: nat) returns (end: Ending, changes: nat, left: nat, ghost n: nat)
      requires Valid()
      modifies this
      ensures Valid() && !end.Refused? && changes <= n <= |wants| && (end.Done? <==> n == |wants|)
      ensures Passed(old(records), records, wants, n, changes)
      ensures if end.Done? then left == calls - n - changes else left == 0 && calls < n + changes + 2
    {
      end, changes, left, n := Done, 0, calls, 0;
      PassBegun(records, wants);
      for i := 0 to |wants|
        invariant Valid() && Passed(old(records), records, wants, i, changes)
        invariant end.Done? && n == i && changes <= i && left == calls - i - changes
      {
        ghost var before := records;
        var changed;
        end, changed, left := Upsert(wants[i], left);
        if end.Failed? { return; }
        NextPassed(old(records), before, records, wants, i, changes, changed);
        n := i + 1;
        if changed { changes := changes + 1; }
      }
    }

    method UpsertAll(wants: seq<MxWant>, calls: nat) returns (end: Ending, changes: nat, left: nat)
      requires Valid()
      modifies this
      ensures Valid() && !end.Refused? && (end.Failed? ==> calls < 2 * |wants| && left == 0)
      ensures changes <= |wants| && (end.Done? ==> left == calls - |wants| - changes)
      ensures end.Done? ==> (changes == 0 <==> AllFirst(old(records), wants))
      ensures changes == 0 ==> records == old(records)
      ensures end.Done? ==> Swept(old(records), records, wants)
      ensures end.Failed? ==> exists n | 0 <= n < |wants| :: SweptTo(old(records), records, wants, n)
      ensures Spares(old(records), records, wants)
    {
      ghost var n;
      end, changes, left, n := Sweep(wants, calls);
      if end.Failed? {
        PassCut(old(records), records, wants, n, changes);
      } else {
        PassDone(old(records), records, wants, changes);
      }
    }
  }

  /** The changes counted over the first n wanted records. */
  ghost predicate Counted(start: seq<MxRecord>, now: seq<MxRecord>, wants: seq<MxWant>, n: nat, changes: nat)
    requires n <= |wants|
  {
    (changes == 0 <==> FirstsTo(start, wants, n)) && (changes == 0 ==> now == start)
  }

  lemma NextCounted(start: seq<MxRecord>, before: seq<MxRecord>, after: seq<MxRecord>, wants: seq<MxWant>, n: nat,
                    changes: nat, changed: bool)
    requires n < |wants| && Counted(start, before, wants, n, changes)
    requires (!changed <==> FirstHas(before, wants[n])) && (!changed ==> after == before)
    ensures Counted(start, after, wants, n + 1, if changed then changes + 1 else changes)
  {
    FirstsNext(start, wants, n);
  }

  ghost predicate SweptTo(start: seq<MxRecord>, now: seq<MxRecord>, wants: seq<MxWant>, n: nat)
    requires n <= |wants|
  {
    Swept(start, now, wants[..n])
  }

  /** A pass that has got as far as the first n wanted records. */
  ghost predicate Passed(start: seq<MxRecord>, now: seq<MxRecord>, wants: seq<MxWant>, n: nat, changes: nat)
    requires n <= |wants|
  {
    exists done :: Swept(start, now, done) && done == wants[..n] && Spares(start, now, wants)
                   && Counted(start, now, wants, n, changes)
  }

  lemma PassBegun(rs: seq<MxRecord>, wants: seq<MxWant>)
    ensures Passed(rs, rs, wants, 0, 0)
  {
    assert wants[..0] == [] && Hosts(rs)[..|rs|] == Hosts(rs);
    assert Swept(rs, rs, wants[..0]);
  }

  lemma NextPassed(start: seq<MxRecord>, before: seq<MxRecord>, after: seq<MxRecord>, wants: seq<MxWant>, n: nat,
                   changes: nat, changed: bool)
    requires n < |wants| && Passed(start, before, wants, n, changes)
    requires if changed then Upserted(before, after, wants[n]) else after == before
    requires !changed <==> FirstHas(before, wants[n])
    ensures Passed(start, after, wants, n + 1, if changed then changes + 1 else changes)
  {
    NextCounted(start, before, after, wants, n, changes, changed);
    NextSweptTo(start, before, after, wants, n);
    if changed { UpsertedSpares(start, before, after, wants, n); }
  }

  lemma PassCut(start: seq<MxRecord>, now: seq<MxRecord>, wants: seq<MxWant>, n: nat, changes: nat)
    requires n < |wants| && Passed(start, now, wants, n, changes)
    ensures Spares(start, now, wants) && (changes == 0 ==> now == start)
    ensures exists m | 0 <= m < |wants| :: SweptTo(start, now, wants, m)
  {
    assert SweptTo(start, now, wants, n);
  }

  lemma PassDone(start: seq<MxRecord>, now: seq<MxRecord>, wants: seq<MxWant>, changes: nat)
    requires Passed(start, now, wants, |wants|, changes)
    ensures Spares(start, now, wants) && Swept(start, now, wants)
    ensures (changes == 0 ==> now == start) && (changes == 0 <==> AllFirst(start, wants))
  {
    assert wants[..|wants|] == wants;
  }

  lemma NextSweptTo(start: seq<MxRecord>, before: seq<MxRecord>, after: seq<MxRecord>, wants: seq<MxWant>, n: nat)
    requires n < |wants| && SweptTo(start, before, wants, n)
    requires Upserted(before, after, wants[n]) || (after == before && FirstHas(before, wants[n]))
    ensures SweptTo(start, after, wants, n + 1)
  {
    assert wants[..n + 1] == wants[..n] + [wants[n]];
    NextSwept(start, before, after, wants[..n], wants[n]);
  }

  predicate Wanted(r: MxRecord, wants: seq<MxWant>) {
    exists i | 0 <= i < |wants| :: Host(wants[i].content) == Host(r.content)
  }

  /** Records of other exchanges stay as they are, those of wanted ones stay in place, and only those are new. */
  predicate Spares(before: seq<MxRecord>, after: seq<MxRecord>, wants: seq<MxWant>) {
    |before| <= |after|
    && (forall i | 0 <= i < |before| ::
          after[i].id == before[i].id && Host(after[i].content) == Host(before[i].content)
          && (after[i] == before[i] || Wanted(before[i], wants)))
    && forall i | |before| <= i < |after| :: Wanted(after[i], wants)
  }

  lemma UpsertedSpares(start: seq<MxRecord>, before: seq<MxRecord>, after: seq<MxRecord>, wants: seq<MxWant>, n: nat)
    requires n < |wants| && Spares(start, before, wants) && Upserted(before, after, wants[n])
    ensures Spares(start, after, wants)
  {
    forall i | 0 <= i < |before|
      ensures after[i].id == before[i].id && Host(after[i].content) == Host(before[i].content)
      ensures after[i] == before[i] || Wanted(before[i], wants)
    {
      if |after| > |before| { assert after[..|before|][i] == before[i]; }
    }
    forall i | |start| <= i < |after| ensures Wanted(after[i], wants) {
      if i < |before| { assert Wanted(before[i], wants) && Host(after[i].content) == Host(before[i].content); }
    }
  }

  /** The first record of the exchange is rewritten, or one is added at the end; the rest stay. */
  predicate Upserted(before: seq<MxRecord>, after: seq<MxRecord>, want: MxWant) {
    var k := First(Hosts(before), Host(want.content));
    if k.Some? then
      after == before[k.value := MxRecord(before[k.value].id, want.content, want.priority)]
    else
      |after| == |before| + 1 && after[..|before|] == before
      && after[|before|].content == want.content && after[|before|].priority == want.priority
  }

  lemma PatchedAt(before: seq<MxRecord>, after: seq<MxRecord>, k: nat, want: MxWant)
    requires k < |before| && First(Hosts(before), Host(want.content)) == Some(k)
    requires forall i, j | 0 <= i < j < |before| :: before[i].id != before[j].id
    requires |after| == |before|
    requires forall i | 0 <= i < |after| ::
               after[i] == if before[i].id == before[k].id
                           then MxRecord(before[k].id, want.content, want.priority) else before[i]
    ensures Upserted(before, after, want)
    ensures forall i | 0 <= i < |after| :: after[i].id == before[i].id
  {
    assert after == before[k := MxRecord(before[k].id, want.content, want.priority)];
  }

  lemma {:induction false} FirstAppended(hosts: seq<string>, h: string, host: string)
    ensures First(hosts + [h], host) ==
              if First(hosts, host).Some? then First(hosts, host)
              else if h == host then Some(|hosts|) else None
  {
    if hosts == [] {
      assert hosts + [h] == [h];
    } else if hosts[0] != host {
      FirstAppended(hosts[1..], h, host);
      assert (hosts + [h])[1..] == hosts[1..] + [h];
    }
  }

  /** An upsert sets the priority of its own exchange and of no other. */
  lemma UpsertedPriority(before: seq<MxRecord>, after: seq<MxRecord>, want: MxWant, host: string)
    requires Upserted(before, after, want)
    ensures Priority(after, host) == if host == Host(want.content) then Some(want.priority) else Priority(before, host)
  {
    var k := First(Hosts(before), Host(want.content));
    if k.Some? {
      assert Hosts(after) == Hosts(before);
    } else {
      assert forall i | 0 <= i < |before| :: after[i] == after[..|before|][i];
      assert Hosts(after) == Hosts(before) + [Host(want.content)];
      FirstAppended(Hosts(before), Host(want.content), host);
    }
  }

  lemma LastWantSnoc(wants: seq<MxWant>, w: MxWant, host: string)
    ensures LastWant(wants + [w], host) == if Host(w.content) == host then Some(w.priority) else LastWant(wants, host)
  {
    assert (wants + [w])[..|wants|] == wants;
  }

  lemma NextPriority(start: seq<MxRecord>, before: seq<MxRecord>, after: seq<MxRecord>, wants: seq<MxWant>, w: MxWant)
    requires Prioritized(start, before, wants)
    requires Upserted(before, after, w) || (after == before && FirstHas(before, w))
    ensures Prioritized(start, after, wants + [w])
  {
    forall host ensures Priority(after, host) ==
        if LastWant(wants + [w], host).Some? then LastWant(wants + [w], host) else Priority(start, host)
    {
      LastWantSnoc(wants, w, host);
      if Upserted(before, after, w) { UpsertedPriority(before, after, w, host); }
    }
  }

  lemma PatchKept(start: seq<MxRecord>, before: seq<MxRecord>, k: nat, r: MxRecord)
    requires RestKept(start, before) && k < |before| && Ahead(Hosts(before), k)
    requires Host(r.content) == Hosts(before)[k]
    ensures RestKept(start, before[k := r])
  {
    var a, b := Hosts(start), Hosts(before);
    assert Hosts(before[k := r]) == b;
    forall i | 0 <= i < |start| ensures Ahead(a, i) || before[k := r][i] == start[i] {
      assert forall j | 0 <= j <= i :: a[j] == b[..|start|][j] == b[j];
      if !Ahead(a, i) { assert !Ahead(b, i); }
    }
  }

  lemma AppendKept(start: seq<MxRecord>, before: seq<MxRecord>, r: MxRecord)
    requires RestKept(start, before) && Host(r.content) !in Hosts(before)
    ensures RestKept(start, before + [r])
  {
    var b, c := Hosts(before), Hosts(before + [r]);
    assert c == b + [Host(r.content)];
    assert c[..|start|] == b[..|start|];
    forall i | |start| <= i < |c| ensures Ahead(c, i) {
      if i < |b| { assert Ahead(b, i); }
    }
  }

  lemma UpsertedKept(start: seq<MxRecord>, before: seq<MxRecord>, after: seq<MxRecord>, w: MxWant)
    requires RestKept(start, before) && Upserted(before, after, w)
    ensures RestKept(start, after)
  {
    var k := First(Hosts(before), Host(w.content));
    if k.Some? {
      PatchKept(start, before, k.value, MxRecord(before[k.value].id, w.content, w.priority));
    } else {
      assert after == before + [after[|before|]];
      AppendKept(start, before, after[|before|]);
    }
  }

  lemma NextSwept(start: seq<MxRecord>, before: seq<MxRecord>, after: seq<MxRecord>, wants: seq<MxWant>, w: MxWant)
    requires Swept(start, before, wants)
    requires Upserted(before, after, w) || (after == before && FirstHas(before, w))
    ensures Swept(start, after, wants + [w])
  {
    NextPriority(start, before, after, wants, w);
    if Upserted(before, after, w) { UpsertedKept(start, before, after, w); }
  }

  lemma {:induction false} LastWantIs(wants: seq<MxWant>, host: string)
    ensures match LastWant(wants, host)
            case Some(p) => exists i | 0 <= i < |wants| :: Host(wants[i].content) == host && wants[i].priority == p
            case None => forall i | 0 <= i < |wants| :: Host(wants[i].content) != host
  {
    if wants != [] {
      var n := |wants| - 1;
      LastWantIs(wants[..n], host);
      if Host(wants[n].content) != host && LastWant(wants[..n], host).Some? {
        var i :| 0 <= i < n && Host(wants[..n][i].content) == host
                 && wants[..n][i].priority == LastWant(wants[..n], host).value;
        assert wants[i] == wants[..n][i];
      }
    }
  }

  lemma ConsistentAt(wants: seq<MxWant>, i: int, j: int)
    requires Consistent(wants) && 0 <= i < |wants| && 0 <= j < |wants|
    requires Host(wants[i].content) == Host(wants[j].content)
    ensures wants[i].priority == wants[j].priority
  {}

  lemma LastWantConsistent(wants: seq<MxWant>, i: nat)
    requires Consistent(wants) && i < |wants|
    ensures LastWant(wants, Host(wants[i].content)) == Some(wants[i].priority)
  {
    var host := Host(wants[i].content);
    var last := LastWant(wants, host);
    LastWantIs(wants, host);
    if last.Some? {
      var j :| 0 <= j < |wants| && Host(wants[j].content) == host && wants[j].priority == last.value;
      ConsistentAt(wants, i, j);
    }
  }

  /** The pass leaves every wanted record first of its exchange exactly when no exchange is wanted twice over. */
  lemma SweptFirstIff(start: seq<MxRecord>, now: seq<MxRecord>, wants: seq<MxWant>)
    requires Prioritized(start, now, wants)
    ensures AllFirst(now, wants) <==> Consistent(wants)
  {
    if AllFirst(now, wants) { FirstsAgree(now, wants); }
    if Consistent(wants) {
      forall i | 0 <= i < |wants| ensures FirstHas(now, wants[i]) {
        LastWantConsistent(wants, i);
      }
    }
  }

  lemma FirstsNext(rs: seq<MxRecord>, wants: seq<MxWant>, n: nat)
    requires n < |wants|
    ensures FirstsTo(rs, wants, n + 1) <==> FirstsTo(rs, wants, n) && FirstHas(rs, wants[n])
  {}
}
