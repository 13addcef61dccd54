/**
 * scripts/lib/deploy-config.ts: what a deploy ships. The generated file wins for the fields it
 * owns, the tracked configuration for everything else, and every change is journalled.
 */
module Overlay {
  import opened Common

  /** A JSON value; an object is its fields in order, so equality is equality of the printed text. */
  datatype Json = JNull | JBool(b: bool) | JNum(n: int) | JStr(s: string) | JArr(items: seq<Json>)
                | JObj(fields: seq<(string, Json)>)

  /** A variable, or a field of any object. */
  datatype Var = Var(name: string, value: Json)

  /** An entry of a binding list: its key, the one field the generated file owns, and the rest. */
  datatype Entry<K, V> = Entry(key: K, value: Option<V>, rest: Json)

  type D1 = Entry<string, string>
  type Email = Entry<Option<string>, seq<string>>

  datatype Block = Block(
    vars: Option<seq<Var>>, d1: Option<seq<D1>>, email: Option<seq<Email>>,
    routes: Option<seq<Json>>, workersDev: Option<bool>, rest: map<string, Json>)

  // ---------------------------------------------------------------- variables

  ghost predicate NamesOnce(vars: seq<Var>) {
    forall i, j | 0 <= i < j < |vars| :: vars[i].name != vars[j].name
  }

  function Lookup(vars: seq<Var>, name: string): Option<Json> {
    if vars == [] then None
    else if vars[0].name == name then Some(vars[0].value)
    else Lookup(vars[1..], name)
  }

  /** Assigning a property: in place when it exists, else at the end. */
  function Assign(vars: seq<Var>, name: string, value: Json): seq<Var> {
    if vars == [] then [Var(name, value)]
    else if vars[0].name == name then [Var(name, value)] + vars[1..]
    else [vars[0]] + Assign(vars[1..], name, value)
  }

  lemma {:induction false} AssignLookup(vars: seq<Var>, name: string, value: Json, other: string)
    ensures Lookup(Assign(vars, name, value), other) ==
            if other == name then Some(value) else Lookup(vars, other)
  {
    if vars != [] && vars[0].name != name { AssignLookup(vars[1..], name, value, other); }
  }

  lemma {:induction false} LookupIn(vars: seq<Var>, name: string)
    ensures Lookup(vars, name).None? <==> forall i | 0 <= i < |vars| :: vars[i].name != name
    ensures NamesOnce(vars) ==>
              forall i | 0 <= i < |vars| && vars[i].name == name :: Lookup(vars, name) == Some(vars[i].value)
  {
    if vars != [] { LookupIn(vars[1..], name); }
  }

  lemma {:induction false} AssignNames(vars: seq<Var>, name: string, value: Json)
    ensures forall i | 0 <= i < |Assign(vars, name, value)| ::
              Assign(vars, name, value)[i].name == name
              || exists j | 0 <= j < |vars| :: vars[j].name == Assign(vars, name, value)[i].name
    ensures NamesOnce(vars) ==> NamesOnce(Assign(vars, name, value))
  {
    if vars != [] && vars[0].name != name { AssignNames(vars[1..], name, value); }
  }

  datatype VarChange = VarChange(name: string, before: Option<Json>, to: Json)

  /** Replaying a journal: each change is made only where it found what it says it found. */
  function ReplayVars(vars: seq<Var>, changes: seq<VarChange>): Option<seq<Var>>
    decreases |changes|
  {
    if changes == [] then Some(vars)
    else if Lookup(vars, changes[0].name) != changes[0].before then None
    else ReplayVars(Assign(vars, changes[0].name, changes[0].to), changes[1..])
  }

  lemma {:induction false} ReplayVarsSnoc(vars: seq<Var>, changes: seq<VarChange>, mid: seq<Var>, c: VarChange)
    requires ReplayVars(vars, changes) == Some(mid) && Lookup(mid, c.name) == c.before
    ensures ReplayVars(vars, changes + [c]) == Some(Assign(mid, c.name, c.to))
    decreases |changes|
  {
    if changes == [] {
      assert [] + [c] == [c] && [c][1..] == [];
    } else {
      assert (changes + [c])[0] == changes[0] && (changes + [c])[1..] == changes[1..] + [c];
      ReplayVarsSnoc(Assign(vars, changes[0].name, changes[0].to), changes[1..], mid, c);
    }
  }

  ghost predicate VarsAgree(vars: seq<Var>, generated: seq<Var>) {
    forall i | 0 <= i < |generated| :: Lookup(vars, generated[i].name) == Some(generated[i].value)
  }

  /** The generated variables win, one by one; a variable only in the base is kept. */
  ghost predicate VarsOverlaid(base: seq<Var>, generated: seq<Var>, out: seq<Var>) {
    forall n :: Lookup(out, n) == if Lookup(generated, n).Some? then Lookup(generated, n) else Lookup(base, n)
  }

  lemma {:induction false} LookupSnoc(vars: seq<Var>, v: Var, name: string)
    requires NamesOnce(vars + [v])
    ensures Lookup(vars + [v], name) == if name == v.name then Some(v.value) else Lookup(vars, name)
  {
    if vars != [] {
      assert (vars + [v])[1..] == vars[1..] + [v];
      assert vars[0].name == (vars + [v])[0].name && (vars + [v])[|vars|] == v;
      LookupSnoc(vars[1..], v, name);
    }
  }

  lemma NextVar(base: seq<Var>, generated: seq<Var>, v: Var, out: seq<Var>)
    requires VarsOverlaid(base, generated, out) && NamesOnce(generated + [v])
    ensures VarsOverlaid(base, generated + [v], Assign(out, v.name, v.value))
    ensures Lookup(out, v.name) == Lookup(base, v.name)
    ensures Lookup(out, v.name) == Some(v.value) ==> VarsOverlaid(base, generated + [v], out)
  {
    forall n ensures Lookup(generated + [v], n) ==
                     if n == v.name then Some(v.value) else Lookup(generated, n)
    {
      LookupSnoc(generated, v, n);
    }
    forall n ensures Lookup(Assign(out, v.name, v.value), n) ==
                     if n == v.name then Some(v.value) else Lookup(out, n)
    {
      AssignLookup(out, v.name, v.value, n);
    }
    NotYet(generated, v);
  }

  lemma NotYet(generated: seq<Var>, v: Var)
    requires NamesOnce(generated + [v])
    ensures Lookup(generated, v.name).None?
  {
    LookupIn(generated, v.name);
    assert forall i | 0 <= i < |generated| :: (generated + [v])[i] == generated[i];
    assert (generated + [v])[|generated|] == v;
  }

  method OverlayVars(base: seq<Var>, generated: seq<Var>)
    returns (out: seq<Var>, applied: seq<VarChange>)
    requires NamesOnce(base) && NamesOnce(generated)
    ensures NamesOnce(out) && VarsOverlaid(base, generated, out)
    ensures ReplayVars(base, applied) == Some(out)
    ensures applied == [] <==> VarsAgree(base, generated)
  {
    out, applied := base, [];
    for i := 0 to |generated|
      invariant NamesOnce(out) && VarsOverlaid(base, generated[..i], out)
      invariant ReplayVars(base, applied) == Some(out)
      invariant applied == [] <==> VarsAgree(base, generated[..i])
    {
      var v := generated[i];
      assert generated[..i + 1] == generated[..i] + [v];
      NextVar(base, generated[..i], v, out);
      AssignNames(out, v.name, v.value);
      var was := Lookup(out, v.name);
      if was != Some(v.value) {
        ReplayVarsSnoc(base, applied, out, VarChange(v.name, was, v.value));
        applied := applied + [VarChange(v.name, was, v.value)];
        out := Assign(out, v.name, v.value);
      }
    }
    assert generated[..|generated|] == generated;
  }

  // ---------------------------------------------------------------- binding lists

  /** `find(entry => entry.key === key)`. */
  function Find<K(==), V>(l: seq<Entry<K, V>>, key: K): (r: Option<nat>)
    ensures r.Some? ==> r.value < |l| && l[r.value].key == key
                        && forall j | 0 <= j < r.value :: l[j].key != key
    ensures r.None? ==> forall j | 0 <= j < |l| :: l[j].key != key
  {
    if l == [] then None
    else if l[0].key == key then Some(0)
    else match Find(l[1..], key)
      case Some(i) => Some(i + 1)
      case None => None
  }

  datatype EntryChange<K, V> = EntryChange(key: K, before: Option<V>, to: V)

  function RedoEntry<K(==), V(==)>(l: seq<Entry<K, V>>, c: EntryChange<K, V>): Option<seq<Entry<K, V>>> {
    match Find(l, c.key)
    case None => None
    case Some(t) => if l[t].value != c.before then None else Some(l[t := l[t].(value := Some(c.to))])
  }

  function ReplayEntries<K(==), V(==)>(l: seq<Entry<K, V>>, changes: seq<EntryChange<K, V>>)
    : Option<seq<Entry<K, V>>>
    decreases |changes|
  {
    if changes == [] then Some(l)
    else
      match RedoEntry(l, changes[0])
      case None => None
      case Some(l') => ReplayEntries(l', changes[1..])
  }

  lemma {:induction false} ReplayEntriesSnoc<K, V>(l: seq<Entry<K, V>>, changes: seq<EntryChange<K, V>>,
                                                   mid: seq<Entry<K, V>>, t: nat, c: EntryChange<K, V>)
    requires ReplayEntries(l, changes) == Some(mid) && Find(mid, c.key) == Some(t)
    requires mid[t].value == c.before
    ensures ReplayEntries(l, changes + [c]) == Some(mid[t := mid[t].(value := Some(c.to))])
    decreases |changes|
  {
    if changes == [] {
      assert [] + [c] == [c] && [c][1..] == [];
    } else {
      assert (changes + [c])[0] == changes[0] && (changes + [c])[1..] == changes[1..] + [c];
      var u := Find(l, changes[0].key).value;
      ReplayEntriesSnoc(l[u := l[u].(value := Some(changes[0].to))], changes[1..], mid, t, c);
    }
  }

  /** The last generated value for a key, if there is one. */
  function LastWanted<K(==), V>(generated: seq<Entry<K, V>>, key: K): Option<V> {
    if generated == [] then None
    else
      var last := generated[|generated| - 1];
      if last.key == key && last.value.Some? then last.value
      else LastWanted(generated[..|generated| - 1], key)
  }

  /** Only the owned field of the first entry of each wanted key changes. */
  ghost predicate EntriesOverlaid<K, V>(base: seq<Entry<K, V>>, generated: seq<Entry<K, V>>,
                                        out: seq<Entry<K, V>>)
  {
    && |out| == |base|
    && forall i | 0 <= i < |base| ::
         && out[i].key == base[i].key && out[i].rest == base[i].rest
         && out[i].value ==
              if Find(base, base[i].key) == Some(i) && LastWanted(generated, base[i].key).Some?
              then LastWanted(generated, base[i].key) else base[i].value
  }

  /** Every declared binding carries what each generated entry for it wants. */
  ghost predicate EntriesAgree<K, V>(l: seq<Entry<K, V>>, generated: seq<Entry<K, V>>) {
    forall i | 0 <= i < |generated| :: generated[i].value.Some? ==>
      match Find(l, generated[i].key)
      case None => true
      case Some(t) => l[t].value == generated[i].value
  }

  /** No two generated entries want different values of the same declared binding. */
  ghost predicate NoConflict<K, V>(base: seq<Entry<K, V>>, generated: seq<Entry<K, V>>) {
    forall i, j | 0 <= i < |generated| && 0 <= j < |generated|
                  && generated[i].key == generated[j].key && Find(base, generated[i].key).Some?
                  && generated[i].value.Some? && generated[j].value.Some? ::
      generated[i].value == generated[j].value
  }

  lemma {:induction false} FindSameKeys<K, V>(a: seq<Entry<K, V>>, b: seq<Entry<K, V>>, key: K)
    requires |a| == |b| && forall i | 0 <= i < |a| :: a[i].key == b[i].key
    ensures Find(a, key) == Find(b, key)
  {}

  lemma LastWantedSnoc<K, V>(generated: seq<Entry<K, V>>, g: Entry<K, V>, key: K)
    ensures LastWanted(generated + [g], key) ==
            if g.key == key && g.value.Some? then g.value else LastWanted(generated, key)
  {}

  /** A generated entry that is set for a declared binding. */
  lemma NextEntry<K, V>(base: seq<Entry<K, V>>, generated: seq<Entry<K, V>>, g: Entry<K, V>,
                        out: seq<Entry<K, V>>, t: nat)
    requires EntriesOverlaid(base, generated, out) && g.value.Some? && Find(out, g.key) == Some(t)
    ensures EntriesOverlaid(base, generated + [g], out[t := out[t].(value := g.value)])
    ensures Find(base, g.key) == Some(t)
  {
    FindSameKeys(base, out, g.key);
    var after := out[t := out[t].(value := g.value)];
    forall i | 0 <= i < |base|
      ensures after[i].value ==
              if Find(base, base[i].key) == Some(i) && LastWanted(generated + [g], base[i].key).Some?
              then LastWanted(generated + [g], base[i].key) else base[i].value
    {
      LastWantedSnoc(generated, g, base[i].key);
    }
  }

  /** A generated entry that is unset, or for a binding nobody declared. */
  lemma NextUnused<K, V>(base: seq<Entry<K, V>>, generated: seq<Entry<K, V>>, g: Entry<K, V>,
                         out: seq<Entry<K, V>>)
    requires EntriesOverlaid(base, generated, out) && (g.value.None? || Find(out, g.key).None?)
    ensures EntriesOverlaid(base, generated + [g], out)
  {}

  lemma AgreeSnoc<K, V>(l: seq<Entry<K, V>>, generated: seq<Entry<K, V>>, g: Entry<K, V>)
    ensures EntriesAgree(l, generated + [g]) <==> EntriesAgree(l, generated) && EntriesAgree(l, [g])
  {
    var all := generated + [g];
    assert all[|generated|] == g && [g][0] == g;
    assert forall i | 0 <= i < |generated| :: all[i] == generated[i];
  }

  /** The list so far, its journal and what nobody declared. */
  ghost predicate OverlaidSo<K(!new), V>(base: seq<Entry<K, V>>, generated: seq<Entry<K, V>>, out: seq<Entry<K, V>>,
                                         applied: seq<EntryChange<K, V>>, ignored: seq<K>)
  {
    && EntriesOverlaid(base, generated, out) && ReplayEntries(base, applied) == Some(out)
    && (applied == [] ==> out == base) && (applied == [] <==> EntriesAgree(base, generated))
    && (forall k :: k in ignored <==> Undeclared(base, generated, k))
  }

  /** One generated entry. */
  method OverlayEntry<K(==,!new), V(==)>(base: seq<Entry<K, V>>, ghost before: seq<Entry<K, V>>, g: Entry<K, V>,
                                         out: seq<Entry<K, V>>, applied: seq<EntryChange<K, V>>, ignored: seq<K>)
    returns (out': seq<Entry<K, V>>, applied': seq<EntryChange<K, V>>, ignored': seq<K>)
    requires OverlaidSo(base, before, out, applied, ignored)
    ensures OverlaidSo(base, before + [g], out', applied', ignored')
  {
    out', applied', ignored' := out, applied, ignored;
    AgreeSnoc(base, before, g);
    UndeclaredSnoc(base, before, g);
    FindSameKeys(base, out, g.key);
    var t := Find(out, g.key);
    if g.value.None? || t.None? {
      NextUnused(base, before, g, out);
      if g.value.Some? { ignored' := ignored + [g.key]; }
      return;
    }
    NextEntry(base, before, g, out, t.value);
    if out[t.value].value != g.value {
      var c := EntryChange(g.key, out[t.value].value, g.value.value);
      ReplayEntriesSnoc(base, applied, out, t.value, c);
      applied' := applied + [c];
      out' := out[t.value := out[t.value].(value := g.value)];
    } else {
      assert out == out[t.value := out[t.value].(value := g.value)];
    }
  }

  method OverlayEntries<K(==,!new), V(==)>(base: seq<Entry<K, V>>, generated: seq<Entry<K, V>>)
    returns (out: seq<Entry<K, V>>, applied: seq<EntryChange<K, V>>, ignored: seq<K>)
    ensures EntriesOverlaid(base, generated, out)
    ensures ReplayEntries(base, applied) == Some(out)
    ensures applied == [] <==> EntriesAgree(base, generated)
    ensures forall k :: k in ignored <==> Undeclared(base, generated, k)
  {
    out, applied, ignored := base, [], [];
    for i := 0 to |generated|
      invariant OverlaidSo(base, generated[..i], out, applied, ignored)
    {
      assert generated[..i + 1] == generated[..i] + [generated[i]];
      out, applied, ignored := OverlayEntry(base, generated[..i], generated[i], out, applied, ignored);
    }
    assert generated[..|generated|] == generated;
  }

  ghost predicate Undeclared<K, V>(base: seq<Entry<K, V>>, generated: seq<Entry<K, V>>, k: K) {
    exists i | 0 <= i < |generated| ::
      generated[i].key == k && generated[i].value.Some? && Find(base, k).None?
  }

  lemma UndeclaredSnoc<K(!new), V>(base: seq<Entry<K, V>>, generated: seq<Entry<K, V>>, g: Entry<K, V>)
    ensures forall k :: Undeclared(base, generated + [g], k) <==>
              Undeclared(base, generated, k) || (g.key == k && g.value.Some? && Find(base, k).None?)
  {
    var all := generated + [g];
    forall k ensures Undeclared(base, all, k) <==>
              Undeclared(base, generated, k) || (g.key == k && g.value.Some? && Find(base, k).None?)
    {
      assert all[|generated|] == g;
      if Undeclared(base, generated, k) {
        var i :| 0 <= i < |generated| && generated[i].key == k && generated[i].value.Some?
                 && Find(base, k).None?;
        assert all[i] == generated[i];
      }
    }
  }

  lemma {:induction false} LastWantedIs<K, V>(generated: seq<Entry<K, V>>, key: K)
    ensures match LastWanted(generated, key)
            case None => forall i | 0 <= i < |generated| && generated[i].key == key :: generated[i].value.None?
            case Some(v) => exists i | 0 <= i < |generated| :: generated[i].key == key && generated[i].value == Some(v)
  {
    if generated != [] {
      var n := |generated| - 1;
      if !(generated[n].key == key && generated[n].value.Some?) {
        LastWantedIs(generated[..n], key);
        if LastWanted(generated[..n], key).Some? {
          var v := LastWanted(generated[..n], key).value;
          var i :| 0 <= i < n && generated[..n][i].key == key && generated[..n][i].value == Some(v);
          assert generated[i].key == key;
        } else {
          forall i | 0 <= i < n && generated[i].key == key ensures generated[i].value.None? {
            assert generated[..n][i] == generated[i];
          }
        }
      }
    }
  }

  /** The overlaid list carries everything generated exactly when no two generated values compete. */
  lemma OverlaidAgreesIffNoConflict<K, V>(base: seq<Entry<K, V>>, generated: seq<Entry<K, V>>,
                                          out: seq<Entry<K, V>>)
    requires EntriesOverlaid(base, generated, out)
    ensures EntriesAgree(out, generated) <==> NoConflict(base, generated)
  {
    forall i | 0 <= i < |generated| && generated[i].value.Some? && Find(base, generated[i].key).Some?
      ensures var t := Find(out, generated[i].key);
              t.Some? && out[t.value].value == LastWanted(generated, generated[i].key)
      ensures LastWanted(generated, generated[i].key).Some?
    {
      FindSameKeys(base, out, generated[i].key);
      LastWantedIs(generated, generated[i].key);
    }
    forall i | 0 <= i < |generated| ensures Find(out, generated[i].key) == Find(base, generated[i].key) {
      FindSameKeys(base, out, generated[i].key);
    }
    if NoConflict(base, generated) {
      forall i | 0 <= i < |generated| && generated[i].value.Some? && Find(base, generated[i].key).Some?
        ensures LastWanted(generated, generated[i].key) == generated[i].value
      {
        LastWantedIs(generated, generated[i].key);
      }
    }
  }

  // ---------------------------------------------------------------- the whole block

  datatype Change =
    | VarSet(v: VarChange)
    | D1Set(d: EntryChange<string, string>)
    | EmailSet(e: EntryChange<Option<string>, seq<string>>)
    | RoutesSet(routesBefore: Option<seq<Json>>, routes: seq<Json>)
    | WorkersDevSet(devBefore: Option<bool>, dev: bool)

  datatype Ignored =
    | D1Undeclared(binding: string)
    | EmailUndeclared(name: Option<string>)
    | WorkersDevAlone
    | Structural(key: string)

  const STRUCTURAL_KEYS := ["name", "main", "triggers", "durable_objects", "r2_buckets", "queues",
    "migrations", "compatibility_date", "compatibility_flags", "observability", "upload_source_maps"]

  /** `generated.vars ?? []`, and likewise the lists. */
  function Or<T>(o: Option<seq<T>>): seq<T> {
    if o.Some? then o.value else []
  }

  /** An empty id is no id. */
  function WithIds(d1: seq<D1>): (r: seq<D1>)
    ensures |r| == |d1|
    ensures forall i | 0 <= i < |d1| ::
              r[i] == d1[i].(value := if d1[i].value == Some("") then None else d1[i].value)
  {
    seq(|d1|, i requires 0 <= i < |d1| =>
      d1[i].(value := if d1[i].value == Some("") then None else d1[i].value))
  }

  ghost predicate DeclaresRoutes(b: Block) {
    b.routes.Some? && b.routes.value != []
  }

  ghost predicate WellFormed(b: Block) {
    b.vars.Some? ==> NamesOnce(b.vars.value)
  }

  /** What the generated file owns is overlaid; everything else is the base's. */
  ghost predicate Overlaid(base: Block, generated: Block, out: Block) {
    && (if generated.vars.None? then out.vars == base.vars
        else out.vars.Some? && VarsOverlaid(Or(base.vars), generated.vars.value, out.vars.value))
    && (base.d1.None? <==> out.d1.None?)
    && EntriesOverlaid(Or(base.d1), WithIds(Or(generated.d1)), Or(out.d1))
    && (base.email.None? <==> out.email.None?)
    && EntriesOverlaid(Or(base.email), Or(generated.email), Or(out.email))
    && (if DeclaresRoutes(generated)
        then out.routes == generated.routes
             && out.workersDev == Some(if generated.workersDev.Some? then generated.workersDev.value else false)
        else out.routes == base.routes && out.workersDev == base.workersDev)
    && out.rest == base.rest
  }

  /** The block already ships what the generated file wants. */
  ghost predicate Agrees(b: Block, generated: Block) {
    && VarsAgree(Or(b.vars), Or(generated.vars))
    && EntriesAgree(Or(b.d1), WithIds(Or(generated.d1)))
    && EntriesAgree(Or(b.email), Or(generated.email))
    && (DeclaresRoutes(generated) ==> b.routes == generated.routes)
  }

  /** `workers_dev` as well, which the re-read check does not look at. */
  ghost predicate AgreesFully(b: Block, generated: Block) {
    Agrees(b, generated) && (DeclaresRoutes(generated) ==>
      b.workersDev == Some(if generated.workersDev.Some? then generated.workersDev.value else false))
  }

  /** No declared binding is given two different values by the generated file. */
  ghost predicate Unambiguous(base: Block, generated: Block) {
    && NoConflict(Or(base.d1), WithIds(Or(generated.d1)))
    && NoConflict(Or(base.email), Or(generated.email))
  }

  // ---------------------------------------------------------------- replaying the journal

  function VarChanges(cs: seq<VarChange>): (r: seq<Change>)
    ensures |r| == |cs|
  {
    seq(|cs|, i requires 0 <= i < |cs| => VarSet(cs[i]))
  }

  function D1Changes(cs: seq<EntryChange<string, string>>): (r: seq<Change>)
    ensures |r| == |cs|
  {
    seq(|cs|, i requires 0 <= i < |cs| => D1Set(cs[i]))
  }

  function EmailChanges(cs: seq<EntryChange<Option<string>, seq<string>>>): (r: seq<Change>)
    ensures |r| == |cs|
  {
    seq(|cs|, i requires 0 <= i < |cs| => EmailSet(cs[i]))
  }

  /** One journalled change, made only where it finds what it says it found. */
  function Redo(b: Block, c: Change): Option<Block> {
    match c
    case VarSet(v) =>
      if Lookup(Or(b.vars), v.name) != v.before then None
      else Some(b.(vars := Some(Assign(Or(b.vars), v.name, v.to))))
    case D1Set(d) =>
      (match RedoEntry(Or(b.d1), d)
       case None => None
       case Some(l) => Some(b.(d1 := Some(l))))
    case EmailSet(e) =>
      (match RedoEntry(Or(b.email), e)
       case None => None
       case Some(l) => Some(b.(email := Some(l))))
    case RoutesSet(before, routes) =>
      if b.routes != before then None else Some(b.(routes := Some(routes)))
    case WorkersDevSet(before, dev) =>
      if b.workersDev != before then None else Some(b.(workersDev := Some(dev)))
  }

  function Replay(b: Block, cs: seq<Change>): Option<Block>
    decreases |cs|
  {
    if cs == [] then Some(b)
    else match Redo(b, cs[0])
      case None => None
      case Some(b') => Replay(b', cs[1..])
  }

  lemma {:induction false} ReplayConcat(b: Block, a: seq<Change>, c: seq<Change>)
    requires Replay(b, a).Some?
    ensures Replay(b, a + c) == Replay(Replay(b, a).value, c)
    decreases |a|
  {
    if a == [] {
      assert a + c == c;
    } else {
      assert (a + c)[0] == a[0] && (a + c)[1..] == a[1..] + c;
      ReplayConcat(Redo(b, a[0]).value, a[1..], c);
    }
  }

  lemma {:induction false} ReplayVarPart(b: Block, cs: seq<VarChange>)
    requires ReplayVars(Or(b.vars), cs).Some?
    ensures Replay(b, VarChanges(cs)) ==
            Some(if cs == [] then b else b.(vars := ReplayVars(Or(b.vars), cs)))
    decreases |cs|
  {
    if cs != [] {
      var b' := b.(vars := Some(Assign(Or(b.vars), cs[0].name, cs[0].to)));
      assert VarChanges(cs)[1..] == VarChanges(cs[1..]);
      ReplayVarPart(b', cs[1..]);
    }
  }

  lemma {:induction false} ReplayD1Part(b: Block, cs: seq<EntryChange<string, string>>)
    requires ReplayEntries(Or(b.d1), cs).Some?
    ensures Replay(b, D1Changes(cs)) ==
            Some(if cs == [] then b else b.(d1 := ReplayEntries(Or(b.d1), cs)))
    decreases |cs|
  {
    if cs != [] {
      var b' := b.(d1 := RedoEntry(Or(b.d1), cs[0]));
      assert D1Changes(cs)[1..] == D1Changes(cs[1..]);
      ReplayD1Part(b', cs[1..]);
    }
  }

  lemma {:induction false} ReplayEmailPart(b: Block, cs: seq<EntryChange<Option<string>, seq<string>>>)
    requires ReplayEntries(Or(b.email), cs).Some?
    ensures Replay(b, EmailChanges(cs)) ==
            Some(if cs == [] then b else b.(email := ReplayEntries(Or(b.email), cs)))
    decreases |cs|
  {
    if cs != [] {
      var b' := b.(email := RedoEntry(Or(b.email), cs[0]));
      assert EmailChanges(cs)[1..] == EmailChanges(cs[1..]);
      ReplayEmailPart(b', cs[1..]);
    }
  }

  // ---------------------------------------------------------------- apply and re-check

  ghost predicate IsStructural(key: string) {
    key in {"name", "main", "triggers", "durable_objects", "r2_buckets", "queues", "migrations",
            "compatibility_date", "compatibility_flags", "observability", "upload_source_maps"}
  }

  ghost predicate IgnoredFor(base: Block, generated: Block, tracked: Option<Block>, f: Ignored) {
    match f
    case D1Undeclared(k) => Undeclared(Or(base.d1), WithIds(Or(generated.d1)), k)
    case EmailUndeclared(k) => Undeclared(Or(base.email), Or(generated.email), k)
    case WorkersDevAlone =>
      !DeclaresRoutes(generated) && generated.workersDev.Some? && tracked.Some?
      && generated.workersDev != tracked.value.workersDev
    case Structural(key) =>
      tracked.Some? && IsStructural(key) && key in generated.rest
      && (key !in tracked.value.rest || generated.rest[key] != tracked.value.rest[key])
  }

  method IgnoredStructure(generated: Block, tracked: Option<Block>) returns (ignored: seq<Ignored>)
    ensures forall f :: f in ignored <==>
              f.Structural? && tracked.Some? && f.key in STRUCTURAL_KEYS && f.key in generated.rest
              && (f.key !in tracked.value.rest || generated.rest[f.key] != tracked.value.rest[f.key])
  {
    ignored := [];
    if tracked.None? { return; }
    for i := 0 to |STRUCTURAL_KEYS|
      invariant forall f :: f in ignored <==>
                  f.Structural? && f.key in STRUCTURAL_KEYS[..i] && f.key in generated.rest
                  && (f.key !in tracked.value.rest || generated.rest[f.key] != tracked.value.rest[f.key])
    {
      var key := STRUCTURAL_KEYS[i];
      assert STRUCTURAL_KEYS[..i + 1] == STRUCTURAL_KEYS[..i] + [key];
      if key in generated.rest && (key !in tracked.value.rest || generated.rest[key] != tracked.value.rest[key]) {
        ignored := ignored + [Structural(key)];
      }
    }
    assert STRUCTURAL_KEYS[..|STRUCTURAL_KEYS|] == STRUCTURAL_KEYS;
  }

  ghost predicate RoutesAgree(b: Block, generated: Block) {
    DeclaresRoutes(generated) ==>
      && b.routes == generated.routes
      && b.workersDev == Some(if generated.workersDev.Some? then generated.workersDev.value else false)
  }

  /** routes and workers_dev travel together, and only with routes. */
  method OverlayRoutes(base: Block, generated: Block) returns (out: Block, applied: seq<Change>)
    ensures Replay(base, applied) == Some(out)
    ensures out == if DeclaresRoutes(generated)
                   then base.(routes := generated.routes, workersDev := Some(
                     if generated.workersDev.Some? then generated.workersDev.value else false))
                   else base
    ensures applied == [] <==> RoutesAgree(base, generated)
    ensures forall c | c in applied :: !c.VarSet?
  {
    out, applied := base, [];
    if generated.routes.Some? && generated.routes.value != [] {
      if base.routes != generated.routes {
        applied := [RoutesSet(base.routes, generated.routes.value)];
        out := out.(routes := generated.routes);
        assert applied[1..] == [];
      }
      var dev := if generated.workersDev.Some? then generated.workersDev.value else false;
      if base.workersDev != Some(dev) {
        ReplayConcat(base, applied, [WorkersDevSet(base.workersDev, dev)]);
        assert [WorkersDevSet(base.workersDev, dev)][1..] == [];
        applied := applied + [WorkersDevSet(base.workersDev, dev)];
        out := out.(workersDev := Some(dev));
      }
    }
  }

  /** Spreading makes an empty object of variables neither side has, and journals nothing for it. */
  predicate AddsEmptyVars(base: Block, generated: Block) {
    base.vars.None? && generated.vars == Some([])
  }

  /** What a journal without variables does, it does whatever the variables are. */
  lemma {:induction false} VarsApart(b: Block, cs: seq<Change>, vars: Option<seq<Var>>)
    requires Replay(b, cs).Some? && forall c | c in cs :: !c.VarSet?
    ensures Replay(b.(vars := vars), cs) == Some(Replay(b, cs).value.(vars := vars))
    decreases |cs|
  {
    if cs != [] {
      assert cs[0] in cs;
      VarsApart(Redo(b, cs[0]).value, cs[1..], vars);
    }
  }

  method OverlayVarsOf(base: Block, generated: Block) returns (out: Block, applied: seq<Change>)
    requires WellFormed(base) && WellFormed(generated)
    ensures out == base.(vars := out.vars) && WellFormed(out)
    ensures if generated.vars.None? then out.vars == base.vars
            else out.vars.Some? && VarsOverlaid(Or(base.vars), generated.vars.value, out.vars.value)
    ensures Replay(base, applied) == Some(if AddsEmptyVars(base, generated) then base else out)
    ensures AddsEmptyVars(base, generated) ==> out.vars == Some([])
    ensures applied == [] <==> VarsAgree(Or(base.vars), Or(generated.vars))
  {
    if generated.vars.None? { return base, []; }
    var vars, changes := OverlayVars(Or(base.vars), generated.vars.value);
    ReplayVarPart(base, changes);
    out, applied := base.(vars := Some(vars)), VarChanges(changes);
    if base.vars.None? && generated.vars.value != [] {
      assert Lookup([], generated.vars.value[0].name) == None;
      assert changes != [];
    }
  }

  lemma Journalled(start: Block, applied: seq<Change>, mid: Block, more: seq<Change>, out: Block)
    requires Replay(start, applied) == Some(mid) && Replay(mid, more) == Some(out)
    ensures Replay(start, applied + more) == Some(out)
  {
    ReplayConcat(start, applied, more);
  }

  method OverlayD1(base: Block, generated: Block)
    returns (out: Block, applied: seq<Change>, undeclared: seq<string>)
    ensures out == base.(d1 := out.d1) && (base.d1.None? <==> out.d1.None?)
    ensures EntriesOverlaid(Or(base.d1), WithIds(Or(generated.d1)), Or(out.d1))
    ensures Replay(base, applied) == Some(out)
    ensures applied == [] <==> EntriesAgree(Or(base.d1), WithIds(Or(generated.d1)))
    ensures forall k :: k in undeclared <==> Undeclared(Or(base.d1), WithIds(Or(generated.d1)), k)
    ensures forall c | c in applied :: !c.VarSet?
  {
    var d1, changes;
    d1, changes, undeclared := OverlayEntries(Or(base.d1), WithIds(Or(generated.d1)));
    ReplayD1Part(base, changes);
    applied := D1Changes(changes);
    out := base;
    if base.d1.Some? { out := base.(d1 := Some(d1)); } else { assert d1 == []; }
  }

  method OverlayEmail(base: Block, generated: Block)
    returns (out: Block, applied: seq<Change>, undeclared: seq<Option<string>>)
    ensures out == base.(email := out.email) && (base.email.None? <==> out.email.None?)
    ensures EntriesOverlaid(Or(base.email), Or(generated.email), Or(out.email))
    ensures Replay(base, applied) == Some(out)
    ensures applied == [] <==> EntriesAgree(Or(base.email), Or(generated.email))
    ensures forall k :: k in undeclared <==> Undeclared(Or(base.email), Or(generated.email), k)
    ensures forall c | c in applied :: !c.VarSet?
  {
    var email, changes;
    email, changes, undeclared := OverlayEntries(Or(base.email), Or(generated.email));
    ReplayEmailPart(base, changes);
    applied := EmailChanges(changes);
    out := base;
    if base.email.Some? { out := base.(email := Some(email)); } else { assert email == []; }
  }

  /** What is reported as ignored: undeclared bindings, a lone workers_dev, structure. */
  method Ignoreds(generated: Block, tracked: Option<Block>, d1: seq<string>, email: seq<Option<string>>)
    returns (ignored: seq<Ignored>)
    ensures forall f :: f in ignored <==>
              match f
              case D1Undeclared(k) => k in d1
              case EmailUndeclared(k) => k in email
              case WorkersDevAlone =>
                !DeclaresRoutes(generated) && generated.workersDev.Some? && tracked.Some?
                && generated.workersDev != tracked.value.workersDev
              case Structural(key) =>
                tracked.Some? && key in STRUCTURAL_KEYS && key in generated.rest
                && (key !in tracked.value.rest || generated.rest[key] != tracked.value.rest[key])
  {
    var structure := IgnoredStructure(generated, tracked);
    var a := seq(|d1|, i requires 0 <= i < |d1| => D1Undeclared(d1[i]));
    var b := seq(|email|, i requires 0 <= i < |email| => EmailUndeclared(email[i]));
    var c: seq<Ignored> :=
      if (generated.routes.None? || generated.routes.value == []) && generated.workersDev.Some? && tracked.Some?
         && generated.workersDev != tracked.value.workersDev then [WorkersDevAlone] else [];
    forall k ensures D1Undeclared(k) in a <==> k in d1 {
      if k in d1 {
        var i :| 0 <= i < |d1| && d1[i] == k;
        assert a[i] == D1Undeclared(k);
      }
    }
    forall k ensures EmailUndeclared(k) in b <==> k in email {
      if k in email {
        var i :| 0 <= i < |email| && email[i] == k;
        assert b[i] == EmailUndeclared(k);
      }
    }
    ignored := a + b + c + structure;
  }

  /** The bindings and routes, once the variables are overlaid. */
  method OverlayRest(base: Block, generated: Block)
    returns (out: Block, applied: seq<Change>, d1: seq<string>, email: seq<Option<string>>)
    ensures out.vars == base.vars && out.rest == base.rest && Replay(base, applied) == Some(out)
    ensures (base.d1.None? <==> out.d1.None?) && (base.email.None? <==> out.email.None?)
    ensures EntriesOverlaid(Or(base.d1), WithIds(Or(generated.d1)), Or(out.d1))
    ensures EntriesOverlaid(Or(base.email), Or(generated.email), Or(out.email))
    ensures if DeclaresRoutes(generated) then RoutesAgree(out, generated)
            else out.routes == base.routes && out.workersDev == base.workersDev
    ensures applied == [] <==> (EntriesAgree(Or(base.d1), WithIds(Or(generated.d1)))
                                && EntriesAgree(Or(base.email), Or(generated.email))
                                && RoutesAgree(base, generated))
    ensures forall k :: k in d1 <==> Undeclared(Or(base.d1), WithIds(Or(generated.d1)), k)
    ensures forall k :: k in email <==> Undeclared(Or(base.email), Or(generated.email), k)
    ensures forall c | c in applied :: !c.VarSet?
  {
    var b1, c1, b2, c2, c3;
    b1, c1, d1 := OverlayD1(base, generated);
    b2, c2, email := OverlayEmail(b1, generated);
    Journalled(base, c1, b1, c2, b2);
    out, c3 := OverlayRoutes(b2, generated);
    Journalled(base, c1 + c2, b2, c3, out);
    applied := c1 + c2 + c3;
  }

  /** Variables, then the rest. */
  method OverlayAll(base: Block, generated: Block)
    returns (config: Block, applied: seq<Change>, d1: seq<string>, email: seq<Option<string>>)
    requires WellFormed(base) && WellFormed(generated)
    ensures Overlaid(base, generated, config) && WellFormed(config)
    ensures Replay(base, applied) == Some(if AddsEmptyVars(base, generated) then config.(vars := None) else config)
    ensures AddsEmptyVars(base, generated) ==> config.vars == Some([])
    ensures applied == [] <==> AgreesFully(base, generated)
    ensures forall k :: k in d1 <==> Undeclared(Or(base.d1), WithIds(Or(generated.d1)), k)
    ensures forall k :: k in email <==> Undeclared(Or(base.email), Or(generated.email), k)
  {
    var b1, c1 := OverlayVarsOf(base, generated);
    var c2;
    config, c2, d1, email := OverlayRest(b1, generated);
    if AddsEmptyVars(base, generated) {
      VarsApart(b1, c2, None);
      Journalled(base, c1, base, c2, config.(vars := None));
    } else {
      Journalled(base, c1, b1, c2, config);
    }
    applied := c1 + c2;
    Assembled(base, generated, b1, config);
  }

  /**
   * The overlay: its result, its journal and what it left alone. The journal replayed on the base gives the
   * result exactly unless an empty `vars` is all the generated file adds.
   */
  method ApplyGeneratedOverlay(base: Block, generated: Block, tracked: Option<Block>)
    returns (config: Block, applied: seq<Change>, ignored: seq<Ignored>)
    requires WellFormed(base) && WellFormed(generated)
    ensures Overlaid(base, generated, config) && WellFormed(config)
    ensures Replay(base, applied) == Some(config) <==> !(base.vars.None? && generated.vars == Some([]))
    ensures base.vars.None? && generated.vars == Some([]) ==> Replay(base, applied) == Some(config.(vars := None))
    ensures applied == [] <==> AgreesFully(base, generated)
    ensures forall f :: f in ignored <==> IgnoredFor(base, generated, tracked, f)
  {
    var d1, email;
    config, applied, d1, email := OverlayAll(base, generated);
    ignored := Ignoreds(generated, tracked, d1, email);
  }

  /** Such a file: nothing to journal, and a result that is not the base. */
  lemma EmptyVarsUnjournalled() returns (base: Block, generated: Block, config: Block)
    ensures WellFormed(base) && WellFormed(generated) && AddsEmptyVars(base, generated)
    ensures Overlaid(base, generated, config) && AgreesFully(base, generated)
    ensures Replay(base, []) == Some(base) && base != config
  {
    base := Block(None, None, None, None, None, map[]);
    generated := base.(vars := Some([]));
    config := generated;
    assert WithIds([]) == [];
  }

  /**
   * The re-read check does not look at `workers_dev`: a block that ships everything generated passes it
   * with any other value there, and ships everything still only if no routes are declared.
   */
  lemma WorkersDevUnchecked(b: Block, generated: Block, dev: Option<bool>)
    requires AgreesFully(b, generated)
    ensures Agrees(b.(workersDev := dev), generated)
    ensures AgreesFully(b.(workersDev := dev), generated) <==> !DeclaresRoutes(generated) || dev == b.workersDev
  {}

  /** A block that passes the check and does not ship the generated `workers_dev`. */
  lemma CheckedNeedNotShip() returns (b: Block, generated: Block)
    ensures WellFormed(b) && WellFormed(generated) && Agrees(b, generated) && !AgreesFully(b, generated)
  {
    generated := Block(None, None, None, Some([JStr("example.com/*")]), Some(false), map[]);
    assert WithIds([]) == [];
    WorkersDevUnchecked(generated, generated, Some(true));
    b := generated.(workersDev := Some(true));
  }

  /** The variables first, then the rest: together the whole overlay. */
  lemma Assembled(base: Block, generated: Block, mid: Block, out: Block)
    requires mid == base.(vars := mid.vars) && WellFormed(mid)
    requires if generated.vars.None? then mid.vars == base.vars
             else mid.vars.Some? && VarsOverlaid(Or(base.vars), generated.vars.value, mid.vars.value)
    requires out.vars == mid.vars && out.rest == mid.rest
    requires (mid.d1.None? <==> out.d1.None?) && (mid.email.None? <==> out.email.None?)
    requires EntriesOverlaid(Or(mid.d1), WithIds(Or(generated.d1)), Or(out.d1))
    requires EntriesOverlaid(Or(mid.email), Or(generated.email), Or(out.email))
    requires if DeclaresRoutes(generated) then RoutesAgree(out, generated)
             else out.routes == mid.routes && out.workersDev == mid.workersDev
    ensures Overlaid(base, generated, out) && WellFormed(out)
  {}

  /** One generated value the final configuration does not carry. */
  datatype Mismatch = VarDiffers(name: string) | IdDiffers(binding: string) | SendersDiffer(sender: Option<string>)
                    | RoutesDiffer

  /** Some generated entry of the key wants a value that the declared entry of that key has not. */
  ghost predicate EntryDiffers<K, V>(final: seq<Entry<K, V>>, generated: seq<Entry<K, V>>, key: K) {
    exists i :: 0 <= i < |generated| && generated[i].key == key && generated[i].value.Some?
      && Find(final, key).Some? && final[Find(final, key).value].value != generated[i].value
  }

  ghost predicate VarMissed(final: seq<Var>, vars: seq<Var>, name: string) {
    exists i :: 0 <= i < |vars| && vars[i].name == name && Lookup(final, name) != Some(vars[i].value)
  }

  ghost predicate Differs(final: Block, generated: Block, m: Mismatch) {
    match m
    case VarDiffers(name) => VarMissed(Or(final.vars), Or(generated.vars), name)
    case IdDiffers(binding) => EntryDiffers(Or(final.d1), WithIds(Or(generated.d1)), binding)
    case SendersDiffer(name) => EntryDiffers(Or(final.email), Or(generated.email), name)
    case RoutesDiffer =>
      generated.routes.Some? && generated.routes.value != [] && final.routes != generated.routes
  }

  lemma EntriesDiffer<K(!new), V>(final: seq<Entry<K, V>>, generated: seq<Entry<K, V>>)
    ensures EntriesAgree(final, generated) <==> forall k :: !EntryDiffers(final, generated, k)
  {
    if forall k :: !EntryDiffers(final, generated, k) {
      forall i | 0 <= i < |generated| && generated[i].value.Some?
        ensures match Find(final, generated[i].key)
                case None => true
                case Some(t) => final[t].value == generated[i].value
      {
        assert !EntryDiffers(final, generated, generated[i].key);
      }
    }
  }

  lemma VarsMissed(final: seq<Var>, vars: seq<Var>)
    ensures VarsAgree(final, vars) <==> forall n :: !VarMissed(final, vars, n)
  {
    if forall n :: !VarMissed(final, vars, n) {
      forall i | 0 <= i < |vars| ensures Lookup(final, vars[i].name) == Some(vars[i].value) {
        assert !VarMissed(final, vars, vars[i].name);
      }
    }
  }

  /** Nothing differs exactly when the final configuration carries everything generated. */
  lemma DiffersIff(final: Block, generated: Block)
    ensures Agrees(final, generated) <==> forall m :: !Differs(final, generated, m)
  {
    VarsMissed(Or(final.vars), Or(generated.vars));
    EntriesDiffer(Or(final.d1), WithIds(Or(generated.d1)));
    EntriesDiffer(Or(final.email), Or(generated.email));
    if forall m :: !Differs(final, generated, m) {
      forall n ensures !VarMissed(Or(final.vars), Or(generated.vars), n) {
        assert !Differs(final, generated, VarDiffers(n));
      }
      forall k ensures !EntryDiffers(Or(final.d1), WithIds(Or(generated.d1)), k) {
        assert !Differs(final, generated, IdDiffers(k));
      }
      forall k ensures !EntryDiffers(Or(final.email), Or(generated.email), k) {
        assert !Differs(final, generated, SendersDiffer(k));
      }
      assert !Differs(final, generated, RoutesDiffer);
    }
  }

  function IdsDiffering(keys: seq<string>): (r: seq<Mismatch>)
    ensures forall m :: m in r <==> m.IdDiffers? && m.binding in keys
  {
    if keys == [] then [] else [IdDiffers(keys[0])] + IdsDiffering(keys[1..])
  }

  function SendersDiffering(keys: seq<Option<string>>): (r: seq<Mismatch>)
    ensures forall m :: m in r <==> m.SendersDiffer? && m.sender in keys
  {
    if keys == [] then [] else [SendersDiffer(keys[0])] + SendersDiffering(keys[1..])
  }

  /** The re-read check: exactly what differs, and so nothing exactly when everything generated is carried. */
  method FindOverlayMismatches(final: Block, generated: Block) returns (out: seq<Mismatch>)
    ensures forall m :: m in out <==> Differs(final, generated, m)
    ensures out == [] <==> Agrees(final, generated)
  {
    out := [];
    var vars := Or(generated.vars);
    for i := 0 to |vars|
      invariant forall m :: m in out <==> m.VarDiffers? && VarMissed(Or(final.vars), vars[..i], m.name)
    {
      assert vars[..i + 1] == vars[..i] + [vars[i]];
      NextMissed(Or(final.vars), vars[..i], vars[i]);
      if Lookup(Or(final.vars), vars[i].name) != Some(vars[i].value) { out := out + [VarDiffers(vars[i].name)]; }
    }
    assert vars[..|vars|] == vars;
    var d1 := EntryMismatches(Or(final.d1), WithIds(Or(generated.d1)));
    var email := EntryMismatches(Or(final.email), Or(generated.email));
    out := out + IdsDiffering(d1) + SendersDiffering(email);
    if generated.routes.Some? && generated.routes.value != [] && final.routes != generated.routes {
      out := out + [RoutesDiffer];
    }
    DiffersIff(final, generated);
    if out != [] { assert out[0] in out; }
  }

  lemma NextMissed(final: seq<Var>, vars: seq<Var>, v: Var)
    ensures forall n :: VarMissed(final, vars + [v], n) <==>
              VarMissed(final, vars, n) || (n == v.name && Lookup(final, n) != Some(v.value))
  {
    var all := vars + [v];
    forall n ensures VarMissed(final, all, n) <==>
        VarMissed(final, vars, n) || (n == v.name && Lookup(final, n) != Some(v.value))
    {
      if i :| 0 <= i < |vars| && vars[i].name == n && Lookup(final, n) != Some(vars[i].value) {
        assert all[i] == vars[i];
      }
      assert all[|vars|] == v;
    }
  }

  lemma NextDiffers<K(!new), V>(final: seq<Entry<K, V>>, generated: seq<Entry<K, V>>, g: Entry<K, V>)
    ensures forall k :: EntryDiffers(final, generated + [g], k) <==>
              EntryDiffers(final, generated, k) || EntryDiffers(final, [g], k)
  {
    var all := generated + [g];
    forall k ensures EntryDiffers(final, all, k) <==>
        EntryDiffers(final, generated, k) || EntryDiffers(final, [g], k)
    {
      if i :| 0 <= i < |generated| && generated[i].key == k && generated[i].value.Some?
              && Find(final, k).Some? && final[Find(final, k).value].value != generated[i].value
      {
        assert all[i] == generated[i];
      }
      if EntryDiffers(final, [g], k) { assert all[|generated|] == g; }
      if i :| 0 <= i < |all| && all[i].key == k && all[i].value.Some?
              && Find(final, k).Some? && final[Find(final, k).value].value != all[i].value
      {
        if i == |generated| { assert [g][0] == all[i]; }
      }
    }
  }

  method EntryMismatches<K(!new, ==), V(==)>(final: seq<Entry<K, V>>, generated: seq<Entry<K, V>>)
    returns (out: seq<K>)
    ensures forall k :: k in out <==> EntryDiffers(final, generated, k)
  {
    out := [];
    for i := 0 to |generated|
      invariant forall k :: k in out <==> EntryDiffers(final, generated[..i], k)
    {
      var g := generated[i];
      assert generated[..i + 1] == generated[..i] + [g];
      NextDiffers(final, generated[..i], g);
      assert [g][0] == g;
      if g.value.None? { continue; }
      var t := Find(final, g.key);
      if t.Some? && final[t.value].value != g.value { out := out + [g.key]; }
    }
    assert generated[..|generated|] == generated;
  }

  lemma VarsOverlaidAgree(base: seq<Var>, generated: seq<Var>, out: seq<Var>)
    requires VarsOverlaid(base, generated, out) && NamesOnce(generated)
    ensures VarsAgree(out, generated)
  {
    forall i | 0 <= i < |generated| ensures Lookup(out, generated[i].name) == Some(generated[i].value) {
      LookupIn(generated, generated[i].name);
    }
  }

  /**
   * The overlaid configuration passes the re-read check, and a second overlay applies nothing,
   * exactly when the generated file does not give one declared binding two different values.
   */
  lemma OverlaySettlesIffUnambiguous(base: Block, generated: Block, config: Block)
    requires WellFormed(generated) && Overlaid(base, generated, config)
    ensures Agrees(config, generated) <==> Unambiguous(base, generated)
    ensures AgreesFully(config, generated) <==> Unambiguous(base, generated)
  {
    if generated.vars.Some? { VarsOverlaidAgree(Or(base.vars), generated.vars.value, config.vars.value); }
    OverlaidAgreesIffNoConflict(Or(base.d1), WithIds(Or(generated.d1)), Or(config.d1));
    OverlaidAgreesIffNoConflict(Or(base.email), Or(generated.email), Or(config.email));
  }

  /** Bindings listed once in the generated file leave nothing ambiguous. */
  lemma UniqueBindingsUnambiguous(base: Block, generated: Block)
    requires forall i, j | 0 <= i < j < |Or(generated.d1)| :: Or(generated.d1)[i].key != Or(generated.d1)[j].key
    requires forall i, j | 0 <= i < j < |Or(generated.email)| ::
               Or(generated.email)[i].key != Or(generated.email)[j].key
    ensures Unambiguous(base, generated)
  {}

  /** Two values for one declared binding: the last wins, and the check reports the first. */
  lemma CompetingIdsFailTheCheck() returns (base: Block, generated: Block, config: Block)
    ensures WellFormed(base) && WellFormed(generated) && Overlaid(base, generated, config)
    ensures !Agrees(config, generated)
  {
    var entry := Entry("DB", Some("0"), JNull);
    base := Block(None, Some([entry]), None, None, None, map[]);
    generated := Block(None, Some([entry.(value := Some("1")), entry.(value := Some("2"))]), None, None, None, map[]);
    config := base.(d1 := Some([entry.(value := Some("2"))]));
    var d1 := WithIds(Or(generated.d1));
    assert d1 == generated.d1.value;
    assert Find(Or(base.d1), "DB") == Some(0) && Find(Or(config.d1), "DB") == Some(0);
    assert LastWanted(d1, "DB") == Some("2");
    assert d1[0].value == Some("1");
  }
}
