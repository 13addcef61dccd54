/**
 * Minting a transactional API key into 1Password (scripts/lib/onboard-core.ts: decideKey;
 * scripts/onboard.ts: observeStore, keyStep, mintKey). Keys have no name on the server, so the
 * stored item is the idempotency key; every call may fail, before or after its effect.
 */
module KeySaga {
  import opened Common
  import opened StepEngine

  /** What is fixed when a key is created, and the one thing that can be changed later. */
  datatype Body = Body(frozen: string, senderName: Option<string>)

  datatype KeyRow = KeyRow(active: bool, body: Body)

  datatype Item = Item(title: string, keyId: Option<string>, endpoint: Option<string>)

  datatype Observation =
    | Unavailable
    | Ambiguous
    | Absent
    | Present(item: string, keyId: Option<string>, endpoint: Option<string>)

  datatype KeyTodo = Mint | Fix(item: string, keyId: string, rename: bool, repoint: bool)

  /** How a call ends: with its effect, without it, or with it but reported as failed. */
  datatype Fault = Works | FailsBefore | FailsAfter

  datatype ReadFault = ReadFault(list: bool, keyId: bool, endpoint: bool)

  const Readable := ReadFault(false, false, false)

  /** What the calls of one run meet; `bare` is a create response without its plaintext. */
  datatype Weather = Weather(
    keysFail: bool, first: ReadFault, second: ReadFault, back: ReadFault, create: Fault, bare: bool,
    store: Fault, revoke: Fault, patch: Fault, edit: Fault)

  const Fair := Weather(false, Readable, Readable, Readable, Works, false, Works, Works, Works, Works)

  type Keys = map<string, KeyRow>
  type Items = map<string, Item>

  function Titled(items: Items, title: string): set<string> {
    set i | i in items && items[i].title == title
  }

  // ---------------------------------------------------------------- reading and deciding

  /** No item has the title. */
  ghost predicate Untaken(items: Items, title: string) {
    forall i | i in items :: items[i].title != title
  }

  /** Item i has the title, and no other has. */
  ghost predicate Sole(items: Items, title: string, i: string) {
    i in items && items[i].title == title && forall j | j in items && items[j].title == title :: j == i
  }

  ghost predicate Repeated(items: Items, title: string) {
    exists i, j :: i in items && j in items && items[i].title == title && items[j].title == title && i != j
  }

  /** What reading the vault can show. */
  ghost predicate Shows(items: Items, title: string, fault: ReadFault, o: Observation) {
    match o
    case Unavailable => fault.list
    case Ambiguous => !fault.list && Repeated(items, title)
    case Absent => !fault.list && Untaken(items, title)
    case Present(i, k, e) =>
      && !fault.list && Sole(items, title, i)
      && k == (if fault.keyId then None else items[i].keyId)
      && e == (if fault.endpoint then None else items[i].endpoint)
  }

  lemma Another(ids: set<string>, i: string) returns (j: string)
    requires i in ids && |ids| > 1
    ensures j in ids && j != i
  {
    assert |ids - {i}| == |ids| - 1;
    j :| j in ids - {i};
  }

  method ObserveStore(items: Items, title: string, fault: ReadFault) returns (o: Observation)
    ensures Shows(items, title, fault, o)
  {
    if fault.list { return Unavailable; }
    var ids := Titled(items, title);
    if ids == {} {
      forall j | j in items ensures items[j].title != title { assert j !in ids; }
      return Absent;
    }
    var i :| i in ids;
    if |ids| > 1 {
      var j := Another(ids, i);
      return Ambiguous;
    }
    assert |ids - {i}| == 0;
    forall j | j in items && items[j].title == title ensures j == i { assert j in ids && j !in ids - {i}; }
    o := Present(i, if fault.keyId then None else items[i].keyId,
                 if fault.endpoint then None else items[i].endpoint);
  }

  /** scripts/lib/onboard-core.ts: decideKey; `keys` and `endpoint` are unknown without a mailbox. */
  function DecideKey(body: Body, o: Observation, keys: Option<Keys>, endpoint: Option<string>)
    : Decision<KeyTodo>
  {
    match o
    case Unavailable => NotPossible
    case Ambiguous => NotPossible
    case Absent => Todo(Mint)
    case Present(i, k, e) =>
      if k.None? || keys.None? || k.value !in keys.value || !keys.value[k.value].active then NotPossible
      else
        var row := keys.value[k.value];
        if row.body.frozen != body.frozen then NotPossible
        else
          var rename := row.body.senderName != body.senderName;
          var repoint := endpoint.Some? && e != endpoint;
          if rename || repoint then Todo(Fix(i, k.value, rename, repoint)) else InPlace
  }

  /** Exactly one item has the title, and it holds an active key. */
  ghost predicate Stored(keys: Keys, items: Items, title: string) {
    exists i :: Sole(items, title, i) && items[i].keyId.Some?
                && items[i].keyId.value in keys && keys[items[i].keyId.value].active
  }

  /** Stored, and as the manifest describes it. */
  ghost predicate AsWanted(keys: Keys, items: Items, title: string, body: Body, endpoint: string) {
    exists i :: Sole(items, title, i) && items[i].keyId.Some?
                && items[i].keyId.value in keys && keys[items[i].keyId.value] == KeyRow(true, body)
                && items[i].endpoint == Some(endpoint)
  }

  /** Nobody has the title, or its one item holds an active key that differs at most where keys can be changed. */
  ghost predicate Attainable(keys: Keys, items: Items, title: string, body: Body) {
    || Untaken(items, title)
    || exists i :: Sole(items, title, i) && items[i].keyId.Some?
         && items[i].keyId.value in keys && keys[items[i].keyId.value].active
         && keys[items[i].keyId.value].body.frozen == body.frozen
  }

  /** The item seen holds a live key that differs at most where keys can be changed. */
  ghost predicate Usable(o: Observation, keys: Keys, body: Body) {
    && o.Present? && o.keyId.Some? && o.keyId.value in keys && keys[o.keyId.value].active
    && keys[o.keyId.value].body.frozen == body.frozen
  }

  /** The key and the item seen are as the manifest describes them. */
  ghost predicate Current(o: Observation, keys: Keys, body: Body, endpoint: Option<string>) {
    Usable(o, keys, body) && keys[o.keyId.value].body.senderName == body.senderName && o.endpoint == endpoint
  }

  /** The secret was created and known, and could not be stored: the key is revoked, if the call takes effect. */
  ghost predicate Revoked(weather: Weather) {
    weather.create.Works? && !weather.bare && !weather.store.Works? && !weather.revoke.FailsBefore?
  }

  /** What minting leaves, call by call: the key, the item that holds it, and how it is reported. */
  ghost predicate Minted(keys: Keys, items: Items, keys': Keys, items': Items, item: Item, body: Body,
                         weather: Weather, recheck: Observation, k: string, i: string, o: Outcome)
  {
    && Shows(items, item.title, weather.second, recheck)
    && keys' == (if !recheck.Absent? || weather.create.FailsBefore? then keys
                 else keys[k := KeyRow(!Revoked(weather), body)])
    && items' == (if recheck.Absent? && weather.create.Works? && !weather.bare && !weather.store.FailsBefore?
                  then items[i := item] else items)
    && o == if recheck.Absent? && weather.create.Works? && !weather.bare && weather.store.Works?
               && !weather.back.list && !weather.back.keyId then Done else Failed
  }

  /** What the two fixes leave: the first that fails is the last tried. */
  ghost predicate Fixed(keys: Keys, items: Items, keys': Keys, items': Items, k: string, i: string, rename: bool,
                        repoint: bool, name: Option<string>, endpoint: string, weather: Weather, o: Outcome)
    requires k in keys && i in items
  {
    && keys' == (if rename && !weather.patch.FailsBefore?
                 then keys[k := KeyRow(keys[k].active, Body(keys[k].body.frozen, name))] else keys)
    && items' == (if repoint && (rename ==> weather.patch.Works?) && !weather.edit.FailsBefore?
                  then items[i := Item(items[i].title, items[i].keyId, Some(endpoint))] else items)
    && o == if (rename ==> weather.patch.Works?) && (repoint ==> weather.edit.Works?) then Done else Failed
  }

  /** What is left to do has been done as far as the calls went through, or only announced in a dry run. */
  ghost predicate Carried(keys: Keys, items: Items, keys': Keys, items': Items, title: string, body: Body,
                          endpoint: Option<string>, mode: Mode, weather: Weather, seen: seq<Observation>,
                          k: string, i: string, o: Outcome)
    requires seen != [] && Shows(items, title, weather.first, seen[0])
    requires seen[0].Absent? || (endpoint.Some? && Usable(seen[0], keys, body))
  {
    if mode.DryRun? then o == WouldDo && keys' == keys && items' == items
    else if endpoint.None? then o == Failed && keys' == keys && items' == items
    else if seen[0].Absent? then
      && |seen| == 2
      && Minted(keys, items, keys', items', Item(title, Some(k), endpoint), body, weather, seen[1], k, i, o)
    else
      var id := seen[0].keyId.value;
      Fixed(keys, items, keys', items', id, seen[0].item, keys[id].body.senderName != body.senderName,
            seen[0].endpoint != endpoint, body.senderName, endpoint.value, weather, o)
  }

  /** The whole step in any weather, by what the first look at the vault showed. */
  ghost predicate Stepped(keys: Keys, items: Items, keys': Keys, items': Items, title: Option<string>, body: Body,
                          endpoint: Option<string>, mode: Mode, weather: Weather, seen: seq<Observation>,
                          k: string, i: string, o: Outcome)
  {
    if endpoint.Some? && weather.keysFail then o == Failed && keys' == keys && items' == items
    else if title.None? then o == Blocked && keys' == keys && items' == items
    else
      && seen != [] && Shows(items, title.value, weather.first, seen[0])
      && if endpoint.Some? && Current(seen[0], keys, body, endpoint) then
           o == Already && keys' == keys && items' == items
         else if seen[0].Absent? || (endpoint.Some? && Usable(seen[0], keys, body)) then
           Carried(keys, items, keys', items', title.value, body, endpoint, mode, weather, seen, k, i, o)
         else o == Blocked && keys' == keys && items' == items
  }

  predicate HeldByItem(items: Items, k: string) {
    exists i | i in items :: items[i].keyId == Some(k)
  }

  class Deployment {
    var keys: Keys
    var items: Items
    /** The run that minted each key minted here, and how each run was reported. */
    ghost var mintedBy: map<string, nat>
    ghost var reported: seq<Outcome>

    /** A live key minted here that no item holds belongs to a run reported failed. */
    ghost predicate Accounted()
      reads this
    {
      && (forall k | k in mintedBy :: mintedBy[k] < |reported|)
      && (forall k, l | k in mintedBy && l in mintedBy && mintedBy[k] == mintedBy[l] :: k == l)
      && (forall k | k in mintedBy && k in keys && keys[k].active && !HeldByItem(items, k) ::
            reported[mintedBy[k]] == Failed)
    }

    constructor (keys: Keys, items: Items)
      ensures this.keys == keys && this.items == items && mintedBy == map[] && reported == []
      ensures Accounted()
    {
      this.keys, this.items, mintedBy, reported := keys, items, map[], [];
    }

    /** PATCH the sender name. */
    method PatchKey(k: string, name: Option<string>, fault: Fault) returns (ok: bool)
      requires k in keys && keys[k].active
      modifies this`keys
      ensures ok == fault.Works?
      ensures keys == if fault.FailsBefore? then old(keys)
                      else old(keys)[k := old(keys)[k].(body := old(keys)[k].body.(senderName := name))]
    {
      if !fault.FailsBefore? { keys := keys[k := keys[k].(body := keys[k].body.(senderName := name))]; }
      ok := fault.Works?;
    }

    /** `op item edit`. */
    method EditItem(i: string, endpoint: string, fault: Fault) returns (ok: bool)
      requires i in items
      modifies this`items
      ensures ok == fault.Works?
      ensures items == if fault.FailsBefore? then old(items)
                       else old(items)[i := old(items)[i].(endpoint := Some(endpoint))]
    {
      if !fault.FailsBefore? { items := items[i := items[i].(endpoint := Some(endpoint))]; }
      ok := fault.Works?;
    }

    /** The two in-place fixes, in order; the second is not tried when the first fails. */
    method FixKey(plan: KeyTodo, body: Body, endpoint: string, weather: Weather) returns (o: Outcome)
      requires plan.Fix? && plan.item in items && plan.keyId in keys && keys[plan.keyId].active
      modifies this`keys, this`items
      ensures Fixed(old(keys), old(items), keys, items, plan.keyId, plan.item, plan.rename, plan.repoint,
                    body.senderName, endpoint, weather, o)
      ensures keys.Keys == old(keys).Keys && items.Keys == old(items).Keys
      ensures forall k | k in keys :: keys[k] == old(keys)[k] || (k == plan.keyId && keys[k] ==
                KeyRow(true, Body(old(keys)[k].body.frozen, body.senderName)))
      ensures forall i | i in items :: items[i] == old(items)[i]
                || (i == plan.item && items[i] == old(items)[i].(endpoint := Some(endpoint)))
      ensures o.Done? && plan.rename ==> keys[plan.keyId].body.senderName == body.senderName
      ensures o.Done? && plan.repoint ==> items[plan.item].endpoint == Some(endpoint)
    {
      if plan.rename {
        var ok := PatchKey(plan.keyId, body.senderName, weather.patch);
        if !ok { return Failed; }
      }
      if plan.repoint {
        var ok := EditItem(plan.item, endpoint, weather.edit);
        if !ok { return Failed; }
      }
      o := Done;
    }

    /** Re-check, create, store; a key whose secret could not be stored is revoked. */
    method MintKey(title: string, body: Body, endpoint: string, weather: Weather, k: string, i: string)
      returns (o: Outcome, recheck: Observation)
      requires k !in keys && i !in items && forall j | j in items :: items[j].keyId != Some(k)
      modifies this`keys, this`items
      ensures Minted(old(keys), old(items), keys, items, Item(title, Some(k), Some(endpoint)), body, weather,
                     recheck, k, i, o)
      ensures k in keys ==> recheck.Absent? && keys == old(keys)[k := KeyRow(keys[k].active, body)]
      ensures k !in keys ==> keys == old(keys) && items == old(items) && o.Failed?
      ensures items == old(items) || (k in keys && items ==
                old(items)[i := Item(title, Some(k), Some(endpoint))])
      ensures o.Done? ==> AsWanted(keys, items, title, body, endpoint) && HeldByItem(items, k)
    {
      recheck := ObserveStore(items, title, weather.second);
      if !recheck.Absent? { return Failed, recheck; }
      if weather.create.FailsBefore? { return Failed, recheck; }
      keys := keys[k := KeyRow(true, body)];
      if weather.create.FailsAfter? || weather.bare { return Failed, recheck; }
      ghost var before := items;
      if !weather.store.FailsBefore? { items := items[i := Item(title, Some(k), Some(endpoint))]; }
      if !weather.store.Works? {
        if !weather.revoke.FailsBefore? { keys := keys[k := KeyRow(false, body)]; }
        return Failed, recheck;
      }
      assert items[i] == Item(title, Some(k), Some(endpoint));
      assert Untaken(before, title) && Sole(items, title, i);
      var back := ObserveStore(items, title, weather.back);
      o := if !back.Present? || back.keyId != Some(k) then Failed else Done;
    }

    /** The key step of one run, before it is reported; at most one key is minted. */
    method KeyStep(title: Option<string>, body: Body, endpoint: Option<string>, mode: Mode,
                   weather: Weather, k: string, i: string)
      returns (o: Outcome, seen: seq<Observation>)
      requires k !in keys && i !in items && forall j | j in items :: items[j].keyId != Some(k)
      modifies this`keys, this`items
      ensures o.Already? || o.Done? ==>
                title.Some? && endpoint.Some? && Stored(keys, items, title.value)
      ensures k in keys ==>
                && title.Some? && Untaken(old(items), title.value)
                && seen == [Absent, Absent] && (o.Done? || o.Failed?)
                && keys == old(keys)[k := KeyRow(keys[k].active, body)]
                && (o.Done? ==> HeldByItem(items, k))
      ensures k !in keys ==> keys.Keys == old(keys).Keys
      ensures forall x | x in old(keys) :: x in keys && keys[x].active == old(keys)[x].active
      ensures forall x | x in old(keys) && HeldByItem(old(items), x) :: HeldByItem(items, x)
      ensures title.Some? && endpoint.Some? && weather == Fair ==>
                && (mode.Apply? && Untaken(old(items), title.value) ==> o.Done?)
                && (AsWanted(old(keys), old(items), title.value, body, endpoint.value) <==> o.Already?)
                && (o.Done? ==> AsWanted(keys, items, title.value, body, endpoint.value))
                && (o.Blocked? <==> !Attainable(old(keys), old(items), title.value, body))
                && (!o.Already? && !o.Blocked? ==> if mode.DryRun? then o.WouldDo? else o.Done?)
      ensures mode.DryRun? ==> keys == old(keys) && items == old(items) && !o.Done?
      ensures mode.Apply? ==> !o.WouldDo?
      ensures Stepped(old(keys), old(items), keys, items, title, body, endpoint, mode, weather, seen, k, i, o)
    {
      seen := [];
      if endpoint.Some? && weather.keysFail { return Failed, []; }
      if title.None? { return Blocked, []; }
      var observed := ObserveStore(items, title.value, weather.first);
      seen := [observed];
      var known := if endpoint.Some? then Some(keys) else None;
      var decision := DecideKey(body, observed, known, endpoint);
      if decision.InPlace? { return Already, seen; }
      if decision.NotPossible? { return Blocked, seen; }
      if mode.DryRun? { return WouldDo, seen; }
      if endpoint.None? { return Failed, seen; }
      if decision.plan.Fix? {
        ghost var before := items;
        o := FixKey(decision.plan, body, endpoint.value, weather);
        FixedTitles(before, items, title.value);
        StillHeld(before, items);
        return o, seen;
      }
      var recheck;
      ghost var before := items;
      o, recheck := MintKey(title.value, body, endpoint.value, weather, k, i);
      StillHeld(before, items);
      seen := seen + [recheck];
    }

    /** One run: its outcome is reported, whatever it was. */
    method Run(title: Option<string>, body: Body, endpoint: Option<string>, mode: Mode,
               weather: Weather, k: string, i: string)
      returns (o: Outcome, ghost seen: seq<Observation>)
      requires Accounted()
      requires k !in keys && i !in items && forall j | j in items :: items[j].keyId != Some(k)
      requires k !in mintedBy
      modifies this
      ensures Accounted() && reported == old(reported) + [o]
      ensures mintedBy == if k in keys then old(mintedBy)[k := |old(reported)|] else old(mintedBy)
      ensures keys.Keys <= old(keys).Keys + {k}
      ensures o.Already? || o.Done? ==> title.Some? && Stored(keys, items, title.value)
      ensures k in keys ==> title.Some? && Untaken(old(items), title.value)
      ensures mode.DryRun? ==> keys == old(keys) && items == old(items) && !o.Done?
      ensures Stepped(old(keys), old(items), keys, items, title, body, endpoint, mode, weather, seen, k, i, o)
      ensures title.Some? && endpoint.Some? && weather == Fair ==>
                && (o.Already? <==> AsWanted(old(keys), old(items), title.value, body, endpoint.value))
                && (o.Blocked? <==> !Attainable(old(keys), old(items), title.value, body))
                && (!o.Already? && !o.Blocked? ==> if mode.DryRun? then o.WouldDo? else o.Done?)
                && (o.Done? ==> AsWanted(keys, items, title.value, body, endpoint.value))
    {
      o, seen := KeyStep(title, body, endpoint, mode, weather, k, i);
      if k in keys { mintedBy := mintedBy[k := |reported|]; }
      reported := reported + [o];
    }

    /** The operator follows a remedy: delete an item whose key is not live. */
    method DeleteDeadItem(i: string)
      requires Accounted() && i in items
      requires items[i].keyId.Some? ==> items[i].keyId.value !in keys || !keys[items[i].keyId.value].active
      modifies this`items
      ensures Accounted() && items == old(items) - {i}
    {
      ghost var before := items;
      items := items - {i};
      forall k | k in keys && keys[k].active && HeldByItem(before, k) ensures HeldByItem(items, k) {
        var j :| j in before && before[j].keyId == Some(k);
        assert j in items;
      }
    }

    /** The operator revokes a key. */
    method RevokeKey(k: string)
      requires Accounted() && k in keys
      modifies this`keys
      ensures Accounted() && keys == old(keys)[k := old(keys)[k].(active := false)]
    {
      keys := keys[k := keys[k].(active := false)];
    }
  }

  /** Editing an item's endpoint leaves which items have the title alone. */
  lemma FixedTitles(before: Items, after: Items, title: string)
    requires before.Keys == after.Keys
    requires forall i | i in before :: after[i].title == before[i].title
    ensures Titled(after, title) == Titled(before, title)
  {}

  lemma StillHeld(before: Items, after: Items)
    requires forall i | i in before :: i in after && after[i].keyId == before[i].keyId
    ensures forall k | HeldByItem(before, k) :: HeldByItem(after, k)
  {
    forall k | HeldByItem(before, k) ensures HeldByItem(after, k) {
      var i :| i in before && before[i].keyId == Some(k);
      assert after[i].keyId == Some(k);
    }
  }
}
