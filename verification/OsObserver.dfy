/** LocUnorderedSetMap.h: a map from keys to sets. */
module SetMap {
  function Vals<K, V>(m: map<K, set<V>>, key: K): set<V> {
    if key in m then m[key] else {}
  }

  /** No key is kept for an empty set. */
  ghost predicate NoEmptyEntry<K, V>(m: map<K, set<V>>) {
    forall k :: k in m ==> m[k] != {}
  }

  /** Each key gets the values. */
  function AddedAll<K(!new), V>(m: map<K, set<V>>, keys: set<K>, vals: set<V>): (r: map<K, set<V>>)
    ensures forall k: K :: Vals(r, k) == Vals(m, k) + if k in keys then vals else {}
    ensures forall k: K :: k in r <==> k in m || (k in keys && vals != {})
    ensures NoEmptyEntry(m) ==> NoEmptyEntry(r)
  {
    map k | k in m.Keys + (if vals == {} then {} else keys) :: Vals(m, k) + if k in keys then vals else {}
  }

  /** Each key loses the values, and goes when it has none left. */
  function TrimmedAll<K(!new), V>(m: map<K, set<V>>, keys: set<K>, vals: set<V>): (r: map<K, set<V>>)
    ensures forall k: K :: Vals(r, k) == Vals(m, k) - if k in keys then vals else {}
    ensures forall k: K :: k in r <==> k in m && (k in keys ==> m[k] - vals != {})
    ensures NoEmptyEntry(m) ==> NoEmptyEntry(r)
  {
    map k | k in m && (k in keys ==> m[k] - vals != {}) :: m[k] - if k in keys then vals else {}
  }

  /** The values that at least one of the keys loses. */
  ghost function LostVals<K(!new), V>(m: map<K, set<V>>, keys: set<K>, vals: set<V>): set<V> {
    set v | v in vals && exists k :: k in keys && v in Vals(m, k)
  }

  /** An entry takes these values instead of those it had. */
  function Replaced<K(!new), V>(m: map<K, set<V>>, key: K, vals: set<V>): (r: map<K, set<V>>)
    ensures forall k: K :: Vals(r, k) == if k == key then vals else Vals(m, k)
  {
    if vals == {} then m - {key} else m[key := vals]
  }

  lemma SameEntries<K(!new), V>(a: map<K, set<V>>, b: map<K, set<V>>)
    requires forall k: K :: k in a <==> k in b
    requires forall k: K :: Vals(a, k) == Vals(b, k)
    ensures a == b
  {
    assert a.Keys == b.Keys;
    assert forall k :: k in a ==> a[k] == Vals(a, k) && b[k] == Vals(b, k);
  }

  lemma ToNone<K(!new), V>(m: map<K, set<V>>, vals: set<V>)
    ensures AddedAll(m, {}, vals) == m == TrimmedAll(m, {}, vals)
  {
    SameEntries(AddedAll(m, {}, vals), m);
    SameEntries(TrimmedAll(m, {}, vals), m);
  }

  lemma AddedToOne<K(!new), V>(m: map<K, set<V>>, key: K, vals: set<V>)
    ensures AddedAll(m, {key}, vals) == if vals == {} then m else m[key := Vals(m, key) + vals]
  {
    SameEntries(AddedAll(m, {key}, vals), if vals == {} then m else m[key := Vals(m, key) + vals]);
  }

  lemma TrimmedFromOne<K(!new), V>(m: map<K, set<V>>, key: K, vals: set<V>)
    ensures TrimmedAll(m, {key}, vals) ==
            if key !in m then m else if m[key] - vals == {} then m - {key} else m[key := m[key] - vals]
  {
    SameEntries(TrimmedAll(m, {key}, vals),
                if key !in m then m else if m[key] - vals == {} then m - {key} else m[key := m[key] - vals]);
  }

  lemma AddedOneMore<K(!new), V>(m: map<K, set<V>>, keys: set<K>, key: K, vals: set<V>)
    ensures AddedAll(AddedAll(m, keys, vals), {key}, vals) == AddedAll(m, keys + {key}, vals)
  {
    hide AddedAll;
    SameEntries(AddedAll(AddedAll(m, keys, vals), {key}, vals), AddedAll(m, keys + {key}, vals));
  }

  lemma TrimmedOneMore<K(!new), V>(m: map<K, set<V>>, keys: set<K>, key: K, vals: set<V>)
    ensures TrimmedAll(TrimmedAll(m, keys, vals), {key}, vals) == TrimmedAll(m, keys + {key}, vals)
  {
    var c := TrimmedAll(m, keys, vals);
    hide TrimmedAll;
    forall k: K
      ensures k in TrimmedAll(c, {key}, vals) <==> k in TrimmedAll(m, keys + {key}, vals)
    {
      assert k in c ==> c[k] == Vals(c, k) == m[k] - if k in keys then vals else {};
    }
    SameEntries(TrimmedAll(c, {key}, vals), TrimmedAll(m, keys + {key}, vals));
  }

  lemma LostOneMore<K(!new), V>(m: map<K, set<V>>, keys: set<K>, key: K, vals: set<V>)
    requires key !in keys
    ensures LostVals(m, keys + {key}, vals) == LostVals(m, keys, vals) + Vals(TrimmedAll(m, keys, vals), key) * vals
  {
    hide TrimmedAll;
  }

  lemma NoneLost<K(!new), V>(m: map<K, set<V>>, vals: set<V>)
    ensures LostVals(m, {}, vals) == {}
  {
  }

  method TrimSet<V>(fromSet: set<V>, rVals: set<V>) returns (trimmed: set<V>, goneVals: set<V>)
    ensures trimmed == fromSet - rVals && goneVals == fromSet * rVals
  {
    trimmed, goneVals := fromSet, {};
    var rest := rVals;
    while rest != {}
      invariant rest <= rVals
      invariant trimmed == fromSet - (rVals - rest)
      invariant goneVals == fromSet * (rVals - rest)
    {
      var val :| val in rest;
      rest := rest - {val};
      if val in trimmed {
        trimmed, goneVals := trimmed - {val}, goneVals + {val};
      }
    }
  }

  method RemoveAndReturnIntersect<V>(s1: set<V>, s2: set<V>) returns (common: set<V>, left1: set<V>, left2: set<V>)
    ensures common == s1 * s2 && left1 == s1 - s2 && left2 == s2 - s1
  {
    common, left1, left2 := {}, s1, s2;
    var rest := s2;
    while rest != {}
      invariant rest <= s2
      invariant common == s1 * (s2 - rest)
      invariant left1 == s1 - (s2 - rest)
      invariant left2 == s2 - s1 + s1 * rest
    {
      var b :| b in rest;
      rest := rest - {b};
      if b in left1 {
        common, left1, left2 := common + {b}, left1 - {b}, left2 - {b};
      }
    }
  }

  class LocUnorderedSetMap<K(!new, ==), V(==)> {
    var entries: map<K, set<V>>

    constructor ()
      ensures entries == map[]
    {
      entries := map[];
    }

    method Empty() returns (empty: bool)
      ensures empty <==> entries == map[]
    {
      empty := entries == map[];
    }

    method GetValSet(key: K) returns (vals: set<V>)
      ensures vals == Vals(entries, key)
    {
      vals := if key in entries then entries[key] else {};
    }

    method GetKeys() returns (keys: set<K>)
      ensures keys == entries.Keys
    {
      keys := {};
      var rest := entries.Keys;
      while rest != {}
        invariant rest <= entries.Keys && keys == entries.Keys - rest
      {
        var key :| key in rest;
        rest, keys := rest - {key}, keys + {key};
      }
    }

    method Remove(key: K) returns (removed: bool)
      modifies this
      ensures entries == Replaced(old(entries), key, {})
      ensures removed <==> key in old(entries)
    {
      removed := key in entries;
      entries := entries - {key};
    }

    method TrimEntry(key: K, rVals: set<V>) returns (gone: bool, goneVals: set<V>)
      modifies this
      ensures entries == TrimmedAll(old(entries), {key}, rVals)
      ensures gone <==> key in old(entries) && key !in entries
      ensures entries.Keys == old(entries).Keys - if gone then {key} else {}
      ensures goneVals == Vals(old(entries), key) * rVals
    {
      TrimmedFromOne(entries, key, rVals);
      gone, goneVals := false, {};
      if key in entries {
        var trimmed;
        trimmed, goneVals := TrimSet(entries[key], rVals);
        entries := entries[key := trimmed];
        if trimmed == {} {
          entries := entries - {key};
          gone := true;
        }
      }
    }

    method TrimOrRemove(keys: set<K>, rVals: set<V>) returns (goneKeys: set<K>, goneVals: set<V>)
      modifies this
      ensures entries == TrimmedAll(old(entries), keys, rVals)
      ensures goneKeys == old(entries).Keys - entries.Keys
      ensures goneVals == LostVals(old(entries), keys, rVals)
    {
      hide TrimmedAll, LostVals, Vals;
      ToNone(entries, rVals);
      NoneLost(entries, rVals);
      goneKeys, goneVals := {}, {};
      var rest := keys;
      ghost var done: set<K> := {};
      while rest != {}
        invariant done !! rest && done + rest == keys
        invariant entries == TrimmedAll(old(entries), done, rVals)
        invariant entries.Keys == old(entries).Keys - goneKeys && goneKeys <= old(entries).Keys
        invariant goneVals == LostVals(old(entries), done, rVals)
      {
        var key :| key in rest;
        TrimmedOneMore(old(entries), done, key, rVals);
        LostOneMore(old(entries), done, key, rVals);
        var gone, lost := TrimEntry(key, rVals);
        rest, done := rest - {key}, done + {key};
        goneVals := goneVals + lost;
        if gone {
          goneKeys := goneKeys + {key};
        }
      }
      assert done == keys;
    }

    method Add(key: K, newVals: set<V>) returns (newEntryAdded: bool)
      modifies this
      ensures entries == AddedAll(old(entries), {key}, newVals)
      ensures newEntryAdded <==> newVals != {} && key !in old(entries)
      ensures entries.Keys == old(entries).Keys + if newEntryAdded then {key} else {}
    {
      AddedToOne(entries, key, newVals);
      newEntryAdded := false;
      if newVals != {} {
        if key in entries {
          entries := entries[key := entries[key] + newVals];
        } else {
          assert Vals(entries, key) + newVals == newVals;
          entries := entries[key := newVals];
          newEntryAdded := true;
        }
      }
    }

    method AddAll(keys: set<K>, newVals: set<V>) returns (newKeys: set<K>)
      modifies this
      ensures entries == AddedAll(old(entries), keys, newVals)
      ensures newKeys == entries.Keys - old(entries).Keys
    {
      hide AddedAll, Vals;
      ToNone(entries, newVals);
      newKeys := {};
      var rest := keys;
      ghost var done: set<K> := {};
      while rest != {}
        invariant done !! rest && done + rest == keys
        invariant entries == AddedAll(old(entries), done, newVals)
        invariant entries.Keys == old(entries).Keys + newKeys && newKeys !! old(entries).Keys
      {
        var key :| key in rest;
        AddedOneMore(old(entries), done, key, newVals);
        var added := Add(key, newVals);
        rest, done := rest - {key}, done + {key};
        if added {
          newKeys := newKeys + {key};
        }
      }
      assert done == keys;
    }

    /** Returns the values that stay, and what is left of the new ones without them. */
    method Update(key: K, newVals: set<V>) returns (goneVals: set<V>, left: set<V>)
      modifies this
      ensures entries == Replaced(old(entries), key, newVals)
      ensures goneVals == Vals(old(entries), key) * newVals
      ensures left == newVals - Vals(old(entries), key)
    {
      goneVals, left := {}, newVals;
      if newVals == {} {
        entries := entries - {key};
      } else {
        var curVals := if key in entries then entries[key] else {};
        entries := entries[key := newVals];
        goneVals, curVals, left := RemoveAndReturnIntersect(curVals, newVals);
      }
    }
  }
}

/** SystemStatusOsObserver.cpp: which client hears about which data item. */
module OsObserver {
  import opened SetMap

  type Client = nat
  type Item = nat

  const NoClient: Client := 0

  /** A data item as the framework reports it; it is recorded when SystemStatus says it is new. */
  datatype DataItem = DataItem(id: Item, value: int, recorded: bool)

  /** What the framework was told by way of the current subscription object: the items it heard of,
      in a subscription or in a request for data, and those among them that it is to watch. */
  datatype Link = Unset | Set(announced: set<Item>, watched: set<Item>)

  /** The items each notified client is given. */
  type Deliveries = map<Client, map<Item, int>>

  datatype Observer = Observer(
    items: map<Client, set<Item>>,
    clients: map<Item, set<Client>>,
    cache: map<Item, int>,
    link: Link)

  datatype Request =
    | Subscribe(l: set<Item>, client: Client, toRequestData: bool)
    | UpdateSubscription(l: set<Item>, client: Client)
    | Unsubscribe(l: set<Item>, client: Client)
    | UnsubscribeAll(client: Client)
    | SetSubscriptionObj(told: set<Item>, subscribed: set<Item>)
    | Notify(reported: seq<DataItem>)

  /** A request for data subscribes the framework to nothing. */
  function Announce(link: Link, more: set<Item>, less: set<Item>, onlyData: bool): Link {
    if link.Unset? then link
    else Set((link.announced + more) - less, (link.watched + if onlyData then {} else more) - less)
  }

  function Watch(o: Observer, clients: map<Item, set<Client>>, onlyData: bool): Observer {
    o.(clients := clients,
       link := Announce(o.link, clients.Keys - o.clients.Keys, o.clients.Keys - clients.Keys, onlyData))
  }

  /** What the link is after more items have a client, or fewer. */
  lemma Announced(o: Observer, keys: set<Item>, more: set<Item>, less: set<Item>, onlyData: bool)
    requires more == keys - o.clients.Keys && less == o.clients.Keys - keys
    ensures o.link.Set? ==>
      && (less == {} ==>
            Announce(o.link, more, less, onlyData) ==
            Set(o.link.announced + more, if onlyData then o.link.watched else o.link.watched + more))
      && (more == {} ==>
            Announce(o.link, more, less, onlyData) == Set(o.link.announced - less, o.link.watched - less))
    ensures more == {} == less ==> Announce(o.link, more, less, onlyData) == o.link
  {
    assert o.link.Set? ==> (o.link.announced + more) - {} == o.link.announced + more;
    assert o.link.Set? ==> (o.link.watched + more) - {} == o.link.watched + more;
    assert o.link.Set? ==> o.link.watched + {} == o.link.watched && o.link.watched - {} == o.link.watched;
    assert o.link.Set? ==> o.link.announced + {} == o.link.announced && o.link.announced - {} == o.link.announced;
  }

  lemma AnnouncedTwice(
    o: Observer, trimmed: Observer, clients: map<Item, set<Client>>, more: set<Item>, less: set<Item>)
    requires trimmed == Watch(o, trimmed.clients, false)
    requires trimmed.clients.Keys <= o.clients.Keys && trimmed.clients.Keys <= clients.Keys
    requires less == o.clients.Keys - trimmed.clients.Keys && more == clients.Keys - trimmed.clients.Keys
    requires more !! less
    ensures o.link.Unset? ==> Watch(trimmed, clients, false).link.Unset?
    ensures o.link.Set? ==>
      Watch(trimmed, clients, false).link == Set((o.link.announced + more) - less, (o.link.watched + more) - less)
  {
    Announced(o, trimmed.clients.Keys, {}, less, false);
    Announced(trimmed, clients.Keys, more, {}, false);
    assert o.link.Set? ==> (o.link.announced - less) + more == (o.link.announced + more) - less;
    assert o.link.Set? ==> (o.link.watched - less) + more == (o.link.watched + more) - less;
  }

  function AfterSubscribe(o: Observer, l: set<Item>, c: Client, toRequestData: bool): Observer {
    Watch(o, AddedAll(o.clients, l, {c}), toRequestData).(items := AddedAll(o.items, {c}, l))
  }

  /** The clients lose and gain this client where its old and new items, in the order of the
      code, meet and differ. */
  function AfterUpdate(o: Observer, l: set<Item>, c: Client): Observer {
    var had := Vals(o.items, c);
    var trimmed := Watch(o, TrimmedAll(o.clients, had * l, {c}), false);
    Watch(trimmed, AddedAll(trimmed.clients, l - had, {c}), false).(items := Replaced(o.items, c, l))
  }

  function AfterUnsubscribe(o: Observer, l: set<Item>, c: Client): Observer {
    Watch(o, TrimmedAll(o.clients, Vals(o.items, c) * l, {c}), false).(items := TrimmedAll(o.items, {c}, l))
  }

  function AfterUnsubscribeAll(o: Observer, c: Client): Observer {
    if Vals(o.items, c) == {} then o
    else Watch(o, TrimmedAll(o.clients, Vals(o.items, c), {c}), false).(items := Replaced(o.items, c, {}))
  }

  function CacheAfter(cache: map<Item, int>, reported: seq<DataItem>): map<Item, int> {
    if reported == [] then cache
    else
      var before := CacheAfter(cache, reported[..|reported| - 1]);
      var last := reported[|reported| - 1];
      if last.recorded then before[last.id := last.value] else before
  }

  function RecordedIds(reported: seq<DataItem>): set<Item> {
    set d | d in reported && d.recorded :: d.id
  }

  function Step(o: Observer, r: Request): Observer {
    match r
    case Subscribe(l, c, onlyData) => if l == {} || c == NoClient then o else AfterSubscribe(o, l, c, onlyData)
    case UpdateSubscription(l, c) => if l == {} || c == NoClient then o else AfterUpdate(o, l, c)
    case Unsubscribe(l, c) => if l == {} || c == NoClient then o else AfterUnsubscribe(o, l, c)
    case UnsubscribeAll(c) => if c == NoClient then o else AfterUnsubscribeAll(o, c)
    case SetSubscriptionObj(told, subscribed) =>
      o.(link := Set(told + o.clients.Keys, subscribed + o.clients.Keys))
    case Notify(reported) => o.(cache := CacheAfter(o.cache, reported))
  }

  // ------------------------------------------------------------------------------------------
  // The two maps

  ghost predicate Transposed(o: Observer) {
    forall c: Client, i: Item :: i in Vals(o.items, c) <==> c in Vals(o.clients, i)
  }

  ghost predicate Tight(o: Observer) {
    NoEmptyEntry(o.items) && NoEmptyEntry(o.clients)
  }

  lemma StepTight(o: Observer, r: Request)
    requires Tight(o)
    ensures Tight(Step(o, r))
  {
  }

  /** The one request that can part the two maps: an update by a client that already has items. */
  predicate Parts(o: Observer, r: Request) {
    r.UpdateSubscription? && r.l != {} && r.client != NoClient && Vals(o.items, r.client) != {}
  }

  lemma FirstUpdate(o: Observer, l: set<Item>, c: Client)
    requires Transposed(o) && l != {} && Vals(o.items, c) == {}
    ensures Transposed(AfterUpdate(o, l, c))
  {
    hide AddedAll, TrimmedAll;
    var o' := AfterUpdate(o, l, c);
    assert Vals(o.items, c) * l == {} && l - Vals(o.items, c) == l;
    forall i: Item
      ensures Vals(o'.clients, i) == Vals(o.clients, i) + if i in l then {c} else {}
    {
    }
    forall d: Client
      ensures Vals(o'.items, d) == if d == c then l else Vals(o.items, d)
    {
    }
    hide AfterUpdate;
  }

  lemma SubscribeKeepsPairs(o: Observer, l: set<Item>, c: Client, onlyData: bool)
    requires Transposed(o)
    ensures Transposed(AfterSubscribe(o, l, c, onlyData))
  {
    hide AddedAll;
  }

  lemma UnsubscribeKeepsPairs(o: Observer, l: set<Item>, c: Client)
    requires Transposed(o)
    ensures Transposed(AfterUnsubscribe(o, l, c))
  {
  }

  lemma UnsubscribeAllKeepsPairs(o: Observer, c: Client)
    requires Transposed(o)
    ensures Transposed(AfterUnsubscribeAll(o, c))
  {
  }

  /** Every request keeps the maps transposes of each other, except exactly those updates. */
  lemma StepTransposed(o: Observer, r: Request)
    requires Tight(o) && Transposed(o)
    ensures Transposed(Step(o, r)) <==> !Parts(o, r)
  {
    hide AfterSubscribe, AfterUpdate, AfterUnsubscribe, AfterUnsubscribeAll;
    match r {
      case Subscribe(l, c, onlyData) => SubscribeKeepsPairs(o, l, c, onlyData);
      case UpdateSubscription(l, c) =>
        if Parts(o, r) {
          UpdateParts(o, l, c);
        } else if l != {} && c != NoClient {
          FirstUpdate(o, l, c);
        }
      case Unsubscribe(l, c) => UnsubscribeKeepsPairs(o, l, c);
      case UnsubscribeAll(c) => UnsubscribeAllKeepsPairs(o, c);
      case _ =>
    }
  }

  /** What the clients map holds for the client after an update: not the new items, but those on
      which the old and the new set differ. */
  lemma UpdateLeaves(o: Observer, l: set<Item>, c: Client, i: Item)
    requires Transposed(o)
    ensures c in Vals(AfterUpdate(o, l, c).clients, i) <==> (i in l) != (i in Vals(o.items, c))
  {
  }

  lemma UpdateParts(o: Observer, l: set<Item>, c: Client)
    requires Tight(o) && Transposed(o) && l != {} && Vals(o.items, c) != {}
    ensures !Transposed(AfterUpdate(o, l, c))
  {
  }

  ghost predicate AnnouncesKeys(o: Observer) {
    o.link.Set? ==> o.link.announced == o.clients.Keys
  }

  /** The framework has heard of exactly the items with a client, after every request, unless it is
      given a subscription object that was told of other items. */
  lemma StepAnnounces(o: Observer, r: Request)
    requires AnnouncesKeys(o)
    ensures AnnouncesKeys(Step(o, r)) <==> (r.SetSubscriptionObj? ==> r.told <= o.clients.Keys)
  {
    hide AddedAll, TrimmedAll;
  }

  ghost predicate WatchesKeys(o: Observer) {
    o.link.Set? ==> o.link.watched == o.clients.Keys
  }

  /** A request for data that opens an item: the framework is asked for it and not subscribed. */
  predicate OpensByAsking(o: Observer, r: Request) {
    r.Subscribe? && r.toRequestData && r.client != NoClient && !(r.l <= o.clients.Keys)
  }

  /** Once there is a subscription object, the framework watches exactly the items with a client,
      after every request, unless a request for data opens an item, or the framework is given an
      object that watched other items. */
  lemma StepWatchesIff(o: Observer, r: Request)
    requires WatchesKeys(o)
    ensures WatchesKeys(Step(o, r)) <==>
      && (o.link.Set? ==> !OpensByAsking(o, r))
      && (r.SetSubscriptionObj? ==> r.subscribed <= o.clients.Keys)
  {
    hide AddedAll, TrimmedAll;
    if OpensByAsking(o, r) {
      var i :| i in r.l && i !in o.clients.Keys;
      assert i in Step(o, r).clients;
    }
  }

  /** Such an item stays unwatched when another client subscribes to it. */
  lemma AskedItemStaysUnwatched(o: Observer, i: Item, c: Client, d: Client)
    requires o.link.Set? && i !in o.clients && i !in o.link.watched && c != NoClient && d != NoClient
    ensures var o' := Step(Step(o, Subscribe({i}, c, true)), Subscribe({i}, d, false));
      c in Vals(o'.clients, i) && d in Vals(o'.clients, i) && i !in o'.link.watched
  {
    hide AddedAll;
    var o1 := Step(o, Subscribe({i}, c, true));
    assert i in o1.clients && i !in o1.link.watched;
  }

  // ------------------------------------------------------------------------------------------
  // Runs

  const Start := Observer(map[], map[], map[], Unset)

  function Run(run: seq<Request>): Observer {
    if run == [] then Start else Step(Run(run[..|run| - 1]), run[|run| - 1])
  }

  /** What a client asked for, by its own requests alone. */
  function Wants(run: seq<Request>, c: Client): set<Item> {
    if run == [] then {}
    else
      var before := Wants(run[..|run| - 1], c);
      match run[|run| - 1]
      case Subscribe(l, d, _) => if c == d != NoClient then before + l else before
      case UpdateSubscription(l, d) => if c == d != NoClient && l != {} then l else before
      case Unsubscribe(l, d) => if c == d != NoClient then before - l else before
      case UnsubscribeAll(d) => if c == d != NoClient then {} else before
      case _ => before
  }

  /** A client is always on record with the items it asked for. */
  lemma {:induction false} ItemsFollowRequests(run: seq<Request>, c: Client)
    ensures Vals(Run(run).items, c) == Wants(run, c)
  {
    hide AddedAll, TrimmedAll;
    if run != [] {
      ItemsFollowRequests(run[..|run| - 1], c);
    }
  }

  /** Where a client is listed, by its own requests alone.  An update takes away what it had and
      asks for again, and adds what is new to it. */
  function Listed(run: seq<Request>, c: Client): set<Item> {
    if run == [] then {}
    else
      var before, had := Listed(run[..|run| - 1], c), Wants(run[..|run| - 1], c);
      match run[|run| - 1]
      case Subscribe(l, d, _) => if c == d != NoClient then before + l else before
      case UpdateSubscription(l, d) => if c == d != NoClient && l != {} then (before - had * l) + (l - had) else before
      case Unsubscribe(l, d) => if c == d != NoClient then before - had * l else before
      case UnsubscribeAll(d) => if c == d != NoClient then before - had else before
      case _ => before
  }

  /** Over every run the items list a client exactly where its own requests leave it. */
  lemma {:induction false} ClientsFollowRequests(run: seq<Request>, c: Client, i: Item)
    ensures c in Vals(Run(run).clients, i) <==> i in Listed(run, c)
  {
    if run != [] {
      var before, r := run[..|run| - 1], run[|run| - 1];
      ClientsFollowRequests(before, c, i);
      ClientsAfterStep(Run(before), r, c, i);
      match r {
        case UpdateSubscription(_, d) => ItemsFollowRequests(before, d);
        case Unsubscribe(_, d) => ItemsFollowRequests(before, d);
        case UnsubscribeAll(d) => ItemsFollowRequests(before, d);
        case _ =>
      }
      hide Step, Vals;
    }
  }

  /** What one request does to the listing of a client under an item. */
  lemma ClientsAfterStep(o: Observer, r: Request, c: Client, i: Item)
    ensures c in Vals(Step(o, r).clients, i) <==>
      match r
      case Subscribe(l, d, _) => c in Vals(o.clients, i) || (c == d != NoClient && i in l)
      case UpdateSubscription(l, d) =>
        if c == d != NoClient && i in l then i !in Vals(o.items, c) else c in Vals(o.clients, i)
      case Unsubscribe(l, d) => c in Vals(o.clients, i) && !(c == d != NoClient && i in l && i in Vals(o.items, c))
      case UnsubscribeAll(d) => c in Vals(o.clients, i) && !(c == d != NoClient && i in Vals(o.items, c))
      case _ => c in Vals(o.clients, i)
  {
    hide AddedAll, TrimmedAll;
  }

  lemma {:induction false} RunTight(run: seq<Request>)
    ensures Tight(Run(run))
  {
    if run != [] {
      hide Step, Tight;
      RunTight(run[..|run| - 1]);
      StepTight(Run(run[..|run| - 1]), run[|run| - 1]);
    } else {
      assert Run(run) == Start;
    }
  }

  /** What the current subscription object was told of before, and no client has been listed under
      since. */
  function Leftover(run: seq<Request>): set<Item> {
    if run == [] then {}
    else
      var before, r := run[..|run| - 1], run[|run| - 1];
      (if r.SetSubscriptionObj? then r.told else Leftover(before)) - Run(run).clients.Keys
  }

  lemma AnnouncedStep(o: Observer, r: Request, extra: set<Item>)
    requires o.link.Set? ==> o.link.announced == o.clients.Keys + extra
    requires extra !! o.clients.Keys
    ensures var o' := Step(o, r);
      var more := if r.SetSubscriptionObj? then r.told else extra;
      o'.link.Set? ==> o'.link.announced == o'.clients.Keys + (more - o'.clients.Keys)
  {
    hide AddedAll, TrimmedAll;
  }

  lemma {:induction false} AnnouncedIsKeys(run: seq<Request>)
    ensures var o := Run(run); o.link.Set? ==> o.link.announced == o.clients.Keys + Leftover(run)
    ensures Leftover(run) !! Run(run).clients.Keys
  {
    if run != [] {
      hide Step;
      AnnouncedIsKeys(run[..|run| - 1]);
      AnnouncedStep(Run(run[..|run| - 1]), run[|run| - 1], Leftover(run[..|run| - 1]));
    }
  }

  /** Over every run the framework has heard of exactly the items under which some client is listed,
      and of what is left of what the subscription object was told before. */
  lemma AnnouncedIsListed(run: seq<Request>, i: Item)
    requires Run(run).link.Set?
    ensures i in Run(run).link.announced <==> i in Leftover(run) || exists c :: i in Listed(run, c)
  {
    AnnouncedIsKeys(run);
    HasClientIff(run, i);
    hide Leftover, Run, Listed;
  }

  lemma HasClientIff(run: seq<Request>, i: Item)
    ensures i in Run(run).clients <==> exists c :: i in Listed(run, c)
  {
    RunTight(run);
    var o := Run(run);
    if i in o.clients {
      var c :| c in o.clients[i];
      assert c in Vals(o.clients, i);
      ClientsFollowRequests(run, c, i);
      assert i in Listed(run, c);
    }
    forall c | i in Listed(run, c)
      ensures i in o.clients
    {
      ClientsFollowRequests(run, c, i);
    }
  }

  /** The items that a request for data opened since the subscription object was set, and that have
      had a client ever since. */
  function OnlyAsked(run: seq<Request>): set<Item> {
    if run == [] then {}
    else
      var before, r := run[..|run| - 1], run[|run| - 1];
      var keys, keys' := Run(before).clients.Keys, Run(run).clients.Keys;
      if r.SetSubscriptionObj? then {}
      else (OnlyAsked(before) + if r.Subscribe? && r.toRequestData then keys' - keys else {}) * keys'
  }

  /** What the current subscription object watched before it was set, and was not told to stop
      watching since. */
  function Spare(run: seq<Request>): set<Item> {
    if run == [] then {}
    else
      var before, r := run[..|run| - 1], run[|run| - 1];
      if r.SetSubscriptionObj? then r.subscribed
      else Spare(before) - (Run(before).clients.Keys - Run(run).clients.Keys)
  }

  lemma WatchedStep(o: Observer, r: Request, asked: set<Item>, spare: set<Item>)
    requires o.link.Set? ==> o.link.watched == (o.clients.Keys - asked) + spare
    requires asked <= o.clients.Keys
    ensures var o' := Step(o, r);
      var keys, keys' := o.clients.Keys, o'.clients.Keys;
      var asked' := if r.SetSubscriptionObj? then {}
                    else (asked + if r.Subscribe? && r.toRequestData then keys' - keys else {}) * keys';
      var spare' := if r.SetSubscriptionObj? then r.subscribed else spare - (keys - keys');
      asked' <= keys' && (o'.link.Set? ==> o'.link.watched == (keys' - asked') + spare')
  {
    hide AddedAll, TrimmedAll;
  }

  lemma {:induction false} WatchedIsKeys(run: seq<Request>)
    ensures var o := Run(run); o.link.Set? ==> o.link.watched == (o.clients.Keys - OnlyAsked(run)) + Spare(run)
    ensures OnlyAsked(run) <= Run(run).clients.Keys
  {
    if run != [] {
      var before := run[..|run| - 1];
      hide Step;
      WatchedIsKeys(before);
      WatchedStep(Run(before), run[|run| - 1], OnlyAsked(before), Spare(before));
    }
  }

  /** Over every run the framework watches exactly the items under which some client is listed and
      that were not opened by a request for data, and what is left of what the subscription object
      watched before. */
  lemma WatchedIsListed(run: seq<Request>, i: Item)
    requires Run(run).link.Set?
    ensures i in Run(run).link.watched <==>
      i in Spare(run) || (i !in OnlyAsked(run) && exists c :: i in Listed(run, c))
  {
    WatchedIsKeys(run);
    HasClientIff(run, i);
    hide OnlyAsked, Spare, Run, Listed;
  }

  /** Exactly when every item with a client is watched: nothing was opened by a request for data that
      the object did not watch already. */
  lemma AllWatchedIff(run: seq<Request>)
    requires Run(run).link.Set?
    ensures Run(run).clients.Keys <= Run(run).link.watched <==> OnlyAsked(run) <= Spare(run)
  {
    WatchedIsKeys(run);
    hide OnlyAsked, Spare, Run;
  }

  /** The client never replaces items it has. */
  predicate NeverReplaces(run: seq<Request>, c: Client) {
    run != [] ==>
      var before, r := run[..|run| - 1], run[|run| - 1];
      && NeverReplaces(before, c)
      && (r.UpdateSubscription? && r.l != {} && r.client == c != NoClient ==> Wants(before, c) == {})
  }

  /** Such a client is listed exactly under what it wants, whatever other clients do. */
  lemma {:induction false} ListedIsWanted(run: seq<Request>, c: Client)
    requires NeverReplaces(run, c)
    ensures Listed(run, c) == Wants(run, c)
  {
    if run != [] {
      ListedIsWanted(run[..|run| - 1], c);
    }
  }

  /** If no client does, and each new subscription object starts from nothing, the maps stay
      transposes of each other. */
  predicate Plain(run: seq<Request>) {
    run != [] ==>
      var before, r := run[..|run| - 1], run[|run| - 1];
      && Plain(before)
      && (r.UpdateSubscription? && r.l != {} && r.client != NoClient ==> Wants(before, r.client) == {})
      && (r.SetSubscriptionObj? ==> r.told == {} == r.subscribed)
  }

  lemma {:induction false} PlainNeverReplaces(run: seq<Request>, c: Client)
    requires Plain(run)
    ensures NeverReplaces(run, c) && Leftover(run) == {} == Spare(run)
  {
    if run != [] {
      PlainNeverReplaces(run[..|run| - 1], c);
    }
  }

  lemma RunIsRight(run: seq<Request>)
    requires Plain(run)
    ensures Tight(Run(run)) && Transposed(Run(run)) && AnnouncesKeys(Run(run))
    ensures Run(run).link.Set? ==> Run(run).link.watched == Run(run).clients.Keys - OnlyAsked(run)
  {
    RunTight(run);
    AnnouncedIsKeys(run);
    WatchedIsKeys(run);
    PlainNeverReplaces(run, NoClient);
    forall c: Client, i: Item
      ensures i in Vals(Run(run).items, c) <==> c in Vals(Run(run).clients, i)
    {
      ItemsFollowRequests(run, c);
      ClientsFollowRequests(run, c, i);
      PlainNeverReplaces(run, c);
      ListedIsWanted(run, c);
    }
  }

  lemma HasClientIffWanted(run: seq<Request>, i: Item)
    requires Plain(run)
    ensures i in Run(run).clients <==> exists c :: i in Wants(run, c)
  {
    HasClientIff(run, i);
    if i in Run(run).clients {
      var c :| i in Listed(run, c);
      PlainNeverReplaces(run, c);
      ListedIsWanted(run, c);
      assert i in Wants(run, c);
    }
    if c :| i in Wants(run, c) {
      PlainNeverReplaces(run, c);
      ListedIsWanted(run, c);
      assert i in Listed(run, c);
      assert i in Run(run).clients;
    }
  }

  /** Over every such run the framework has heard of exactly what some client wants, and watches
      exactly that without what a request for data opened. */
  lemma AnnouncedIsWanted(run: seq<Request>, i: Item)
    requires Plain(run) && Run(run).link.Set?
    ensures i in Run(run).link.announced <==> exists c :: i in Wants(run, c)
    ensures i in Run(run).link.watched <==> i !in OnlyAsked(run) && exists c :: i in Wants(run, c)
  {
    RunIsRight(run);
    HasClientIffWanted(run, i);
    hide Run, OnlyAsked, Wants;
  }

  // ------------------------------------------------------------------------------------------
  // Deliveries

  function Cached(cache: map<Item, int>, ids: set<Item>): map<Item, int> {
    map i | i in ids && i in cache :: cache[i]
  }

  function Send(cache: map<Item, int>, ids: set<Item>, c: Client): Deliveries {
    if Cached(cache, ids) == map[] then map[] else map[c := Cached(cache, ids)]
  }

  /** The clients that are looked up for a notification. */
  function Audience(clients: map<Item, set<Client>>, ids: set<Item>): set<Client> {
    set i, c | i in ids && i in clients && c in clients[i] :: c
  }

  function Share(o: Observer, ids: set<Item>, c: Client): map<Item, int> {
    Cached(o.cache, Vals(o.items, c) * ids)
  }

  function Shares(o: Observer, clients: set<Client>, ids: set<Item>): Deliveries {
    map c | c in clients && Share(o, ids, c) != map[] :: Share(o, ids, c)
  }

  lemma NoShares(o: Observer, ids: set<Item>)
    ensures Shares(o, {}, ids) == map[]
  {
  }

  lemma OneMoreShare(o: Observer, clients: set<Client>, c: Client, ids: set<Item>)
    requires c !in clients
    ensures Shares(o, clients + {c}, ids) == Shares(o, clients, ids) + Send(o.cache, Vals(o.items, c) * ids, c)
  {
  }

  function NotifyAll(o: Observer, ids: set<Item>): Deliveries {
    Shares(o, Audience(o.clients, ids), ids)
  }

  /** What the clients are told while the request is handled. */
  function Told(o: Observer, r: Request): Deliveries {
    match r
    case Subscribe(l, c, _) => if l == {} || c == NoClient then map[] else Send(o.cache, l, c)
    case UpdateSubscription(l, c) => if l == {} || c == NoClient then map[] else Send(o.cache, l - Vals(o.items, c), c)
    case Notify(reported) => NotifyAll(Step(o, r), RecordedIds(reported))
    case _ => map[]
  }

  lemma {:induction false} RecordedAreCached(cache: map<Item, int>, reported: seq<DataItem>)
    ensures RecordedIds(reported) <= CacheAfter(cache, reported).Keys
  {
    if reported != [] {
      var last := reported[|reported| - 1];
      RecordedAreCached(cache, reported[..|reported| - 1]);
      forall d | d in reported && d.recorded
        ensures d.id in CacheAfter(cache, reported)
      {
        assert d == last || d in reported[..|reported| - 1];
      }
    }
  }

  predicate Renews(d: DataItem, id: Item) {
    d.recorded && d.id == id
  }

  lemma {:induction false} CacheKeepsOthers(cache: map<Item, int>, reported: seq<DataItem>, id: Item)
    requires forall d :: d in reported ==> !Renews(d, id)
    ensures id in CacheAfter(cache, reported) <==> id in cache
    ensures id in cache ==> CacheAfter(cache, reported)[id] == cache[id]
  {
    if reported != [] {
      CacheKeepsOthers(cache, reported[..|reported| - 1], id);
      assert !Renews(reported[|reported| - 1], id);
    }
  }

  lemma {:induction false} CacheInTwo(cache: map<Item, int>, earlier: seq<DataItem>, later: seq<DataItem>)
    ensures CacheAfter(cache, earlier + later) == CacheAfter(CacheAfter(cache, earlier), later)
  {
    if later == [] {
      assert earlier + later == earlier;
    } else {
      assert (earlier + later)[..|earlier + later| - 1] == earlier + later[..|later| - 1];
      CacheInTwo(cache, earlier, later[..|later| - 1]);
    }
  }

  /** The cache has the value of the item that was recorded last under its id. */
  lemma CacheHoldsNewest(cache: map<Item, int>, earlier: seq<DataItem>, d: DataItem, later: seq<DataItem>)
    requires d.recorded && forall e :: e in later ==> !Renews(e, d.id)
    ensures d.id in CacheAfter(cache, earlier + [d] + later)
    ensures CacheAfter(cache, earlier + [d] + later)[d.id] == d.value
  {
    CacheInTwo(cache, earlier + [d], later);
    assert (earlier + [d])[..|earlier|] == earlier;
    CacheKeepsOthers(CacheAfter(cache, earlier + [d]), later, d.id);
  }

  /** Everything that was reported in a run. */
  function AllReported(run: seq<Request>): seq<DataItem> {
    if run == [] then []
    else AllReported(run[..|run| - 1]) + if run[|run| - 1].Notify? then run[|run| - 1].reported else []
  }

  lemma {:induction false} CachedAreRecorded(reported: seq<DataItem>)
    ensures CacheAfter(map[], reported).Keys == RecordedIds(reported)
  {
    RecordedAreCached(map[], reported);
    if reported != [] {
      var front, last := reported[..|reported| - 1], reported[|reported| - 1];
      CachedAreRecorded(front);
      assert last in reported && forall d :: d in front ==> d in reported;
    }
  }

  /** The cache is made by the reports alone. */
  lemma {:induction false} CacheFollowsReports(run: seq<Request>)
    ensures Run(run).cache == CacheAfter(map[], AllReported(run))
  {
    hide CacheAfter, AddedAll, TrimmedAll;
    if run == [] {
      NothingCached();
    } else {
      var before, r := run[..|run| - 1], run[|run| - 1];
      CacheFollowsReports(before);
      if r.Notify? {
        CacheInTwo(map[], AllReported(before), r.reported);
      } else {
        assert AllReported(run) == AllReported(before);
      }
    }
  }

  lemma NothingCached()
    ensures CacheAfter(map[], []) == map[]
  {
  }

  /** The items that a request is new for: all that a client subscribes to, and of those that it
      replaces its items by, the ones it does not want so far. */
  function NewFor(run: seq<Request>, r: Request): set<Item>
    requires r.Subscribe? || r.UpdateSubscription?
  {
    match r
    case Subscribe(l, _, _) => l
    case UpdateSubscription(l, c) => l - Wants(run, c)
  }

  /** Over every run, the first response to a subscription or an update goes to its client alone,
      and carries exactly the newest values of the items it is new for that were ever recorded;
      there is none if none of them was, and none without a client. */
  lemma FirstResponse(run: seq<Request>, r: Request)
    requires r.Subscribe? || r.UpdateSubscription?
    ensures var told, known := Told(Run(run), r), NewFor(run, r) * RecordedIds(AllReported(run));
      var newest := CacheAfter(map[], AllReported(run));
      && told.Keys == (if r.client == NoClient || known == {} then {} else {r.client})
      && (r.client in told ==>
            && told[r.client].Keys == known
            && forall i :: i in known ==> i in newest && told[r.client][i] == newest[i])
  {
    CacheFollowsReports(run);
    CachedAreRecorded(AllReported(run));
    ItemsFollowRequests(run, r.client);
    hide Run, Wants, Vals, CacheAfter, RecordedIds, AllReported;
    assert Cached(Run(run).cache, NewFor(run, r)).Keys == NewFor(run, r) * Run(run).cache.Keys;
    assert r.l == {} ==> NewFor(run, r) == {};
  }

  /** Over every run a notification reaches exactly the clients that want one of the new items and
      are listed under one of them, maybe another, and gives each of them the newest values of all
      the new items it wants, and nothing else. */
  lemma NotifyReaches(run: seq<Request>, reported: seq<DataItem>, c: Client)
    ensures var told := Told(Run(run), Notify(reported));
      var ids := RecordedIds(reported);
      && (c in told <==> ids * Wants(run, c) != {} && ids * Listed(run, c) != {})
      && (c in told ==>
            && told[c].Keys == ids * Wants(run, c)
            && forall i :: i in told[c] ==> told[c][i] == CacheAfter(Run(run).cache, reported)[i])
  {
    var o, ids := Step(Run(run), Notify(reported)), RecordedIds(reported);
    ItemsFollowRequests(run, c);
    RecordedAreCached(Run(run).cache, reported);
    Heard(o, ids, Wants(run, c), c);
    forall i: Item
      ensures c in Vals(o.clients, i) <==> i in Listed(run, c)
    {
      ClientsFollowRequests(run, c, i);
    }
    hide RecordedIds, CacheAfter, Wants, Run, Listed, Audience;
    assert Share(o, ids, c).Keys == ids * Vals(o.items, c);
    if i :| i in ids && c in Vals(o.clients, i) {
      assert i in ids * Listed(run, c);
    }
  }

  /** The client is told whenever an item it wants is new. */
  ghost predicate Reached(run: seq<Request>, reported: seq<DataItem>, c: Client) {
    c in Told(Run(run), Notify(reported)) <==> RecordedIds(reported) * Wants(run, c) != {}
  }

  /** Exactly when notifications never miss a client: when it is listed under all it wants. */
  lemma AlwaysReachedIff(run: seq<Request>, c: Client)
    ensures (forall reported: seq<DataItem> :: Reached(run, reported, c)) <==> Wants(run, c) <= Listed(run, c)
  {
    forall reported: seq<DataItem>
      ensures Wants(run, c) <= Listed(run, c) ==> Reached(run, reported, c)
    {
      NotifyReaches(run, reported, c);
    }
    if i :| i in Wants(run, c) && i !in Listed(run, c) {
      var alone := [DataItem(i, 0, true)];
      NotifyReaches(run, alone, c);
      assert alone[0] in alone && RecordedIds(alone) == {i};
      assert !Reached(run, alone, c);
    }
  }

  /** A client that never replaces items it has hears of everything it wants. */
  lemma NotifyReachesSubscribers(run: seq<Request>, reported: seq<DataItem>, c: Client)
    requires NeverReplaces(run, c)
    ensures Reached(run, reported, c)
  {
    ListedIsWanted(run, c);
    NotifyReaches(run, reported, c);
  }

  /** Even where the maps have parted, no client hears of an item it did not ask for. */
  lemma NotifyNeverOvertells(run: seq<Request>, reported: seq<DataItem>, c: Client)
    ensures var told := Told(Run(run), Notify(reported)); c in told ==> told[c].Keys <= Wants(run, c)
  {
    ItemsFollowRequests(run, c);
  }

  lemma Heard(o: Observer, ids: set<Item>, l: set<Item>, c: Client)
    requires Vals(o.items, c) == l && ids <= o.cache.Keys
    ensures c in NotifyAll(o, ids) <==> ids * l != {} && exists i :: i in ids && c in Vals(o.clients, i)
  {
    assert Share(o, ids, c).Keys == ids * l;
    assert Share(o, ids, c) != map[] <==> ids * l != {};
    assert c in Audience(o.clients, ids) <==> exists i :: i in ids && c in Vals(o.clients, i);
  }

  /** Leaving altogether does not undo it: the items that the update dropped keep the client, and
      the framework goes on watching them. */
  lemma DroppedItemsStayWatched(o: Observer, l: set<Item>, c: Client, i: Item)
    requires Tight(o) && Transposed(o) && AnnouncesKeys(o) && o.link.Set? && l != {} && c != NoClient
    requires i in Vals(o.items, c) && i !in l
    ensures var o' := Step(Step(o, UpdateSubscription(l, c)), UnsubscribeAll(c));
      && c in Vals(o'.clients, i) && Vals(o'.items, c) == {} && i in o'.link.announced
      && (i in o.link.watched ==> i in o'.link.watched)
  {
  }

  // ------------------------------------------------------------------------------------------
  // The objects

  /** The framework side: what it was told of, and what it is to watch. */
  class DataItemSubscription {
    var announced: set<Item>
    var watched: set<Item>

    constructor ()
      ensures announced == {} == watched
    {
      announced, watched := {}, {};
    }

    method Subscribe(l: set<Item>)
      modifies this
      ensures announced == old(announced) + l && watched == old(watched) + l
    {
      announced, watched := announced + l, watched + l;
    }

    method RequestData(l: set<Item>)
      modifies this`announced
      ensures announced == old(announced) + l
    {
      announced := announced + l;
    }

    method Unsubscribe(l: set<Item>)
      modifies this
      ensures announced == old(announced) - l && watched == old(watched) - l
    {
      announced, watched := announced - l, watched - l;
    }
  }

  class SystemStatusOsObserver {
    const clientToDataItems: LocUnorderedSetMap<Client, Item>
    const dataItemToClients: LocUnorderedSetMap<Item, Client>
    var dataItemCache: map<Item, int>
    var subscriptionObj: DataItemSubscription?

    constructor ()
      ensures View() == Start
      ensures Separate() && fresh(clientToDataItems) && fresh(dataItemToClients)
    {
      clientToDataItems := new LocUnorderedSetMap();
      dataItemToClients := new LocUnorderedSetMap();
      dataItemCache := map[];
      subscriptionObj := null;
    }

    predicate Separate() {
      clientToDataItems != dataItemToClients
    }

    ghost function View(): Observer
      reads this, clientToDataItems, dataItemToClients, subscriptionObj
    {
      Observer(clientToDataItems.entries, dataItemToClients.entries, dataItemCache,
               if subscriptionObj == null then Unset else Set(subscriptionObj.announced, subscriptionObj.watched))
    }

    method SetSubscriptionObj(obj: DataItemSubscription?)
      modifies this`subscriptionObj, obj
      ensures View() == if obj == null then old(View())
        else Step(old(View()), Request.SetSubscriptionObj(old(obj.announced), old(obj.watched)))
    {
      if obj != null {
        subscriptionObj := obj;
        var none := dataItemToClients.Empty();
        if !none {
          var dis := dataItemToClients.GetKeys();
          subscriptionObj.Subscribe(dis);
          subscriptionObj.RequestData(dis);
        }
        assert obj.announced == old(obj.announced) + dataItemToClients.entries.Keys;
        assert obj.watched == old(obj.watched) + dataItemToClients.entries.Keys;
      }
    }

    /** sendCachedDataItems */
    method SendCachedDataItems(s: set<Item>, to: Client) returns (sent: Deliveries)
      ensures sent == Send(dataItemCache, s, to)
    {
      var content: map<Item, int> := map[];
      var rest := s;
      while rest != {}
        invariant rest <= s
        invariant content == Cached(dataItemCache, s - rest)
      {
        var each :| each in rest;
        rest := rest - {each};
        if each in dataItemCache {
          content := content[each := dataItemCache[each]];
        }
      }
      assert s - rest == s;
      sent := if content == map[] then map[] else map[to := content];
    }

    method Subscribe(l: set<Item>, client: Client, toRequestData: bool) returns (told: Deliveries)
      requires Separate()
      modifies clientToDataItems, dataItemToClients, subscriptionObj
      ensures View() == Step(old(View()), Request.Subscribe(l, client, toRequestData))
      ensures told == Told(old(View()), Request.Subscribe(l, client, toRequestData))
    {
      hide AddedAll;
      told := map[];
      if l != {} && client != NoClient {
        var dataItemsToSubscribe := dataItemToClients.AddAll(l, {client});
        var _ := clientToDataItems.Add(client, l);
        told := SendCachedDataItems(l, client);
        if subscriptionObj != null {
          if toRequestData {
            subscriptionObj.RequestData(dataItemsToSubscribe);
          } else if dataItemsToSubscribe != {} {
            subscriptionObj.Subscribe(dataItemsToSubscribe);
          }
        }
        Announced(old(View()), dataItemToClients.entries.Keys, dataItemsToSubscribe, {}, toRequestData);
      }
    }

    method SendChanges(toSubscribe: set<Item>, toUnsubscribe: set<Item>)
      modifies subscriptionObj
      ensures subscriptionObj != null ==>
        && subscriptionObj.announced == (old(subscriptionObj.announced) + toSubscribe) - toUnsubscribe
        && subscriptionObj.watched == (old(subscriptionObj.watched) + toSubscribe) - toUnsubscribe
    {
      if subscriptionObj != null {
        if toSubscribe != {} {
          subscriptionObj.Subscribe(toSubscribe);
        }
        if toUnsubscribe != {} {
          subscriptionObj.Unsubscribe(toUnsubscribe);
        }
      }
    }

    method UpdateSubscription(l: set<Item>, client: Client) returns (told: Deliveries)
      requires Separate()
      modifies clientToDataItems, dataItemToClients, subscriptionObj
      ensures View() == Step(old(View()), Request.UpdateSubscription(l, client))
      ensures told == Told(old(View()), Request.UpdateSubscription(l, client))
    {
      hide AddedAll, TrimmedAll, Replaced, Send, Cached;
      told := map[];
      if l != {} && client != NoClient {
        var kept, dataItemSet := clientToDataItems.Update(client, l);
        var dataItemsToUnsubscribe, _ := dataItemToClients.TrimOrRemove(kept, {client});
        ghost var trimmed := Watch(old(View()), dataItemToClients.entries, false);
        assert dataItemsToUnsubscribe <= kept;
        var dataItemsToSubscribe := dataItemToClients.AddAll(dataItemSet, {client});
        assert dataItemsToSubscribe <= dataItemSet;
        told := SendCachedDataItems(dataItemSet, client);
        SendChanges(dataItemsToSubscribe, dataItemsToUnsubscribe);
        AnnouncedTwice(old(View()), trimmed, dataItemToClients.entries, dataItemsToSubscribe, dataItemsToUnsubscribe);
      }
    }

    method Unsubscribe(l: set<Item>, client: Client)
      requires Separate()
      modifies clientToDataItems, dataItemToClients, subscriptionObj
      ensures View() == Step(old(View()), Request.Unsubscribe(l, client))
    {
      hide TrimmedAll;
      if l != {} && client != NoClient {
        var _, dataItemsUnusedByClient := clientToDataItems.TrimOrRemove({client}, l);
        assert dataItemsUnusedByClient == Vals(old(clientToDataItems.entries), client) * l;
        var dataItemsToUnsubscribe, _ := dataItemToClients.TrimOrRemove(dataItemsUnusedByClient, {client});
        if subscriptionObj != null && dataItemsToUnsubscribe != {} {
          subscriptionObj.Unsubscribe(dataItemsToUnsubscribe);
        }
        Announced(old(View()), dataItemToClients.entries.Keys, {}, dataItemsToUnsubscribe, false);
      }
    }

    method UnsubscribeAll(client: Client)
      requires Separate()
      modifies clientToDataItems, dataItemToClients, subscriptionObj
      ensures View() == Step(old(View()), Request.UnsubscribeAll(client))
    {
      hide TrimmedAll, Replaced;
      if client != NoClient {
        var diByClient := clientToDataItems.GetValSet(client);
        if diByClient != {} {
          var _ := clientToDataItems.Remove(client);
          var dataItemsToUnsubscribe, _ := dataItemToClients.TrimOrRemove(diByClient, {client});
          if dataItemsToUnsubscribe != {} && subscriptionObj != null {
            subscriptionObj.Unsubscribe(dataItemsToUnsubscribe);
          }
          Announced(old(View()), dataItemToClients.entries.Keys, {}, dataItemsToUnsubscribe, false);
        }
      }
    }

    method UpdateCache(d: DataItem) returns (updated: bool)
      modifies this`dataItemCache
      ensures updated == d.recorded
      ensures dataItemCache == if d.recorded then old(dataItemCache)[d.id := d.value] else old(dataItemCache)
    {
      updated := false;
      if d.recorded {
        updated := true;
        dataItemCache := dataItemCache[d.id := d.value];
      }
    }

    method CollectAudience(ids: set<Item>) returns (clientSet: set<Client>)
      ensures clientSet == Audience(dataItemToClients.entries, ids)
    {
      clientSet := {};
      var rest := ids;
      while rest != {}
        invariant rest <= ids
        invariant clientSet == Audience(dataItemToClients.entries, ids - rest)
      {
        var each :| each in rest;
        rest := rest - {each};
        var clients := dataItemToClients.GetValSet(each);
        clientSet := clientSet + clients;
      }
      assert ids - rest == ids;
    }

    /** HandleNotify */
    method Notify(reported: seq<DataItem>) returns (told: Deliveries)
      modifies this`dataItemCache
      ensures View() == Step(old(View()), Request.Notify(reported))
      ensures told == Told(old(View()), Request.Notify(reported))
    {
      var ids := {};
      for i := 0 to |reported|
        invariant ids == RecordedIds(reported[..i])
        invariant dataItemCache == CacheAfter(old(dataItemCache), reported[..i])
        invariant View() == old(View()).(cache := dataItemCache)
      {
        assert reported[..i + 1][..i] == reported[..i];
        assert reported[..i + 1] == reported[..i] + [reported[i]];
        var updated := UpdateCache(reported[i]);
        if updated {
          ids := ids + {reported[i].id};
        }
      }
      assert reported[..|reported|] == reported;
      var clientSet := CollectAudience(ids);
      told := SendShares(clientSet, ids);
    }

    /** The walk that erases from a client's items those that are not new. */
    method Restrict(own: set<Item>, ids: set<Item>) returns (kept: set<Item>)
      ensures kept == own * ids
    {
      var left := own;
      kept := own;
      while left != {}
        invariant left <= own
        invariant kept == left + (own - left) * ids
      {
        var item :| item in left;
        left := left - {item};
        if item !in ids {
          kept := kept - {item};
        }
      }
    }

    method SendShares(clientSet: set<Client>, ids: set<Item>) returns (told: Deliveries)
      ensures told == Shares(View(), clientSet, ids)
    {
      hide Shares, Send, Cached;
      told := map[];
      var rest := clientSet;
      ghost var done: set<Client> := {};
      NoShares(View(), ids);
      while rest != {}
        invariant rest <= clientSet && done == clientSet - rest
        invariant told == Shares(View(), done, ids)
      {
        var client :| client in rest;
        var own := clientToDataItems.GetValSet(client);
        var forThisClient := Restrict(own, ids);
        var sent := SendCachedDataItems(forThisClient, client);
        told := told + sent;
        OneMoreShare(View(), done, client, ids);
        rest, done := rest - {client}, done + {client};
      }
      assert done == clientSet;
    }
  }
}

/** The reference counts behind turnOn and turnOff of SystemStatusOsObserver.cpp. */
module ActionRequests {
  type Item = nat

  datatype Action = TurnOn(item: Item) | TurnOff(item: Item)

  function Count(counts: map<Item, nat>, item: Item): nat {
    if item in counts then counts[item] else 0
  }

  /** Requests minus releases, where a release of what nobody holds does not count. */
  function Held(calls: seq<Action>, item: Item): nat {
    if calls == [] then 0
    else
      var before := Held(calls[..|calls| - 1], item);
      match calls[|calls| - 1]
      case TurnOn(i) => if i == item then before + 1 else before
      case TurnOff(i) => if i == item && before > 0 then before - 1 else before
  }

  /** What the framework does with an item it was told these things about. */
  predicate IsOn(sent: seq<Action>, item: Item) {
    sent != [] &&
      var last := sent[|sent| - 1];
      last == TurnOn(item) || (last != TurnOff(item) && IsOn(sent[..|sent| - 1], item))
  }

  /** No item is turned on while on, or off while off. */
  predicate Alternates(sent: seq<Action>) {
    sent != [] ==>
      var before, last := sent[..|sent| - 1], sent[|sent| - 1];
      Alternates(before) && (last.TurnOn? <==> !IsOn(before, last.item))
  }

  /** The state a run of calls leads to: counts above zero, and the actions sent on. */
  ghost predicate Agrees(counts: map<Item, nat>, sent: seq<Action>, calls: seq<Action>) {
    && (forall i: Item :: Count(counts, i) == Held(calls, i))
    && (forall i: Item :: IsOn(sent, i) <==> Held(calls, i) > 0)
    && (forall i: Item :: i in counts ==> counts[i] > 0)
    && Alternates(sent)
  }

  class ActiveRequests {
    var activeRequestCount: map<Item, nat>
    var sent: seq<Action>
    ghost var calls: seq<Action>

    constructor ()
      ensures Valid() && calls == []
    {
      activeRequestCount, sent, calls := map[], [], [];
    }

    ghost predicate Valid()
      reads this
    {
      Agrees(activeRequestCount, sent, calls)
    }

    method TurnOn(dit: Item)
      requires Valid()
      modifies this
      ensures Valid() && calls == old(calls) + [Action.TurnOn(dit)]
    {
      assert (calls + [Action.TurnOn(dit)])[..|calls|] == calls;
      assert (sent + [Action.TurnOn(dit)])[..|sent|] == sent;
      calls := calls + [Action.TurnOn(dit)];
      if dit !in activeRequestCount {
        activeRequestCount := activeRequestCount[dit := 1];
        sent := sent + [Action.TurnOn(dit)];
      } else {
        activeRequestCount := activeRequestCount[dit := activeRequestCount[dit] + 1];
      }
    }

    method TurnOff(dit: Item)
      requires Valid()
      modifies this
      ensures Valid() && calls == old(calls) + [Action.TurnOff(dit)]
    {
      assert (calls + [Action.TurnOff(dit)])[..|calls|] == calls;
      assert (sent + [Action.TurnOff(dit)])[..|sent|] == sent;
      calls := calls + [Action.TurnOff(dit)];
      if dit in activeRequestCount {
        activeRequestCount := activeRequestCount[dit := activeRequestCount[dit] - 1];
        if activeRequestCount[dit] == 0 {
          activeRequestCount := activeRequestCount - {dit};
          sent := sent + [Action.TurnOff(dit)];
        }
      }
    }
  }
}
