/** Moving keys to the replicas of a new membership: copy first, delete only what
    every current replica acknowledged. */
module Migration {
  import opened Basics

  type Key = string
  datatype KeyValue = KeyValue(key: Key, value: string)

  // ----- routing

  /** First position of `c` in `s` from `i` on, or |s|. */
  function IndexOf(s: string, c: char, i: nat): (k: nat)
    requires i <= |s|
    ensures i <= k <= |s|
    decreases |s| - i
  {
    if i == |s| || s[i] == c then i else IndexOf(s, c, i + 1)
  }

  /** What follows the first `n` path components of `s`, if it has that many. */
  function AfterComponents(s: string, n: nat): (r: string)
    ensures |r| <= |s|
  {
    if n == 0 then s
    else
      var i := IndexOf(s, '/', 0);
      if i == |s| then "" else AfterComponents(s[i + 1..], n - 1)
  }

  /** The string a key is placed by: vectors, texts and index entries go where their
      record goes. */
  function RoutingKey(key: Key): Key {
    if |key| < 5 || key[0] != '@' then key
    else
      var skip := if key[..5] == "@vec/" || key[..5] == "@txt/" then 1 else if key[..5] == "@idx/" then 2 else 0;
      if skip == 0 then key
      else
        var rest := AfterComponents(key[5..], skip);
        if rest == "" then key else rest
  }

  lemma {:induction false} IndexOfSlash(ns: string, rest: string, i: nat)
    requires i <= |ns| && '/' !in ns
    ensures IndexOf(ns + "/" + rest, '/', i) == |ns|
    decreases |ns| - i
  {
    if i < |ns| {
      assert (ns + "/" + rest)[i] == ns[i];
      IndexOfSlash(ns, rest, i + 1);
    }
  }

  lemma {:induction false} SkipComponent(ns: string, rest: string, n: nat)
    requires '/' !in ns && n > 0
    ensures AfterComponents(ns + "/" + rest, n) == AfterComponents(rest, n - 1)
  {
    IndexOfSlash(ns, rest, 0);
    assert (ns + "/" + rest)[|ns| + 1..] == rest;
  }

  lemma VectorRoutes(prefix: string, ns: string, id: Key)
    requires '/' !in ns && id != "" && (prefix == "@vec/" || prefix == "@txt/")
    ensures RoutingKey(prefix + (ns + "/" + id)) == id
  {
    var key := prefix + (ns + "/" + id);
    assert key[..5] == prefix && key[5..] == ns + "/" + id;
    SkipComponent(ns, id, 1);
  }

  lemma IndexRoutes(ns: string, rest: string, value: string, id: Key)
    requires '/' !in ns && '/' !in value && id != "" && rest == value + "/" + id
    ensures RoutingKey("@idx/" + (ns + "/" + rest)) == id
  {
    var idx := "@idx/" + (ns + "/" + rest);
    assert idx[..5] == "@idx/" && idx[5..] == ns + "/" + rest;
    SkipComponent(ns, rest, 2);
    SkipComponent(value, id, 1);
  }

  /** A record, its vectors, its texts and its index entries are placed together. */
  lemma DerivedRoutes(prefix: string, ns: string, value: string, id: Key)
    requires '/' !in ns && '/' !in value && id != ""
    ensures prefix == "@vec/" || prefix == "@txt/" ==> RoutingKey(prefix + (ns + "/" + id)) == id
    ensures RoutingKey("@idx/" + (ns + "/" + (value + "/" + id))) == id
  {
    if prefix == "@vec/" || prefix == "@txt/" { VectorRoutes(prefix, ns, id); }
    IndexRoutes(ns, value + "/" + id, value, id);
  }

  /** Any other key is placed by itself: one of no derived family, or with no record in it. */
  lemma PlainRoutes(key: Key)
    requires "@vec/" <= key || "@txt/" <= key || "@idx/" <= key ==> '/' !in key[5..]
    ensures RoutingKey(key) == key
  {
    if "@vec/" <= key || "@txt/" <= key || "@idx/" <= key {
      NoSlash(key[5..], 0);
    } else if |key| >= 5 {
      assert key[..5] == "@vec/" ==> "@vec/" <= key;
      assert key[..5] == "@txt/" ==> "@txt/" <= key;
      assert key[..5] == "@idx/" ==> "@idx/" <= key;
    }
  }

  lemma {:induction false} NoSlash(s: string, i: nat)
    requires i <= |s| && '/' !in s
    ensures IndexOf(s, '/', i) == |s|
    decreases |s| - i
  {
    if i < |s| { NoSlash(s, i + 1); }
  }

  /** Also one of a derived family whose record is missing. */
  lemma EmptyRoutes(prefix: string, ns: string, value: string)
    requires '/' !in ns && '/' !in value
    ensures prefix == "@vec/" || prefix == "@txt/" ==> RoutingKey(prefix + (ns + "/" + "")) == prefix + (ns + "/" + "")
    ensures RoutingKey("@idx/" + (ns + "/" + value)) == "@idx/" + (ns + "/" + value)
  {
    if prefix == "@vec/" || prefix == "@txt/" {
      var key := prefix + (ns + "/" + "");
      assert key[..5] == prefix && key[5..] == ns + "/" + "";
      SkipComponent(ns, "", 1);
    }
    var idx := "@idx/" + (ns + "/" + value);
    assert idx[..5] == "@idx/" && idx[5..] == ns + "/" + value;
    SkipComponent(ns, value, 2);
    NoSlash(value, 0);
  }

  /** Routed as another key. */
  predicate Derived(route: Key -> Key, key: Key) { route(key) != key }

  /** Key families every node needs a copy of. */
  predicate Pinned(key: Key) { "@vecns/" <= key || "@idxdef/" <= key }

  /** Two families, whatever follows, and each routed by itself. */
  lemma PinnedFamilies(rest: string)
    ensures Pinned("@vecns/" + rest) && Pinned("@idxdef/" + rest)
    ensures RoutingKey("@vecns/" + rest) == "@vecns/" + rest && RoutingKey("@idxdef/" + rest) == "@idxdef/" + rest
  {
    PinnedRoutesAsItself("@vecns/" + rest);
    PinnedRoutesAsItself("@idxdef/" + rest);
  }

  // ----- the plan

  /** Who holds which routing key: replica lists of one membership. */
  type Placement = Key -> seq<Id>

  /** What one migration works on: the scanned keys, which of them can be read, the
      replicas of the current and of the previous membership, this node, and how keys
      are routed. */
  datatype Task = Task(
    keys: seq<Key>, readable: map<Key, string>, cur: Placement, prev: Placement, self: Id, route: Key -> Key)

  function Owners(t: Task, key: Key): seq<Id> { t.cur(t.route(key)) }

  predicate Stays(t: Task, key: Key) { t.self in Owners(t, key) }

  /** Replicas that newly need a key that stays, or all replicas of one that leaves. */
  predicate Targets(t: Task, key: Key, id: Id) {
    id in Owners(t, key) && (Stays(t, key) ==> id != t.self && id !in t.prev(t.route(key)))
  }

  predicate Leaves(t: Task, key: Key) { !Pinned(key) && Owners(t, key) != [] && !Stays(t, key) }

  predicate Sends(t: Task, key: Key, id: Id) { !Pinned(key) && Targets(t, key, id) && key in t.readable }

  /** What goes to `id` of the first `i` scanned keys, in scan order. */
  function PlanFor(t: Task, id: Id, i: nat): seq<KeyValue>
    requires i <= |t.keys|
  {
    if i == 0 then []
    else if Sends(t, t.keys[i - 1], id) then PlanFor(t, id, i - 1) + [KeyValue(t.keys[i - 1], t.readable[t.keys[i - 1]])]
    else PlanFor(t, id, i - 1)
  }

  /** The entries of the first `i` whose key is derived (or is not), in order. */
  function Only(route: Key -> Key, kvs: seq<KeyValue>, derived: bool, i: nat): seq<KeyValue>
    requires i <= |kvs|
  {
    if i == 0 then []
    else if Derived(route, kvs[i - 1].key) == derived then Only(route, kvs, derived, i - 1) + [kvs[i - 1]]
    else Only(route, kvs, derived, i - 1)
  }

  /** Stable: derived keys first, then records. */
  function DerivedFirst(route: Key -> Key, kvs: seq<KeyValue>): seq<KeyValue> {
    Only(route, kvs, true, |kvs|) + Only(route, kvs, false, |kvs|)
  }

  ghost function KeysOf(kvs: seq<KeyValue>): set<Key> { set kv | kv in kvs :: kv.key }

  lemma {:induction false} PlanHas(t: Task, id: Id, i: nat, k: nat)
    requires k < i <= |t.keys| && Sends(t, t.keys[k], id)
    ensures t.keys[k] in KeysOf(PlanFor(t, id, i))
  {
    if k < i - 1 {
      PlanHas(t, id, i - 1, k);
      var kv :| kv in PlanFor(t, id, i - 1) && kv.key == t.keys[k];
      assert kv in PlanFor(t, id, i);
    } else {
      assert KeyValue(t.keys[k], t.readable[t.keys[k]]) in PlanFor(t, id, i);
    }
  }

  /** `id` newly needs a key: it is a current replica and, if this node is one too, it is
      another that was none before. */
  ghost predicate Needs(id: Id, now: seq<Id>, before: seq<Id>, self: Id) {
    id in now && (self in now ==> id != self && id !in before)
  }

  /** The list for `id` is what can be read of the scanned keys it newly needs, pinned ones
      aside, each with its value. */
  lemma {:induction false} PlanMeans(t: Task, id: Id, i: nat, kv: KeyValue)
    requires i <= |t.keys|
    ensures kv in PlanFor(t, id, i) <==>
      && kv.key in t.keys[..i] && kv.key in t.readable && kv.value == t.readable[kv.key] && !Pinned(kv.key)
      && Needs(id, t.cur(t.route(kv.key)), t.prev(t.route(kv.key)), t.self)
  {
    if i > 0 {
      PlanMeans(t, id, i - 1, kv);
      assert t.keys[..i] == t.keys[..i - 1] + [t.keys[i - 1]];
    }
  }

  lemma {:induction false} PinsMean(t: Task, i: nat, kv: KeyValue)
    requires i <= |t.keys|
    ensures kv in Pins(t, i) <==> kv.key in t.keys[..i] && kv.key in t.readable && kv.value == t.readable[kv.key] && Pinned(kv.key)
  {
    if i > 0 {
      PinsMean(t, i - 1, kv);
      assert t.keys[..i] == t.keys[..i - 1] + [t.keys[i - 1]];
    }
  }

  lemma {:induction false} OnlyHas(route: Key -> Key, kvs: seq<KeyValue>, derived: bool, i: nat, kv: KeyValue)
    requires i <= |kvs|
    ensures kv in Only(route, kvs, derived, i) <==> kv in kvs[..i] && Derived(route, kv.key) == derived
  {
    if i > 0 {
      OnlyHas(route, kvs, derived, i - 1, kv);
      assert kvs[..i] == kvs[..i - 1] + [kvs[i - 1]];
    }
  }

  /** If a prefix of the sending order reaches a record, it holds every derived key. */
  lemma {:induction false} RecordAfterDerived(route: Key -> Key, kvs: seq<KeyValue>, n: nat, rec: Key, d: Key)
    requires n <= |DerivedFirst(route, kvs)| && rec in KeysOf(DerivedFirst(route, kvs)[..n]) && !Derived(route, rec)
    requires Derived(route, d) && d in KeysOf(kvs)
    ensures d in KeysOf(DerivedFirst(route, kvs)[..n])
  {
    var order, first := DerivedFirst(route, kvs), Only(route, kvs, true, |kvs|);
    var r :| r in order[..n] && r.key == rec;
    var i :| 0 <= i < n && order[i] == r;
    assert kvs[..|kvs|] == kvs;
    OnlyHas(route, kvs, true, |kvs|, r);
    assert r !in first && i >= |first|;
    var kv :| kv in kvs && kv.key == d;
    OnlyHas(route, kvs, true, |kvs|, kv);
    var j :| 0 <= j < |first| && first[j] == kv;
    assert order[..n][j] == kv;
  }

  // ----- the agent

  /** The readable pinned keys among the first `i` scanned, in scan order. */
  function Pins(t: Task, i: nat): seq<KeyValue>
    requires i <= |t.keys|
  {
    if i == 0 then []
    else if Pinned(t.keys[i - 1]) && t.keys[i - 1] in t.readable then Pins(t, i - 1) + [KeyValue(t.keys[i - 1], t.readable[t.keys[i - 1]])]
    else Pins(t, i - 1)
  }

  /** What goes to `id`, in sending order: pinned keys, derived keys, records. */
  ghost function Shipment(t: Task, id: Id): seq<KeyValue> {
    Pins(t, |t.keys|) + DerivedFirst(t.route, PlanFor(t, id, |t.keys|))
  }

  /** How many entries of its list `id` acknowledged. */
  ghost function Reached(t: Task, sent: map<Id, nat>, id: Id): nat {
    if id in sent then Min(sent[id], |Shipment(t, id)|) else 0
  }

  /** The keys `id` acknowledged. */
  ghost function Delivered(t: Task, sent: map<Id, nat>, id: Id): set<Key> { KeysOf(Shipment(t, id)[..Reached(t, sent, id)]) }

  /** Those of them that count as moved: the ones behind the pinned keys. */
  ghost function Received(t: Task, sent: map<Id, nat>, id: Id): set<Key> {
    var pins, n := |Pins(t, |t.keys|)|, Reached(t, sent, id);
    if n <= pins then {} else KeysOf(Shipment(t, id)[pins..n])
  }

  /** The moved keys are a prefix in derived-first order. */
  lemma ReceivedIs(t: Task, sent: map<Id, nat>, id: Id)
    ensures var order, n, pins := DerivedFirst(t.route, PlanFor(t, id, |t.keys|)), Reached(t, sent, id), |Pins(t, |t.keys|)|;
      Received(t, sent, id) == KeysOf(order[..if n <= pins then 0 else n - pins])
  {
    var order, n, pins := DerivedFirst(t.route, PlanFor(t, id, |t.keys|)), Reached(t, sent, id), |Pins(t, |t.keys|)|;
    if n > pins { assert Shipment(t, id)[pins..n] == order[..n - pins]; }
  }

  lemma {:induction false} PinsHas(t: Task, i: nat, k: nat)
    requires k < i <= |t.keys| && Pinned(t.keys[k]) && t.keys[k] in t.readable
    ensures t.keys[k] in KeysOf(Pins(t, i))
  {
    if k < i - 1 {
      PinsHas(t, i - 1, k);
      var kv :| kv in Pins(t, i - 1) && kv.key == t.keys[k];
      assert kv in Pins(t, i);
    } else {
      assert KeyValue(t.keys[k], t.readable[t.keys[k]]) in Pins(t, i);
    }
  }

  /** A destination that acknowledged anything but pinned keys has all of those. */
  ghost predicate PinsFirst(t: Task, sent: map<Id, nat>, id: Id) {
    forall pin :: Received(t, sent, id) != {} && pin in t.keys && Pinned(pin) && pin in t.readable ==> pin in Delivered(t, sent, id)
  }

  lemma PinnedFirst(t: Task, sent: map<Id, nat>, id: Id)
    ensures PinsFirst(t, sent, id)
  {
    var pins, all, n := Pins(t, |t.keys|), Shipment(t, id), Reached(t, sent, id);
    forall pin | Received(t, sent, id) != {} && pin in t.keys && Pinned(pin) && pin in t.readable ensures pin in Delivered(t, sent, id) {
      var k :| 0 <= k < |t.keys| && t.keys[k] == pin;
      PinsHas(t, |t.keys|, k);
      var kv :| kv in pins && kv.key == pin;
      var j :| 0 <= j < |pins| && pins[j] == kv;
      assert all[..n][j] == kv;
    }
  }

  /** Every current replica of `key` acknowledged it. */
  ghost predicate AckedByAll(t: Task, sent: map<Id, nat>, key: Key) {
    forall id :: id in Owners(t, key) ==> key in Received(t, sent, id)
  }

  /** A record all of whose replicas acknowledged it, and none of whose derived keys was
      unreadable: they acknowledged its derived keys too. */
  lemma DerivedAcked(t: Task, sent: map<Id, nat>, rec: Key, d: Key)
    requires Leaves(t, rec) && !Derived(t.route, rec) && AckedByAll(t, sent, rec)
    requires d in t.keys && t.route(d) == rec && Derived(t.route, d) && !Pinned(d) && d in t.readable
    ensures AckedByAll(t, sent, d)
  {
    var k :| 0 <= k < |t.keys| && t.keys[k] == d;
    forall id | id in Owners(t, d) ensures d in Received(t, sent, id) {
      PlanHas(t, id, |t.keys|, k);
      var kvs := PlanFor(t, id, |t.keys|);
      var order := DerivedFirst(t.route, kvs);
      ReceivedIs(t, sent, id);
      assert rec in Received(t, sent, id);
      RecordAfterDerived(t.route, kvs, Reached(t, sent, id) - |Pins(t, |t.keys|)|, rec, d);
    }
  }

  /** Pinned keys are records of their own. */
  ghost predicate PinnedStay(t: Task) { forall k :: Pinned(k) ==> !Derived(t.route, k) }

  lemma PinnedRoutesAsItself(key: Key)
    requires Pinned(key)
    ensures RoutingKey(key) == key
  {
    assert key[..5] == "@vecn" || key[..5] == "@idxd";
  }

  /** Every scanned key placed by `r` could be read. */
  ghost predicate AllReadable(t: Task, r: Key) {
    forall k :: k in t.keys && t.route(k) == r ==> k in t.readable
  }

  ghost function LeavingRead(t: Task, i: nat): set<Key>
    requires i <= |t.keys|
  {
    set j | 0 <= j < i && Leaves(t, t.keys[j]) && t.keys[j] in t.readable :: t.keys[j]
  }

  /** Routing keys with a leaving key, of the first `i` scanned, that cannot be read. */
  function Unread(t: Task, i: nat): set<Key>
    requires i <= |t.keys|
  {
    if i == 0 then {}
    else if Leaves(t, t.keys[i - 1]) && t.keys[i - 1] !in t.readable then Unread(t, i - 1) + {t.route(t.keys[i - 1])}
    else Unread(t, i - 1)
  }

  lemma {:induction false} UnreadHas(t: Task, i: nat, j: nat)
    requires j < i <= |t.keys| && Leaves(t, t.keys[j]) && t.keys[j] !in t.readable
    ensures t.route(t.keys[j]) in Unread(t, i)
  {
    if j < i - 1 { UnreadHas(t, i - 1, j); }
  }

  lemma {:induction false} AllReadNotUnread(t: Task, i: nat, r: Key)
    requires i <= |t.keys| && AllReadable(t, r)
    ensures r !in Unread(t, i)
  {
    if i > 0 { AllReadNotUnread(t, i - 1, r); }
  }

  ghost function Deletable(t: Task, sent: map<Id, nat>): set<Key> {
    set k | k in LeavingRead(t, |t.keys|) && AckedByAll(t, sent, k) && !(!Derived(t.route, k) && k in Unread(t, |t.keys|))
  }

  /** Deleting a record also deletes what is derived from it. */
  ghost predicate GoesWith(route: Key -> Key, k: Key, gone: set<Key>) {
    k in gone || (route(k) in gone && !Derived(route, route(k)))
  }

  /** Migration never loses data: a scanned key that goes, itself or with its record,
      has left this node and is on every current replica. */
  lemma GoneIsSafe(t: Task, sent: map<Id, nat>, k: Key)
    requires PinnedStay(t) && k in t.keys && GoesWith(t.route, k, Deletable(t, sent))
    ensures Leaves(t, k) && AckedByAll(t, sent, k)
  {
    if k !in Deletable(t, sent) {
      var rec := t.route(k);
      var j :| 0 <= j < |t.keys| && t.keys[j] == k;
      if k !in t.readable { UnreadHas(t, |t.keys|, j); }
      DerivedAcked(t, sent, rec, k);
    }
  }

  /** Everything acknowledged: the list is delivered as a whole. */
  ghost predicate AllSent(t: Task, sent: map<Id, nat>) {
    forall id :: !Short(t, sent, id)
  }

  /** Destination `id` acknowledged less than its list. */
  ghost predicate Short(t: Task, sent: map<Id, nat>, id: Id) {
    PlanFor(t, id, |t.keys|) != [] && Reached(t, sent, id) < |Shipment(t, id)|
  }

  lemma {:induction false} OnlySize(route: Key -> Key, kvs: seq<KeyValue>, i: nat)
    requires i <= |kvs|
    ensures |Only(route, kvs, true, i)| + |Only(route, kvs, false, i)| == i
  {
    if i > 0 { OnlySize(route, kvs, i - 1); }
  }

  lemma OrderHas(route: Key -> Key, kvs: seq<KeyValue>, kv: KeyValue)
    requires kv in kvs
    ensures kv in DerivedFirst(route, kvs) && |DerivedFirst(route, kvs)| == |kvs|
  {
    assert kvs[..|kvs|] == kvs;
    OnlyHas(route, kvs, Derived(route, kv.key), |kvs|, kv);
    OnlySize(route, kvs, |kvs|);
  }

  lemma ReceivedAll(t: Task, sent: map<Id, nat>, id: Id, k: Key)
    requires !Short(t, sent, id) && k in KeysOf(PlanFor(t, id, |t.keys|))
    ensures k in Received(t, sent, id)
  {
    var kvs := PlanFor(t, id, |t.keys|);
    var kv :| kv in kvs && kv.key == k;
    OrderHas(t.route, kvs, kv);
    ReceivedIs(t, sent, id);
    var order := DerivedFirst(t.route, kvs);
    assert order[..|order|] == order;
  }

  /** A destination that acknowledged all of its list has every key it newly needs. */
  lemma NeededReceived(t: Task, sent: map<Id, nat>, id: Id, k: Key)
    requires !Short(t, sent, id) && k in t.keys && k in t.readable && !Pinned(k)
    requires Needs(id, t.cur(t.route(k)), t.prev(t.route(k)), t.self)
    ensures k in Received(t, sent, id)
  {
    assert t.keys[..|t.keys|] == t.keys;
    PlanMeans(t, id, |t.keys|, KeyValue(k, t.readable[k]));
    ReceivedAll(t, sent, id, k);
  }

  /** No other destination gets a key, and none gets another value. */
  lemma ReceivedNeeded(t: Task, sent: map<Id, nat>, id: Id, k: Key)
    requires k in Received(t, sent, id)
    ensures k in t.keys && k in t.readable && !Pinned(k) && Needs(id, t.cur(t.route(k)), t.prev(t.route(k)), t.self)
  {
    var kvs, pins, n := PlanFor(t, id, |t.keys|), |Pins(t, |t.keys|)|, Reached(t, sent, id);
    ReceivedIs(t, sent, id);
    var order := DerivedFirst(t.route, kvs);
    var kv :| kv in order[..n - pins] && kv.key == k;
    OnlyHas(t.route, kvs, true, |kvs|, kv);
    OnlyHas(t.route, kvs, false, |kvs|, kv);
    assert kvs[..|kvs|] == kvs && t.keys[..|t.keys|] == t.keys;
    PlanMeans(t, id, |t.keys|, kv);
  }

  lemma ShippedTrue(t: Task, id: Id, kv: KeyValue)
    requires kv in Shipment(t, id)
    ensures kv.key in t.readable && kv.value == t.readable[kv.key]
  {
    var kvs := PlanFor(t, id, |t.keys|);
    PinsMean(t, |t.keys|, kv);
    OnlyHas(t.route, kvs, true, |kvs|, kv);
    OnlyHas(t.route, kvs, false, |kvs|, kv);
    assert kvs[..|kvs|] == kvs;
    PlanMeans(t, id, |t.keys|, kv);
  }

  /** A complete migration keeps nothing that left. */
  lemma AllSentDeletes(t: Task, sent: map<Id, nat>, k: Key)
    requires AllSent(t, sent) && k in t.keys && Leaves(t, k) && AllReadable(t, t.route(k))
    ensures k in Deletable(t, sent)
  {
    var j :| 0 <= j < |t.keys| && t.keys[j] == k;
    forall id | id in Owners(t, k) ensures k in Received(t, sent, id) {
      PlanHas(t, id, |t.keys|, j);
      ReceivedAll(t, sent, id, k);
    }
    if !Derived(t.route, k) { AllReadNotUnread(t, |t.keys|, k); }
  }

  // ----- what a migration comes to, said of replica lists and acknowledgements alone

  /** A scanned key that is gone was not pinned, this node is no replica of it any more, and
      every current replica acknowledged it. */
  ghost predicate NothingLost(t: Task, sent: map<Id, nat>, before: map<Key, string>, after: map<Key, string>) {
    forall k :: k in t.keys && k in before && k !in after ==>
      && !Pinned(k) && t.cur(t.route(k)) != [] && t.self !in t.cur(t.route(k))
      && forall id :: id in t.cur(t.route(k)) ==> k in Received(t, sent, id)
  }

  /** No scanned key is still here that belongs on other nodes only, unless a key placed with
      it could not be read. */
  ghost predicate NothingKept(t: Task, after: map<Key, string>) {
    forall k :: k in t.keys && !Pinned(k) && t.cur(t.route(k)) != [] && t.self !in t.cur(t.route(k)) && AllReadable(t, t.route(k)) ==>
      k !in after
  }

  /** Every readable key is on its other current replicas: on all of them if it leaves, on
      those that were no replica before if it stays. */
  ghost predicate NewReplicasHave(t: Task, sent: map<Id, nat>) {
    forall k, id ::
      (&& k in t.keys && k in t.readable && !Pinned(k) && id in t.cur(t.route(k)) && id != t.self
       && (t.self in t.cur(t.route(k)) ==> id !in t.prev(t.route(k)))) ==> k in Received(t, sent, id)
  }

  /** And on no others. */
  ghost predicate OnlyNewReplicasGet(t: Task, sent: map<Id, nat>) {
    forall k, id :: k in Received(t, sent, id) ==>
      && k in t.keys && k in t.readable && !Pinned(k) && id in t.cur(t.route(k)) && id != t.self
      && (t.self in t.cur(t.route(k)) ==> id !in t.prev(t.route(k)))
  }

  ghost predicate TrueValues(t: Task) {
    forall id, kv :: kv in Shipment(t, id) ==> kv.key in t.readable && kv.value == t.readable[kv.key]
  }

  lemma Shipped(t: Task, sent: map<Id, nat>)
    ensures OnlyNewReplicasGet(t, sent) && TrueValues(t) && forall id :: PinsFirst(t, sent, id)
  {
    forall k, id | k in Received(t, sent, id)
      ensures && k in t.keys && k in t.readable && !Pinned(k) && id in t.cur(t.route(k)) && id != t.self
              && (t.self in t.cur(t.route(k)) ==> id !in t.prev(t.route(k)))
    {
      ReceivedNeeded(t, sent, id, k);
    }
    forall id, kv | kv in Shipment(t, id) ensures kv.key in t.readable && kv.value == t.readable[kv.key] { ShippedTrue(t, id, kv); }
    forall id ensures PinsFirst(t, sent, id) { PinnedFirst(t, sent, id); }
  }

  lemma GoneAreSafe(t: Task, sent: map<Id, nat>, before: map<Key, string>, after: map<Key, string>)
    requires PinnedStay(t) && forall k :: k in after <==> k in before && !GoesWith(t.route, k, Deletable(t, sent))
    ensures NothingLost(t, sent, before, after)
  {
    forall k | k in t.keys && k in before && k !in after ensures Leaves(t, k) && AckedByAll(t, sent, k) {
      GoneIsSafe(t, sent, k);
    }
  }

  lemma Complete(t: Task, sent: map<Id, nat>, before: map<Key, string>, after: map<Key, string>)
    requires AllSent(t, sent) && forall k :: k in after <==> k in before && !GoesWith(t.route, k, Deletable(t, sent))
    ensures NothingKept(t, after) && NewReplicasHave(t, sent)
  {
    forall k | k in t.keys && Leaves(t, k) && AllReadable(t, t.route(k)) ensures k !in after { AllSentDeletes(t, sent, k); }
    forall k, id | k in t.keys && k in t.readable && !Pinned(k) && id in t.cur(t.route(k)) && id != t.self &&
                   (t.self in t.cur(t.route(k)) ==> id !in t.prev(t.route(k)))
      ensures k in Received(t, sent, id)
    {
      NeededReceived(t, sent, id, k);
    }
  }

  /** The lists hold what the first `i` keys contribute. */
  ghost predicate Planned(t: Task, i: nat, byDest: map<Id, seq<KeyValue>>)
    requires i <= |t.keys|
  {
    forall id :: PlanFor(t, id, i) == if id in byDest then byDest[id] else []
  }

  ghost predicate Adds(byDest: map<Id, seq<KeyValue>>, more: map<Id, seq<KeyValue>>, targets: set<Id>, kv: KeyValue) {
    && more.Keys == byDest.Keys + targets
    && forall id :: id in more ==>
         more[id] == if id in targets then (if id in byDest then byDest[id] else []) + [kv] else byDest[id]
  }

  lemma {:induction false} PlanStep(t: Task, i: nat, byDest: map<Id, seq<KeyValue>>, more: map<Id, seq<KeyValue>>, targets: set<Id>)
    requires i < |t.keys| && Planned(t, i, byDest)
    requires forall id :: id in targets <==> Sends(t, t.keys[i], id)
    requires targets == {} ==> more == byDest
    requires targets != {} ==> t.keys[i] in t.readable && Adds(byDest, more, targets, KeyValue(t.keys[i], t.readable[t.keys[i]]))
    ensures Planned(t, i + 1, more)
  {
    forall id ensures PlanFor(t, id, i + 1) == if id in more then more[id] else [] {
      assert PlanFor(t, id, i) == if id in byDest then byDest[id] else [];
      if id in targets { assert Sends(t, t.keys[i], id); } else { assert !Sends(t, t.keys[i], id); }
    }
  }

  /** The lists hold, for each destination, exactly the readable keys it newly needs. */
  ghost predicate PlansNeeds(t: Task, byDest: map<Id, seq<KeyValue>>) {
    forall id, kv :: (id in byDest && kv in byDest[id]) <==>
      && kv.key in t.keys && kv.key in t.readable && kv.value == t.readable[kv.key] && !Pinned(kv.key)
      && Needs(id, t.cur(t.route(kv.key)), t.prev(t.route(kv.key)), t.self)
  }

  lemma PlannedMeans(t: Task, byDest: map<Id, seq<KeyValue>>)
    requires Planned(t, |t.keys|, byDest)
    ensures PlansNeeds(t, byDest)
    ensures forall k :: k in LeavingRead(t, |t.keys|) <==> k in t.keys && Leaves(t, k) && k in t.readable
  {
    assert t.keys[..|t.keys|] == t.keys;
    forall id, kv
      ensures (id in byDest && kv in byDest[id]) <==>
        && kv.key in t.keys && kv.key in t.readable && kv.value == t.readable[kv.key] && !Pinned(kv.key)
        && Needs(id, t.cur(t.route(kv.key)), t.prev(t.route(kv.key)), t.self)
    {
      assert PlanFor(t, id, |t.keys|) == if id in byDest then byDest[id] else [];
      PlanMeans(t, id, |t.keys|, kv);
    }
  }

  lemma LeavingStep(t: Task, i: nat)
    requires i < |t.keys|
    ensures LeavingRead(t, i + 1) ==
      LeavingRead(t, i) + if Leaves(t, t.keys[i]) && t.keys[i] in t.readable then {t.keys[i]} else {}
  {}

  class TransferAgent {
    const self: Id
    var store: map<Key, string>
    var baseline: Placement

    constructor (self: Id, store: map<Key, string>, baseline: Placement)
      ensures this.self == self && this.store == store && this.baseline == baseline
    {
      this.self, this.store, this.baseline := self, store, baseline;
    }

    /** Reconcile the store with the replicas of the current membership.  `unreadable`
        are the keys whose read fails and `sent[id]` how many entries of its list
        destination `id` acknowledged. */
    method MigrateToNewOwners(keys: seq<Key>, unreadable: set<Key>, cur: Placement, sent: map<Id, nat>)
      returns (failed: bool, t: Task)
      modifies this
      ensures t == Task(keys, map k | k in old(store) && k !in unreadable :: old(store)[k], cur, old(baseline), self, RoutingKey)
      ensures forall k :: k in store ==> k in old(store) && store[k] == old(store)[k]
      ensures NothingLost(t, sent, old(store), store)
      ensures !failed ==> NothingKept(t, store) && NewReplicasHave(t, sent)
      ensures !failed ==>
        forall k, id ::
          (&& k in keys && !Pinned(k) && k in old(store) && k !in unreadable && self in cur(RoutingKey(k))
           && id in cur(RoutingKey(k)) && id != self && id !in old(baseline)(RoutingKey(k))) ==> k in Received(t, sent, id)
      ensures OnlyNewReplicasGet(t, sent) && TrueValues(t) && forall id :: PinsFirst(t, sent, id)
      ensures failed <==> exists id :: Short(t, sent, id)
      ensures baseline == if failed then old(baseline) else cur
    {
      t := Task(keys, map k | k in store && k !in unreadable :: store[k], cur, baseline, self, RoutingKey);
      forall k | Pinned(k) ensures !Derived(t.route, k) { PinnedRoutesAsItself(k); }
      Shipped(t, sent);
      var byDest, pinned, leaving, unread := Plan(t);
      var acked;
      failed, acked := Send(t, byDest, pinned, sent);
      var deletable := ChooseDeletable(t, leaving, unread, sent, acked);
      DeleteAll(t.route, deletable);
      GoneAreSafe(t, sent, old(store), store);
      if !failed {
        baseline := cur;
        Complete(t, sent, old(store), store);
      }
    }

    /** Sort the scanned keys into what goes where, what leaves, and the routing keys
        with a leaving key that could not be read. */
    method Plan(t: Task)
      returns (byDest: map<Id, seq<KeyValue>>, pinned: seq<KeyValue>, leaving: set<Key>, unread: set<Key>)
      ensures Planned(t, |t.keys|, byDest) && pinned == Pins(t, |t.keys|)
      ensures leaving == LeavingRead(t, |t.keys|) && unread == Unread(t, |t.keys|)
      ensures PlansNeeds(t, byDest)
      ensures forall k :: k in leaving <==> k in t.keys && k in t.readable && !Pinned(k) && t.cur(t.route(k)) != [] && t.self !in t.cur(t.route(k))
    {
      byDest, pinned, leaving, unread := map[], [], {}, {};
      for i := 0 to |t.keys|
        invariant Planned(t, i, byDest) && pinned == Pins(t, i) && leaving == LeavingRead(t, i) && unread == Unread(t, i)
      {
        var key := t.keys[i];
        LeavingStep(t, i);
        if Pinned(key) {
          PlanStep(t, i, byDest, byDest, {});
          if key in t.readable { pinned := pinned + [KeyValue(key, t.readable[key])]; }
        } else {
          var targets, stays := Destinations(t, key);
          if targets != {} && key in t.readable {
            var more := AddTo(byDest, targets, KeyValue(key, t.readable[key]));
            PlanStep(t, i, byDest, more, targets);
            byDest := more;
            if !stays { leaving := leaving + {key}; }
          } else {
            PlanStep(t, i, byDest, byDest, {});
            if targets != {} && !stays { unread := unread + {t.route(key)}; }
          }
        }
      }
      PlannedMeans(t, byDest);
    }

    method Destinations(t: Task, key: Key) returns (targets: set<Id>, stays: bool)
      ensures stays == Stays(t, key) && forall id :: id in targets <==> Targets(t, key, id)
      ensures targets == {} && !stays ==> Owners(t, key) == []
    {
      var now, before := t.cur(t.route(key)), t.prev(t.route(key));
      stays := t.self in now;
      targets := set id | id in now && (stays ==> id != t.self && id !in before);
      if now != [] && !stays { assert now[0] in targets; }
    }

    method AddTo(byDest: map<Id, seq<KeyValue>>, targets: set<Id>, kv: KeyValue) returns (r: map<Id, seq<KeyValue>>)
      ensures Adds(byDest, r, targets, kv)
    {
      r := map id | id in byDest.Keys + targets ::
        if id in targets then (if id in byDest then byDest[id] else []) + [kv] else byDest[id];
    }

    /** Send every destination its list: pinned keys, derived keys, records. */
    method Send(t: Task, byDest: map<Id, seq<KeyValue>>, pinned: seq<KeyValue>, sent: map<Id, nat>)
      returns (failed: bool, acked: map<Id, set<Key>>)
      requires Planned(t, |t.keys|, byDest) && pinned == Pins(t, |t.keys|)
      ensures acked.Keys == byDest.Keys && forall id :: id in acked ==> acked[id] == Received(t, sent, id)
      ensures failed <==> !AllSent(t, sent)
    {
      failed, acked := false, map[];
      var left := byDest.Keys;
      while left != {}
        invariant left <= byDest.Keys && acked.Keys == byDest.Keys - left
        invariant forall id :: id in acked ==> acked[id] == Received(t, sent, id)
        invariant failed <==> exists id :: id in acked && Short(t, sent, id)
        decreases left
      {
        var id :| id in left;
        var got, short := SendTo(t, id, byDest[id], pinned, sent);
        acked := acked[id := got];
        failed := failed || short;
        left := left - {id};
      }
      forall id | id !in byDest ensures !Short(t, sent, id) {}
    }

    /** One destination: what it acknowledged, and whether that was not everything. */
    method SendTo(t: Task, id: Id, kvs: seq<KeyValue>, pinned: seq<KeyValue>, sent: map<Id, nat>)
      returns (got: set<Key>, short: bool)
      requires kvs == PlanFor(t, id, |t.keys|) && pinned == Pins(t, |t.keys|)
      ensures got == Received(t, sent, id) && short == Short(t, sent, id)
    {
      var order := SortDerivedFirst(t.route, kvs);
      var list := pinned + order;
      var n := if id in sent then Min(sent[id], |list|) else 0;
      ReceivedIs(t, sent, id);
      got := Acknowledged(list, |pinned|, n);
      if n > |pinned| { assert list[|pinned|..n] == order[..n - |pinned|]; }
      short := kvs != [] && n < |list|;
    }

    method SortDerivedFirst(route: Key -> Key, kvs: seq<KeyValue>) returns (order: seq<KeyValue>)
      ensures order == DerivedFirst(route, kvs)
    {
      var derived: seq<KeyValue>, records: seq<KeyValue> := [], [];
      for i := 0 to |kvs|
        invariant derived == Only(route, kvs, true, i) && records == Only(route, kvs, false, i)
      {
        if Derived(route, kvs[i].key) { derived := derived + [kvs[i]]; } else { records := records + [kvs[i]]; }
      }
      order := derived + records;
    }

    /** The keys of the entries from `from` up to the `n`th. */
    method Acknowledged(list: seq<KeyValue>, from: nat, n: nat) returns (got: set<Key>)
      requires n <= |list|
      ensures got == if from <= n then KeysOf(list[from..n]) else {}
    {
      got := {};
      var i := from;
      while i < n
        invariant from <= i && (from <= n ==> i <= n && got == KeysOf(list[from..i])) && (n < from ==> got == {})
      {
        assert list[from..i + 1] == list[from..i] + [list[i]];
        got := got + {list[i].key};
        i := i + 1;
      }
    }

    /** A key that left goes once every current replica acknowledged it; a record only if
        nothing placed with it was left unread. */
    method ChooseDeletable(t: Task, leaving: set<Key>, unread: set<Key>, ghost sent: map<Id, nat>, acked: map<Id, set<Key>>)
      returns (deletable: set<Key>)
      requires leaving == LeavingRead(t, |t.keys|) && unread == Unread(t, |t.keys|)
      requires forall id :: id in acked ==> acked[id] == Received(t, sent, id)
      requires forall id :: id !in acked ==> PlanFor(t, id, |t.keys|) == []
      ensures deletable == Deletable(t, sent)
    {
      deletable := {};
      var left := leaving;
      while left != {}
        invariant left <= leaving
        invariant deletable == set k | k in leaving - left && k in Deletable(t, sent)
        decreases left
      {
        var key :| key in left;
        var ok := AckedEverywhere(t, key, sent, acked);
        if ok && !(!Derived(t.route, key) && key in unread) { deletable := deletable + {key}; }
        left := left - {key};
      }
    }

    method AckedEverywhere(t: Task, key: Key, ghost sent: map<Id, nat>, acked: map<Id, set<Key>>) returns (ok: bool)
      requires forall id :: id in acked ==> acked[id] == Received(t, sent, id)
      requires forall id :: id !in acked ==> PlanFor(t, id, |t.keys|) == []
      ensures ok == AckedByAll(t, sent, key)
    {
      var replicas := t.cur(t.route(key));
      ok := true;
      for j := 0 to |replicas|
        invariant ok <==> forall i :: 0 <= i < j ==> key in Received(t, sent, replicas[i])
      {
        var id := replicas[j];
        if !(id in acked && key in acked[id]) { ok := false; }
      }
    }

    /** Delete derived keys, then records with whatever is still derived from them. */
    method DeleteAll(route: Key -> Key, deletable: set<Key>)
      modifies `store
      ensures forall k :: k in store <==> k in old(store) && !GoesWith(route, k, deletable)
      ensures forall k :: k in store <==>
        k in old(store) && k !in deletable && !(route(k) in deletable && route(route(k)) == route(k))
      ensures forall k :: k in store ==> store[k] == old(store)[k]
    {
      store := map k | k in store && !(k in deletable && Derived(route, k)) :: store[k];
      store := map k | k in store && !(k in deletable) && !(route(k) in deletable && !Derived(route, route(k))) :: store[k];
    }
  }
}
