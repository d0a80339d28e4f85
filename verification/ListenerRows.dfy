/** Tables of child rows: inserted by position, read back in order of position. */
module ChildRows {
  import opened Common

  datatype Placed<R> = Placed(parent: string, position: nat, row: R)

  type Table<R> = map<string, Placed<R>>

  /** INSERT of a list under one parent; a taken id fails the transaction. */
  function PutAll<R>(t: Table<R>, parent: string, xs: seq<(string, R)>): Option<Table<R>> {
    if xs == [] then Some(t)
    else
      var n := |xs| - 1;
      match PutAll(t, parent, xs[..n])
      case None => None
      case Some(before) => PutOne(before, parent, n, xs[n])
  }

  function PutOne<R>(t: Table<R>, parent: string, position: nat, x: (string, R)): Option<Table<R>> {
    if x.0 in t then None else Some(t[x.0 := Placed(parent, position, x.1)])
  }

  function Children<R>(t: Table<R>, parent: string): Table<R> {
    map id | id in t && t[id].parent == parent :: t[id]
  }

  ghost predicate IsFirst<R>(t: Table<R>, s: set<string>, id: string) {
    id in s && id in t && forall x | x in s && x in t :: t[id].position <= t[x].position
  }

  /** The row that ORDER BY position puts first. */
  ghost function First<R>(t: Table<R>): (id: string)
    requires t.Keys != {}
    ensures IsFirst(t, t.Keys, id)
  {
    FirstExists(t, t.Keys);
    var id :| IsFirst(t, t.Keys, id);
    id
  }

  lemma {:induction false} FirstExists<R>(t: Table<R>, s: set<string>)
    requires s != {} && s <= t.Keys
    ensures exists id :: IsFirst(t, s, id)
    decreases |s|
  {
    var y :| y in s;
    if s == {y} {
      assert IsFirst(t, s, y);
    } else {
      FirstExists(t, s - {y});
      var z :| IsFirst(t, s - {y}, z);
      assert IsFirst(t, s, if t[y].position <= t[z].position then y else z);
    }
  }

  ghost function InOrder<R>(t: Table<R>): seq<(string, R)>
    decreases |t.Keys|
  {
    if t.Keys == {} then []
    else
      var f := First(t);
      assert (t - {f}).Keys == t.Keys - {f};
      [(f, t[f].row)] + InOrder(t - {f})
  }

  /** SELECT ... WHERE parent = ? ORDER BY position */
  ghost function Query<R>(t: Table<R>, parent: string): seq<(string, R)> {
    InOrder(Children(t, parent))
  }

  /** The table holds exactly these rows, at ascending positions from `base`. */
  ghost predicate Enumerates<R>(t: Table<R>, xs: seq<(string, R)>, base: nat) {
    && (forall i | 0 <= i < |xs| :: xs[i].0 in t && t[xs[i].0].row == xs[i].1 && t[xs[i].0].position == base + i)
    && (forall id | id in t :: exists i :: 0 <= i < |xs| && xs[i].0 == id)
  }

  lemma {:induction false} ListedInOrder<R>(t: Table<R>, xs: seq<(string, R)>, base: nat)
    requires Enumerates(t, xs, base)
    ensures InOrder(t) == xs
    decreases |xs|
  {
    if xs == [] {
      assert t.Keys == {};
    } else {
      assert xs[0].0 in t;
      var f := First(t);
      var i :| 0 <= i < |xs| && xs[i].0 == f;
      assert i == 0;
      EnumeratesTail(t, xs, base);
      ListedInOrder(t - {f}, xs[1..], base + 1);
      assert xs == [xs[0]] + xs[1..];
    }
  }

  lemma EnumeratesTail<R>(t: Table<R>, xs: seq<(string, R)>, base: nat)
    requires Enumerates(t, xs, base) && xs != []
    ensures Enumerates(t - {xs[0].0}, xs[1..], base + 1)
  {
    var rest := t - {xs[0].0};
    forall i | 0 <= i < |xs[1..]|
      ensures xs[1..][i].0 in rest && rest[xs[1..][i].0].row == xs[1..][i].1
      ensures rest[xs[1..][i].0].position == base + 1 + i
    {
      assert xs[1..][i] == xs[i + 1];
      assert t[xs[0].0].position != t[xs[i + 1].0].position;
    }
    forall id | id in rest ensures exists i :: 0 <= i < |xs[1..]| && xs[1..][i].0 == id {
      var j :| 0 <= j < |xs| && xs[j].0 == id;
      assert xs[1..][j - 1].0 == id;
    }
  }

  /** What a successful insert leaves. */
  lemma {:induction false} PutAllAdds<R>(t: Table<R>, parent: string, xs: seq<(string, R)>, t': Table<R>)
    requires PutAll(t, parent, xs) == Some(t')
    ensures forall id | id in t :: id in t' && t'[id] == t[id]
    ensures forall i | 0 <= i < |xs| :: xs[i].0 !in t && xs[i].0 in t' && t'[xs[i].0] == Placed(parent, i, xs[i].1)
    ensures forall id | id in t' && id !in t :: exists i :: 0 <= i < |xs| && xs[i].0 == id
    decreases |xs|
  {
    if xs != [] {
      var n := |xs| - 1;
      var before := PutAll(t, parent, xs[..n]).value;
      PutAllAdds(t, parent, xs[..n], before);
      forall i | 0 <= i < |xs| ensures xs[i].0 !in t && xs[i].0 in t' && t'[xs[i].0] == Placed(parent, i, xs[i].1) {
        if i < n { assert xs[..n][i] == xs[i]; }
      }
      forall id | id in t' && id !in t ensures exists i :: 0 <= i < |xs| && xs[i].0 == id {
        if id != xs[n].0 {
          var i :| 0 <= i < |xs[..n]| && xs[..n][i].0 == id;
          assert xs[i].0 == id;
        }
      }
    }
  }

  ghost predicate Childless<R>(t: Table<R>, parent: string) {
    forall id | id in t :: t[id].parent != parent
  }

  /** Reading back what was inserted under a new parent gives the same list; other parents keep theirs. */
  lemma PutThenQuery<R>(t: Table<R>, parent: string, xs: seq<(string, R)>, t': Table<R>)
    requires Childless(t, parent) && PutAll(t, parent, xs) == Some(t')
    ensures Query(t', parent) == xs
    ensures forall q | q != parent :: Children(t', q) == Children(t, q)
  {
    PutAllAdds(t, parent, xs, t');
    assert Enumerates(Children(t', parent), xs, 0);
    ListedInOrder(Children(t', parent), xs, 0);
    forall q | q != parent ensures Children(t', q) == Children(t, q) {
      OthersKeep(t, t', parent, q);
    }
  }

  lemma OthersKeep<R>(t: Table<R>, t': Table<R>, parent: string, q: string)
    requires q != parent
    requires forall id | id in t :: id in t' && t'[id] == t[id]
    requires forall id | id in t' && id !in t :: t'[id].parent == parent
    ensures Children(t', q) == Children(t, q)
  {
  }
}

/** One listener aggregate as rows of six tables, and back (internal/store/sqlite/rpclistener.go). */
module ListenerRows {
  import opened Common
  import opened ChildRows
  import C = Configuration
  import opened Lists

  datatype WebhookRow = WebhookRow(locator: string, auth: C.Authentication, times: C.Times)
  datatype EventRow = EventRow(selector: string, times: C.Times)
  datatype ContractRow = ContractRow(address: string, abi: string, times: C.Times)
  datatype ListenerRow = ListenerRow(
    settings: C.Settings, locator: string, rpcAuth: C.RpcAuthentication, times: C.Times)

  datatype Tables = Tables(
    listeners: map<string, ListenerRow>, contracts: Table<ContractRow>, events: Table<EventRow>,
    chainHooks: Table<WebhookRow>, contractHooks: Table<WebhookRow>, eventHooks: Table<WebhookRow>)

  // ---------------------------------------------------------------- locators

  predicate HasPrefix(s: string, p: string) {
    |p| <= |s| && s[..|p|] == p
  }

  /** secrets.IsReference */
  predicate IsReference(s: string) {
    HasPrefix(s, "env://") || HasPrefix(s, "file://")
  }

  /** configuredLocator */
  function Locator(url: string, urlRef: string): string {
    if urlRef != "" then urlRef else url
  }

  function UrlOf(locator: string): string { if IsReference(locator) then "" else locator }

  function RefOf(locator: string): string { if IsReference(locator) then locator else "" }

  /** A reference alone, or a URL alone that does not look like a reference. */
  predicate Restorable(url: string, urlRef: string) {
    if urlRef != "" then url == "" && IsReference(urlRef) else !IsReference(url)
  }

  /** The split into URL and reference survives the one column it is stored in iff it is restorable. */
  lemma SplitRestoredIff(url: string, urlRef: string)
    ensures UrlOf(Locator(url, urlRef)) == url && RefOf(Locator(url, urlRef)) == urlRef <==> Restorable(url, urlRef)
  {
  }

  // -------------------------------------------------------------- timestamps

  /** Surviving ids keep their creation time. */
  function CreationTime(created: map<string, int>, id: string, now: int): int {
    if id in created && created[id] != 0 then created[id] else now
  }

  function Stamp(created: map<string, int>, id: string, now: int): C.Times {
    C.Times(CreationTime(created, id, now), now)
  }

  // ------------------------------------------------------------------ insert

  datatype Clock = Clock(created: map<string, int>, now: int)

  function WebhookPair(k: Clock, w: C.Webhook): (string, WebhookRow) {
    (w.id, WebhookRow(Locator(w.url, w.urlRef), w.auth, Stamp(k.created, w.id, k.now)))
  }

  function HookRows(k: Clock, ws: seq<C.Webhook>): seq<(string, WebhookRow)> {
    Map(w => WebhookPair(k, w), ws)
  }

  function EventPair(k: Clock, e: C.Event): (string, EventRow) {
    (e.id, EventRow(e.selector, Stamp(k.created, e.id, k.now)))
  }

  function ContractPair(k: Clock, c: C.Contract): (string, ContractRow) {
    (c.id, ContractRow(c.address, c.abi, Stamp(k.created, c.id, k.now)))
  }

  function PutEvent(t: Tables, k: Clock, contract: string, position: nat, e: C.Event): Option<Tables> {
    match PutOne(t.events, contract, position, EventPair(k, e))
    case None => None
    case Some(events) =>
      match PutAll(t.eventHooks, e.id, HookRows(k, e.webhooks))
      case None => None
      case Some(hooks) => Some(t.(events := events, eventHooks := hooks))
  }

  function PutEvents(t: Tables, k: Clock, contract: string, es: seq<C.Event>): Option<Tables> {
    if es == [] then Some(t)
    else
      match PutEvents(t, k, contract, es[..|es| - 1])
      case None => None
      case Some(before) => PutEvent(before, k, contract, |es| - 1, es[|es| - 1])
  }

  function PutContract(t: Tables, k: Clock, listener: string, position: nat, c: C.Contract): Option<Tables> {
    match PutOne(t.contracts, listener, position, ContractPair(k, c))
    case None => None
    case Some(contracts) =>
      match PutAll(t.contractHooks, c.id, HookRows(k, c.webhooks))
      case None => None
      case Some(hooks) => PutEvents(t.(contracts := contracts, contractHooks := hooks), k, c.id, c.events)
  }

  function PutContracts(t: Tables, k: Clock, listener: string, cs: seq<C.Contract>): Option<Tables> {
    if cs == [] then Some(t)
    else
      match PutContracts(t, k, listener, cs[..|cs| - 1])
      case None => None
      case Some(before) => PutContract(before, k, listener, |cs| - 1, cs[|cs| - 1])
  }

  /** insertListenerWithCreationTimes */
  function PutListener(t: Tables, k: Clock, l: C.Listener): Option<Tables> {
    if l.id in t.listeners then None
    else
      var row := ListenerRow(l.settings, Locator(l.url, l.urlRef), l.rpcAuth, Stamp(k.created, l.id, k.now));
      match PutAll(t.chainHooks, l.id, HookRows(k, l.webhooks))
      case None => None
      case Some(hooks) =>
        PutContracts(t.(listeners := t.listeners[l.id := row], chainHooks := hooks), k, l.id, l.contracts)
  }

  // -------------------------------------------------------------------- load

  function WebhookOf(x: (string, WebhookRow)): C.Webhook {
    C.Webhook(x.0, UrlOf(x.1.locator), RefOf(x.1.locator), x.1.auth, x.1.times)
  }

  ghost function LoadWebhooks(t: Table<WebhookRow>, parent: string): seq<C.Webhook> {
    Map(WebhookOf, Query(t, parent))
  }

  ghost function LoadEvents(t: Tables, contract: string): seq<C.Event> {
    var rows := Query(t.events, contract);
    seq(|rows|, i requires 0 <= i < |rows| =>
      C.Event(rows[i].0, rows[i].1.selector, LoadWebhooks(t.eventHooks, rows[i].0), rows[i].1.times))
  }

  ghost function LoadContracts(t: Tables, listener: string): seq<C.Contract> {
    var rows := Query(t.contracts, listener);
    seq(|rows|, i requires 0 <= i < |rows| =>
      C.Contract(rows[i].0, rows[i].1.address, rows[i].1.abi, LoadWebhooks(t.contractHooks, rows[i].0),
                 LoadEvents(t, rows[i].0), rows[i].1.times))
  }

  ghost function LoadListener(t: Tables, id: string): Option<C.Listener> {
    if id !in t.listeners then None
    else
      var row := t.listeners[id];
      Some(C.Listener(id, row.settings, UrlOf(row.locator), RefOf(row.locator), row.rpcAuth,
                      LoadWebhooks(t.chainHooks, id), LoadContracts(t, id), row.times))
  }

  // ------------------------------------------------- what comes back, by value

  function WebhookBack(k: Clock, w: C.Webhook): C.Webhook {
    w.(url := UrlOf(Locator(w.url, w.urlRef)), urlRef := RefOf(Locator(w.url, w.urlRef)),
       times := Stamp(k.created, w.id, k.now))
  }

  function WebhooksBack(k: Clock, ws: seq<C.Webhook>): seq<C.Webhook> {
    Map(w => WebhookBack(k, w), ws)
  }

  function EventBack(k: Clock, e: C.Event): C.Event {
    e.(webhooks := WebhooksBack(k, e.webhooks), times := Stamp(k.created, e.id, k.now))
  }

  function ContractBack(k: Clock, c: C.Contract): C.Contract {
    c.(webhooks := WebhooksBack(k, c.webhooks), events := Map(e => EventBack(k, e), c.events),
       times := Stamp(k.created, c.id, k.now))
  }

  function ListenerBack(k: Clock, l: C.Listener): C.Listener {
    l.(url := UrlOf(Locator(l.url, l.urlRef)), urlRef := RefOf(Locator(l.url, l.urlRef)),
       webhooks := WebhooksBack(k, l.webhooks), contracts := Map(c => ContractBack(k, c), l.contracts),
       times := Stamp(k.created, l.id, k.now))
  }

  // ------------------------------------------------------------ foreign keys

  ghost predicate Parented<R>(t: Table<R>, parents: set<string>) {
    forall id | id in t :: t[id].parent in parents
  }

  ghost predicate ForeignKeys(t: Tables) {
    && Parented(t.contracts, t.listeners.Keys) && Parented(t.chainHooks, t.listeners.Keys)
    && Parented(t.events, t.contracts.Keys) && Parented(t.contractHooks, t.contracts.Keys)
    && Parented(t.eventHooks, t.events.Keys)
  }

  lemma OrphanFree<R>(t: Table<R>, parents: set<string>, parent: string)
    requires Parented(t, parents) && parent !in parents
    ensures Childless(t, parent)
  {
  }

  lemma PutKeepsParented<R>(t: Table<R>, parent: string, xs: seq<(string, R)>, t': Table<R>, parents: set<string>)
    requires Parented(t, parents) && PutAll(t, parent, xs) == Some(t')
    ensures Parented(t', parents + {parent})
  {
    PutAllAdds(t, parent, xs, t');
  }

  lemma HooksComeBack(t: Table<WebhookRow>, k: Clock, parent: string, ws: seq<C.Webhook>, t': Table<WebhookRow>)
    requires Childless(t, parent) && PutAll(t, parent, HookRows(k, ws)) == Some(t')
    ensures LoadWebhooks(t', parent) == WebhooksBack(k, ws)
    ensures forall q | q != parent :: LoadWebhooks(t', q) == LoadWebhooks(t, q)
  {
    PutThenQuery(t, parent, HookRows(k, ws), t');
    forall q | q != parent ensures LoadWebhooks(t', q) == LoadWebhooks(t, q) {
      assert Children(t', q) == Children(t, q);
    }
  }

  // ------------------------------------------------------------------ events

  function EventPairs(k: Clock, es: seq<C.Event>): seq<(string, EventRow)> {
    Map(e => EventPair(k, e), es)
  }

  /** What inserting the events of a contract leaves: their rows, their webhooks, and nothing else changed. */
  ghost predicate EventsAdded(t: Tables, k: Clock, contract: string, es: seq<C.Event>, t': Tables) {
    && t' == t.(events := t'.events, eventHooks := t'.eventHooks)
    && PutAll(t.events, contract, EventPairs(k, es)) == Some(t'.events)
    && (forall i | 0 <= i < |es| ::
          es[i].id in t'.events && LoadWebhooks(t'.eventHooks, es[i].id) == WebhooksBack(k, es[i].webhooks))
    && (forall q | q in t.events :: q in t'.events && LoadWebhooks(t'.eventHooks, q) == LoadWebhooks(t.eventHooks, q))
    && Parented(t'.eventHooks, t'.events.Keys)
  }

  lemma PutEventStep(t: Tables, k: Clock, contract: string, es: seq<C.Event>, before: Tables, t': Tables)
    requires es != [] && EventsAdded(t, k, contract, es[..|es| - 1], before)
    requires PutEvent(before, k, contract, |es| - 1, es[|es| - 1]) == Some(t')
    ensures EventsAdded(t, k, contract, es, t')
  {
    var n := |es| - 1;
    var e := es[n];
    assert EventPairs(k, es)[..n] == EventPairs(k, es[..n]);
    OrphanFree(before.eventHooks, before.events.Keys, e.id);
    HooksComeBack(before.eventHooks, k, e.id, e.webhooks, t'.eventHooks);
    PutKeepsParented(before.eventHooks, e.id, HookRows(k, e.webhooks), t'.eventHooks, before.events.Keys);
    assert t'.events.Keys == before.events.Keys + {e.id};
    forall i | 0 <= i < |es|
      ensures es[i].id in t'.events && LoadWebhooks(t'.eventHooks, es[i].id) == WebhooksBack(k, es[i].webhooks)
    {
      if i < n { assert es[..n][i] == es[i]; }
    }
  }

  lemma {:induction false} PutEventsAdds(t: Tables, k: Clock, contract: string, es: seq<C.Event>, t': Tables)
    requires Parented(t.eventHooks, t.events.Keys) && PutEvents(t, k, contract, es) == Some(t')
    ensures EventsAdded(t, k, contract, es, t')
    decreases |es|
  {
    if es != [] {
      var before := PutEvents(t, k, contract, es[..|es| - 1]).value;
      PutEventsAdds(t, k, contract, es[..|es| - 1], before);
      PutEventStep(t, k, contract, es, before, t');
    }
  }

  lemma {:induction false} QueryIsRows<R>(t: Table<R>)
    ensures forall i | 0 <= i < |InOrder(t)| :: InOrder(t)[i].0 in t
    decreases |t.Keys|
  {
    if t.Keys != {} {
      var f := First(t);
      assert (t - {f}).Keys == t.Keys - {f};
      QueryIsRows(t - {f});
    }
  }

  /** The events of the contract come back; those of other contracts stand. */
  lemma EventsComeBack(t: Tables, k: Clock, contract: string, es: seq<C.Event>, t': Tables)
    requires Childless(t.events, contract) && EventsAdded(t, k, contract, es, t')
    ensures LoadEvents(t', contract) == Map(e => EventBack(k, e), es)
  {
    PutThenQuery(t.events, contract, EventPairs(k, es), t'.events);
    var rows := Query(t'.events, contract);
    assert rows == EventPairs(k, es);
    var back := LoadEvents(t', contract);
    forall i | 0 <= i < |es| ensures back[i] == EventBack(k, es[i]) {
      assert rows[i] == EventPair(k, es[i]);
    }
  }

  lemma OtherEventsStand(t: Tables, k: Clock, contract: string, es: seq<C.Event>, t': Tables, q: string)
    requires Childless(t.events, contract) && EventsAdded(t, k, contract, es, t') && q != contract
    ensures LoadEvents(t', q) == LoadEvents(t, q)
  {
    PutThenQuery(t.events, contract, EventPairs(k, es), t'.events);
    assert Children(t'.events, q) == Children(t.events, q);
    QueryIsRows(Children(t.events, q));
    var rows := Query(t.events, q);
    assert Query(t'.events, q) == rows;
    var a, b := LoadEvents(t, q), LoadEvents(t', q);
    forall i | 0 <= i < |rows| ensures b[i] == a[i] {
      assert rows[i].0 in t.events;
    }
  }

  // --------------------------------------------------------------- contracts

  function ContractPairs(k: Clock, cs: seq<C.Contract>): seq<(string, ContractRow)> {
    Map(c => ContractPair(k, c), cs)
  }

  ghost predicate ContractsSound(t: Tables) {
    && Parented(t.contractHooks, t.contracts.Keys) && Parented(t.events, t.contracts.Keys)
    && Parented(t.eventHooks, t.events.Keys)
  }

  ghost predicate ContractIsBack(t: Tables, k: Clock, c: C.Contract) {
    && c.id in t.contracts
    && LoadWebhooks(t.contractHooks, c.id) == WebhooksBack(k, c.webhooks)
    && LoadEvents(t, c.id) == Map(e => EventBack(k, e), c.events)
  }

  ghost predicate ContractStands(t: Tables, t': Tables, q: string) {
    && q in t'.contracts
    && LoadWebhooks(t'.contractHooks, q) == LoadWebhooks(t.contractHooks, q)
    && LoadEvents(t', q) == LoadEvents(t, q)
  }

  ghost predicate ContractsAdded(t: Tables, k: Clock, listener: string, cs: seq<C.Contract>, t': Tables) {
    && t'.listeners == t.listeners && t'.chainHooks == t.chainHooks
    && PutAll(t.contracts, listener, ContractPairs(k, cs)) == Some(t'.contracts)
    && (forall i | 0 <= i < |cs| :: ContractIsBack(t', k, cs[i]))
    && (forall q | q in t.contracts :: ContractStands(t, t', q))
    && ContractsSound(t')
  }

  /** One contract: it comes back, and every other contract stands. */
  lemma PutContractAdds(t: Tables, k: Clock, listener: string, position: nat, c: C.Contract, t': Tables)
    requires ContractsSound(t) && PutContract(t, k, listener, position, c) == Some(t')
    ensures t'.listeners == t.listeners && t'.chainHooks == t.chainHooks && ContractsSound(t')
    ensures c.id !in t.contracts
    ensures t'.contracts == t.contracts[c.id := Placed(listener, position, ContractPair(k, c).1)]
    ensures ContractIsBack(t', k, c)
    ensures forall q | q in t.contracts :: ContractStands(t, t', q)
  {
    var contracts := PutOne(t.contracts, listener, position, ContractPair(k, c)).value;
    var hooks := PutAll(t.contractHooks, c.id, HookRows(k, c.webhooks)).value;
    var mid := t.(contracts := contracts, contractHooks := hooks);
    assert contracts.Keys == t.contracts.Keys + {c.id};
    OrphanFree(t.contractHooks, t.contracts.Keys, c.id);
    OrphanFree(t.events, t.contracts.Keys, c.id);
    HooksComeBack(t.contractHooks, k, c.id, c.webhooks, hooks);
    PutKeepsParented(t.contractHooks, c.id, HookRows(k, c.webhooks), hooks, t.contracts.Keys);
    PutEventsAdds(mid, k, c.id, c.events, t');
    EventsComeBack(mid, k, c.id, c.events, t');
    PutKeepsParented(mid.events, c.id, EventPairs(k, c.events), t'.events, t.contracts.Keys);
    forall q | q in t.contracts ensures ContractStands(t, t', q) {
      OtherEventsStand(mid, k, c.id, c.events, t', q);
      assert LoadEvents(mid, q) == LoadEvents(t, q);
    }
  }

  lemma PutContractStep(t: Tables, k: Clock, listener: string, cs: seq<C.Contract>, before: Tables, t': Tables)
    requires cs != [] && ContractsAdded(t, k, listener, cs[..|cs| - 1], before)
    requires PutContract(before, k, listener, |cs| - 1, cs[|cs| - 1]) == Some(t')
    ensures ContractsAdded(t, k, listener, cs, t')
  {
    var n := |cs| - 1;
    assert ContractPairs(k, cs)[..n] == ContractPairs(k, cs[..n]);
    PutContractAdds(before, k, listener, n, cs[n], t');
    forall i | 0 <= i < |cs| ensures ContractIsBack(t', k, cs[i]) {
      if i < n {
        assert cs[..n][i] == cs[i];
        assert ContractIsBack(before, k, cs[i]) && ContractStands(before, t', cs[i].id);
      }
    }
    forall q | q in t.contracts ensures ContractStands(t, t', q) {
      assert ContractStands(t, before, q) && ContractStands(before, t', q);
    }
  }

  lemma {:induction false} PutContractsAdds(t: Tables, k: Clock, listener: string, cs: seq<C.Contract>, t': Tables)
    requires ContractsSound(t) && PutContracts(t, k, listener, cs) == Some(t')
    ensures ContractsAdded(t, k, listener, cs, t')
    decreases |cs|
  {
    if cs != [] {
      var before := PutContracts(t, k, listener, cs[..|cs| - 1]).value;
      PutContractsAdds(t, k, listener, cs[..|cs| - 1], before);
      PutContractStep(t, k, listener, cs, before, t');
    }
  }

  lemma ContractsComeBack(t: Tables, k: Clock, listener: string, cs: seq<C.Contract>, t': Tables)
    requires Childless(t.contracts, listener) && ContractsAdded(t, k, listener, cs, t')
    ensures LoadContracts(t', listener) == Map(c => ContractBack(k, c), cs)
  {
    PutThenQuery(t.contracts, listener, ContractPairs(k, cs), t'.contracts);
    var rows := Query(t'.contracts, listener);
    assert rows == ContractPairs(k, cs);
    var back := LoadContracts(t', listener);
    forall i | 0 <= i < |cs| ensures back[i] == ContractBack(k, cs[i]) {
      assert rows[i] == ContractPair(k, cs[i]);
      assert ContractIsBack(t', k, cs[i]);
    }
  }

  lemma OtherContractsStand(t: Tables, k: Clock, listener: string, cs: seq<C.Contract>, t': Tables, q: string)
    requires Childless(t.contracts, listener) && ContractsAdded(t, k, listener, cs, t') && q != listener
    ensures LoadContracts(t', q) == LoadContracts(t, q)
  {
    PutThenQuery(t.contracts, listener, ContractPairs(k, cs), t'.contracts);
    assert Children(t'.contracts, q) == Children(t.contracts, q);
    QueryIsRows(Children(t.contracts, q));
    var rows := Query(t.contracts, q);
    assert Query(t'.contracts, q) == rows;
    var a, b := LoadContracts(t, q), LoadContracts(t', q);
    forall i | 0 <= i < |rows| ensures b[i] == a[i] {
      assert rows[i].0 in t.contracts;
      assert ContractStands(t, t', rows[i].0);
    }
  }

  // --------------------------------------------------------------- listeners

  lemma PutListenerAdds(t: Tables, k: Clock, l: C.Listener, t': Tables)
    requires ForeignKeys(t) && PutListener(t, k, l) == Some(t')
    ensures LoadListener(t', l.id) == Some(ListenerBack(k, l))
    ensures forall q | q != l.id :: LoadListener(t', q) == LoadListener(t, q)
    ensures ForeignKeys(t')
  {
    var hooks := PutAll(t.chainHooks, l.id, HookRows(k, l.webhooks)).value;
    var row := ListenerRow(l.settings, Locator(l.url, l.urlRef), l.rpcAuth, Stamp(k.created, l.id, k.now));
    var mid := t.(listeners := t.listeners[l.id := row], chainHooks := hooks);
    assert mid.listeners.Keys == t.listeners.Keys + {l.id};
    OrphanFree(t.chainHooks, t.listeners.Keys, l.id);
    OrphanFree(t.contracts, t.listeners.Keys, l.id);
    HooksComeBack(t.chainHooks, k, l.id, l.webhooks, hooks);
    PutKeepsParented(t.chainHooks, l.id, HookRows(k, l.webhooks), hooks, t.listeners.Keys);
    PutContractsAdds(mid, k, l.id, l.contracts, t');
    ContractsComeBack(mid, k, l.id, l.contracts, t');
    PutKeepsParented(mid.contracts, l.id, ContractPairs(k, l.contracts), t'.contracts, t.listeners.Keys);
    forall q | q != l.id ensures LoadListener(t', q) == LoadListener(t, q) {
      OtherContractsStand(mid, k, l.id, l.contracts, t', q);
      SameContracts(t, mid, q);
    }
  }

  /** Contracts are read from their own tables only. */
  lemma SameContracts(t: Tables, t': Tables, q: string)
    requires t'.contracts == t.contracts && t'.contractHooks == t.contractHooks
    requires t'.events == t.events && t'.eventHooks == t.eventHooks
    ensures LoadContracts(t', q) == LoadContracts(t, q)
  {
    forall c ensures LoadEvents(t', c) == LoadEvents(t, c) {}
  }

  /** DELETE of a listener, which cascades through its contracts, events and webhooks. */
  function DeleteListener(t: Tables, id: string): Tables {
    var contracts := Children(t.contracts, id).Keys;
    var events := Under(t.events, contracts);
    Tables(t.listeners - {id}, t.contracts - contracts, t.events - events,
           t.chainHooks - Children(t.chainHooks, id).Keys,
           t.contractHooks - Under(t.contractHooks, contracts), t.eventHooks - Under(t.eventHooks, events))
  }

  function Under<R>(t: Table<R>, parents: set<string>): set<string> {
    set id | id in t && t[id].parent in parents
  }

  lemma UnderOthers<R>(t: Table<R>, parents: set<string>, q: string)
    requires q !in parents
    ensures Children(t - Under(t, parents), q) == Children(t, q)
  {
  }

  lemma DeleteKeepsContract(t: Tables, id: string, c: string)
    requires c in t.contracts && t.contracts[c].parent != id
    ensures var t' := DeleteListener(t, id);
            && LoadEvents(t', c) == LoadEvents(t, c)
            && LoadWebhooks(t'.contractHooks, c) == LoadWebhooks(t.contractHooks, c)
  {
    var t' := DeleteListener(t, id);
    var contracts := Children(t.contracts, id).Keys;
    var events := Under(t.events, contracts);
    UnderOthers(t.contractHooks, contracts, c);
    UnderOthers(t.events, contracts, c);
    QueryIsRows(Children(t.events, c));
    var rows := Query(t.events, c);
    var a, b := LoadEvents(t, c), LoadEvents(t', c);
    forall i | 0 <= i < |rows| ensures b[i] == a[i] {
      assert rows[i].0 in Children(t.events, c);
      UnderOthers(t.eventHooks, events, rows[i].0);
    }
  }

  lemma DeleteKeepsOthers(t: Tables, id: string, q: string)
    requires q != id
    ensures LoadListener(DeleteListener(t, id), q) == LoadListener(t, q)
  {
    var t' := DeleteListener(t, id);
    assert Children(t'.chainHooks, q) == Children(t.chainHooks, q);
    assert Children(t'.contracts, q) == Children(t.contracts, q);
    QueryIsRows(Children(t.contracts, q));
    var rows := Query(t.contracts, q);
    var a, b := LoadContracts(t, q), LoadContracts(t', q);
    forall i | 0 <= i < |rows| ensures b[i] == a[i] {
      assert rows[i].0 in Children(t.contracts, q);
      DeleteKeepsContract(t, id, rows[i].0);
    }
    assert b == a;
  }

  lemma DeleteKeepsForeignKeys(t: Tables, id: string)
    requires ForeignKeys(t)
    ensures ForeignKeys(DeleteListener(t, id))
  {
  }

  function HooksCreated(t: Table<WebhookRow>): map<string, int> {
    map id | id in t :: t[id].row.times.created
  }

  /** The creation times of every stored id: one map, filled table after table. */
  function CreationTimes(t: Tables): map<string, int> {
    (map id | id in t.listeners :: t.listeners[id].times.created)
    + (map id | id in t.contracts :: t.contracts[id].row.times.created)
    + (map id | id in t.events :: t.events[id].row.times.created)
    + HooksCreated(t.chainHooks) + HooksCreated(t.contractHooks) + HooksCreated(t.eventHooks)
  }

  /** ReplaceRPCListenerAudited, inside its transaction. */
  function Replace(t: Tables, l: C.Listener, now: int): Option<Tables> {
    if l.id !in t.listeners then None
    else PutListener(DeleteListener(t, l.id), Clock(CreationTimes(t), now), l)
  }

  /**
   A replaced listener loads back as the same aggregate in the same order, with the creation times that
   CreationTimeKeptIff describes; every other listener loads as before; and the tables stay consistent.
   */
  lemma ReplaceThenLoad(t: Tables, l: C.Listener, now: int, t': Tables)
    requires ForeignKeys(t) && Replace(t, l, now) == Some(t')
    ensures LoadListener(t', l.id) == Some(ListenerBack(Clock(CreationTimes(t), now), l))
    ensures forall q | q != l.id :: LoadListener(t', q) == LoadListener(t, q)
    ensures ForeignKeys(t')
  {
    var k := Clock(CreationTimes(t), now);
    DeleteKeepsForeignKeys(t, l.id);
    PutListenerAdds(DeleteListener(t, l.id), k, l, t');
    forall q | q != l.id ensures LoadListener(t', q) == LoadListener(t, q) {
      DeleteKeepsOthers(t, l.id, q);
    }
  }

  // ------------------------------------------------------- creation times

  const TABLES := 6

  /** The stored creation time of an id in one of the six tables, numbered as the transaction reads them. */
  function Created(t: Tables, table: nat, id: string): Option<int> {
    match table
    case 0 => if id in t.listeners then Some(t.listeners[id].times.created) else None
    case 1 => if id in t.contracts then Some(t.contracts[id].row.times.created) else None
    case 2 => if id in t.events then Some(t.events[id].row.times.created) else None
    case 3 => if id in t.chainHooks then Some(t.chainHooks[id].row.times.created) else None
    case 4 => if id in t.contractHooks then Some(t.contractHooks[id].row.times.created) else None
    case 5 => if id in t.eventHooks then Some(t.eventHooks[id].row.times.created) else None
    case _ => None
  }

  predicate Known(t: Tables, id: string) {
    || id in t.listeners || id in t.contracts || id in t.events
    || id in t.chainHooks || id in t.contractHooks || id in t.eventHooks
  }

  /** The last table read that holds the id. */
  function LastHolder(t: Tables, id: string): (table: nat)
    requires Known(t, id)
    ensures table < TABLES && Created(t, table, id).Some?
    ensures forall later | table < later < TABLES :: Created(t, later, id).None?
  {
    if id in t.eventHooks then 5
    else if id in t.contractHooks then 4
    else if id in t.chainHooks then 3
    else if id in t.events then 2
    else if id in t.contracts then 1
    else 0
  }

  /** One map serves all kinds: the last table read wins. */
  lemma CreationTimesAreTheLast(t: Tables, id: string)
    ensures id in CreationTimes(t) <==> Known(t, id)
    ensures Known(t, id) ==> Some(CreationTimes(t)[id]) == Created(t, LastHolder(t, id), id)
  {
  }

  /** Rows change only by being added, each with the time of its id. */
  ghost predicate Grows(t: Tables, t': Tables, k: Clock) {
    forall table: nat, id :: table < TABLES ==> RowGrows(t, t', k, table, id)
  }

  ghost predicate RowGrows(t: Tables, t': Tables, k: Clock, table: nat, id: string) {
    || Created(t', table, id) == Created(t, table, id)
    || (Created(t, table, id).None? && Created(t', table, id) == Some(CreationTime(k.created, id, k.now)))
  }

  lemma GrowsOn(t: Tables, m: Tables, t': Tables, k: Clock)
    requires Grows(t, m, k) && Grows(m, t', k)
    ensures Grows(t, t', k)
  {
    forall table: nat, id | table < TABLES ensures RowGrows(t, t', k, table, id) {
      assert RowGrows(t, m, k, table, id) && RowGrows(m, t', k, table, id);
    }
  }

  /** Inserted rows carry the time of their id. */
  ghost predicate Stamped<R>(t: Table<R>, t': Table<R>, time: R -> int, k: Clock) {
    && (forall id | id in t :: id in t' && t'[id] == t[id])
    && (forall id | id in t' && id !in t :: time(t'[id].row) == CreationTime(k.created, id, k.now))
  }

  lemma HooksAreStamped(t: Table<WebhookRow>, k: Clock, parent: string, ws: seq<C.Webhook>, t': Table<WebhookRow>)
    requires PutAll(t, parent, HookRows(k, ws)) == Some(t')
    ensures Stamped(t, t', (r: WebhookRow) => r.times.created, k)
  {
    PutAllAdds(t, parent, HookRows(k, ws), t');
  }

  lemma PutEventGrows(t: Tables, k: Clock, contract: string, position: nat, e: C.Event, t': Tables)
    requires PutEvent(t, k, contract, position, e) == Some(t')
    ensures Grows(t, t', k)
  {
    HooksAreStamped(t.eventHooks, k, e.id, e.webhooks, t'.eventHooks);
    forall table: nat, id | table < TABLES ensures RowGrows(t, t', k, table, id) {
      if table == 5 && id in t.eventHooks { assert t'.eventHooks[id] == t.eventHooks[id]; }
    }
  }

  lemma {:induction false} PutEventsGrow(t: Tables, k: Clock, contract: string, es: seq<C.Event>, t': Tables)
    requires PutEvents(t, k, contract, es) == Some(t')
    ensures Grows(t, t', k)
    decreases |es|
  {
    if es == [] {
      forall table: nat, id | table < TABLES ensures RowGrows(t, t', k, table, id) {}
    } else {
      var n := |es| - 1;
      var before := PutEvents(t, k, contract, es[..n]).value;
      PutEventsGrow(t, k, contract, es[..n], before);
      PutEventGrows(before, k, contract, n, es[n], t');
      GrowsOn(t, before, t', k);
    }
  }

  lemma PutContractGrows(t: Tables, k: Clock, listener: string, position: nat, c: C.Contract, t': Tables)
    requires PutContract(t, k, listener, position, c) == Some(t')
    ensures Grows(t, t', k)
  {
    var contracts := PutOne(t.contracts, listener, position, ContractPair(k, c)).value;
    var hooks := PutAll(t.contractHooks, c.id, HookRows(k, c.webhooks)).value;
    var mid := t.(contracts := contracts, contractHooks := hooks);
    HooksAreStamped(t.contractHooks, k, c.id, c.webhooks, hooks);
    forall table: nat, id | table < TABLES ensures RowGrows(t, mid, k, table, id) {
      if table == 4 && id in t.contractHooks { assert mid.contractHooks[id] == t.contractHooks[id]; }
    }
    PutEventsGrow(mid, k, c.id, c.events, t');
    GrowsOn(t, mid, t', k);
  }

  lemma {:induction false} PutContractsGrow(t: Tables, k: Clock, listener: string, cs: seq<C.Contract>, t': Tables)
    requires PutContracts(t, k, listener, cs) == Some(t')
    ensures Grows(t, t', k)
    decreases |cs|
  {
    if cs == [] {
      forall table: nat, id | table < TABLES ensures RowGrows(t, t', k, table, id) {}
    } else {
      var n := |cs| - 1;
      var before := PutContracts(t, k, listener, cs[..n]).value;
      PutContractsGrow(t, k, listener, cs[..n], before);
      PutContractGrows(before, k, listener, n, cs[n], t');
      GrowsOn(t, before, t', k);
    }
  }

  lemma PutListenerGrows(t: Tables, k: Clock, l: C.Listener, t': Tables)
    requires PutListener(t, k, l) == Some(t')
    ensures Grows(t, t', k)
  {
    var hooks := PutAll(t.chainHooks, l.id, HookRows(k, l.webhooks)).value;
    var row := ListenerRow(l.settings, Locator(l.url, l.urlRef), l.rpcAuth, Stamp(k.created, l.id, k.now));
    var mid := t.(listeners := t.listeners[l.id := row], chainHooks := hooks);
    HooksAreStamped(t.chainHooks, k, l.id, l.webhooks, hooks);
    forall table: nat, id | table < TABLES ensures RowGrows(t, mid, k, table, id) {
      if table == 3 && id in t.chainHooks { assert mid.chainHooks[id] == t.chainHooks[id]; }
    }
    PutContractsGrow(mid, k, l.id, l.contracts, t');
    GrowsOn(t, mid, t', k);
  }

  lemma DeleteKeepsTimes(t: Tables, id: string, table: nat, x: string)
    ensures Created(DeleteListener(t, id), table, x).Some? ==>
              Created(DeleteListener(t, id), table, x) == Created(t, table, x)
  {
  }

  /** The time a replacement gives to an id: that of the last table that holds it, if there is a nonzero one. */
  function GivenTime(t: Tables, id: string, now: int): int {
    if !Known(t, id) then now
    else
      var last := Created(t, LastHolder(t, id), id).value;
      if last != 0 then last else now
  }

  lemma CreationTimeIsGiven(t: Tables, id: string, now: int)
    ensures CreationTime(CreationTimes(t), id, now) == GivenTime(t, id, now)
  {
    CreationTimesAreTheLast(t, id);
  }

  /** A row is as before, or it is reinserted with the time given to its id. */
  lemma ReplacedRow(t: Tables, l: C.Listener, now: int, t': Tables, table: nat, id: string)
    requires Replace(t, l, now) == Some(t') && table < TABLES && Created(t', table, id).Some?
    ensures Created(t', table, id) ==
            if Created(DeleteListener(t, l.id), table, id).Some? then Created(t, table, id)
            else Some(GivenTime(t, id, now))
  {
    var k, rest := Clock(CreationTimes(t), now), DeleteListener(t, l.id);
    PutListenerGrows(rest, k, l, t');
    assert RowGrows(rest, t', k, table, id);
    DeleteKeepsTimes(t, l.id, table, id);
    CreationTimeIsGiven(t, id, now);
  }

  lemma HeldIsKnown(t: Tables, table: nat, id: string)
    requires Created(t, table, id).Some?
    ensures Known(t, id) && table < TABLES
  {
  }

  /**
   A row that survives a replacement keeps its creation time if and only if it belongs to another listener, or
   the last table that holds its id holds this time; an id seen in no table gets the current time.
   */
  lemma CreationTimeKeptIff(t: Tables, l: C.Listener, now: int, t': Tables, table: nat, id: string)
    requires Replace(t, l, now) == Some(t') && table < TABLES && Created(t', table, id).Some?
    ensures Created(t, table, id).Some? ==>
              (Created(t', table, id) == Created(t, table, id) <==>
               Created(DeleteListener(t, l.id), table, id).Some?
               || Created(t, table, id) == Some(GivenTime(t, id, now)))
    ensures !Known(t, id) ==> Created(t', table, id) == Some(now)
  {
    ReplacedRow(t, l, now, t', table, id);
    DeleteKeepsTimes(t, l.id, table, id);
    if Created(DeleteListener(t, l.id), table, id).Some? {
      HeldIsKnown(t, table, id);
    }
  }

  /** Rows of any kind that share an id share a nonzero time. */
  ghost predicate SharedTimes(t: Tables) {
    forall table: nat, id | table < TABLES && Created(t, table, id).Some? ::
      Known(t, id) && Created(t, table, id) == Created(t, LastHolder(t, id), id) && Created(t, table, id) != Some(0)
  }

  /** Every surviving row keeps its creation time, and every new id gets the current time. */
  ghost predicate TimesKept(t: Tables, t': Tables, now: int) {
    forall table: nat, id | table < TABLES && Created(t', table, id).Some? ::
      && (Created(t, table, id).Some? ==> Created(t', table, id) == Created(t, table, id))
      && (!Known(t, id) ==> Created(t', table, id) == Some(now))
  }

  /** With shared times, a surviving row has the time given to its id. */
  lemma SharedTimeIsGiven(t: Tables, l: C.Listener, now: int, t': Tables, table: nat, id: string)
    requires Replace(t, l, now) == Some(t') && SharedTimes(t) && table < TABLES && Created(t', table, id).Some?
    ensures Created(t', table, id) == Some(GivenTime(t, id, now))
    ensures Created(t, table, id).Some? ==> Created(t, table, id) == Some(GivenTime(t, id, now))
  {
    ReplacedRow(t, l, now, t', table, id);
    DeleteKeepsTimes(t, l.id, table, id);
    if Created(t, table, id).Some? {
      HeldIsKnown(t, table, id);
    }
  }

  lemma GivenTimeIsNonzero(t: Tables, id: string, now: int)
    requires now != 0
    ensures GivenTime(t, id, now) != 0 && (!Known(t, id) ==> GivenTime(t, id, now) == now)
  {
  }

  /** Where rows that share an id share a time, replacing keeps all creation times, and keeps this so. */
  lemma SharedTimesAreKept(t: Tables, l: C.Listener, now: int, t': Tables)
    requires Replace(t, l, now) == Some(t') && SharedTimes(t) && now != 0
    ensures TimesKept(t, t', now) && SharedTimes(t')
  {
    forall table: nat, id | table < TABLES && Created(t', table, id).Some?
      ensures Created(t', table, id) == Some(GivenTime(t, id, now)) && GivenTime(t, id, now) != 0 && Known(t', id)
      ensures Created(t, table, id).Some? ==> Created(t, table, id) == Some(GivenTime(t, id, now))
      ensures !Known(t, id) ==> GivenTime(t, id, now) == now
    {
      SharedTimeIsGiven(t, l, now, t', table, id);
      GivenTimeIsNonzero(t, id, now);
      HeldIsKnown(t', table, id);
    }
  }

  // ------------------------------------------------ a creation time that is lost

  const PLAIN := C.Settings("", false, 1, 0, 1, 1, 0, 1, 1, 1, 1, "", "", false)

  /** Listener "b" has a contract whose id is that of listener "a". */
  const MIXED_KINDS := Tables(
    map["a" := ListenerRow(PLAIN, "u", C.NO_RPC_AUTHENTICATION, C.Times(1, 1)),
        "b" := ListenerRow(PLAIN, "u", C.NO_RPC_AUTHENTICATION, C.Times(1, 1))],
    map["a" := Placed("b", 0, ContractRow("0", "", C.Times(5, 5)))], map[], map[], map[], map[])

  /** Nothing keeps the ids of different kinds apart: listener "a" loses its time to the contract of listener "b". */
  lemma CreationTimeIsLost()
    ensures ForeignKeys(MIXED_KINDS)
    ensures var l := C.Listener("a", PLAIN, "u", "", C.NO_RPC_AUTHENTICATION, [], [], C.NO_TIMES);
            exists t' :: Replace(MIXED_KINDS, l, 9) == Some(t')
                         && MIXED_KINDS.listeners["a"].times.created == 1 && Created(t', 0, "a") == Some(5)
  {
    var t := MIXED_KINDS;
    var l := C.Listener("a", PLAIN, "u", "", C.NO_RPC_AUTHENTICATION, [], [], C.NO_TIMES);
    var rest := DeleteListener(t, "a");
    assert "a" !in rest.listeners;
    var k := Clock(CreationTimes(t), 9);
    assert PutAll(rest.chainHooks, "a", HookRows(k, l.webhooks)) == Some(rest.chainHooks);
    var t' := Replace(t, l, 9).value;
    CreationTimeIsGiven(t, "a", 9);
    assert t'.listeners["a"].times.created == 5;
  }

  // ------------------------------------------- when the split is restored too

  /** The aggregate updated now, with the creation times of its ids, and nothing else changed. */
  function WebhookStamped(k: Clock, w: C.Webhook): C.Webhook {
    w.(times := C.Times(CreationTime(k.created, w.id, k.now), k.now))
  }

  function WebhooksStamped(k: Clock, ws: seq<C.Webhook>): seq<C.Webhook> {
    Map(w => WebhookStamped(k, w), ws)
  }

  function EventStamped(k: Clock, e: C.Event): C.Event {
    e.(webhooks := WebhooksStamped(k, e.webhooks), times := C.Times(CreationTime(k.created, e.id, k.now), k.now))
  }

  function ContractStamped(k: Clock, c: C.Contract): C.Contract {
    c.(webhooks := WebhooksStamped(k, c.webhooks), events := Map(e => EventStamped(k, e), c.events),
       times := C.Times(CreationTime(k.created, c.id, k.now), k.now))
  }

  function ListenerStamped(k: Clock, l: C.Listener): C.Listener {
    l.(webhooks := WebhooksStamped(k, l.webhooks), contracts := Map(c => ContractStamped(k, c), l.contracts),
       times := C.Times(CreationTime(k.created, l.id, k.now), k.now))
  }

  predicate RestorableHooks(ws: seq<C.Webhook>) {
    forall w | w in ws :: Restorable(w.url, w.urlRef)
  }

  predicate RestorableContract(c: C.Contract) {
    RestorableHooks(c.webhooks) && forall e | e in c.events :: RestorableHooks(e.webhooks)
  }

  predicate RestorableListener(l: C.Listener) {
    Restorable(l.url, l.urlRef) && RestorableHooks(l.webhooks) && forall c | c in l.contracts :: RestorableContract(c)
  }

  lemma HooksRestoredIff(k: Clock, ws: seq<C.Webhook>)
    ensures WebhooksBack(k, ws) == WebhooksStamped(k, ws) <==> RestorableHooks(ws)
  {
    MapsAgreeIff(w => WebhookBack(k, w), w => WebhookStamped(k, w), ws);
    forall w ensures WebhookBack(k, w) == WebhookStamped(k, w) <==> Restorable(w.url, w.urlRef) {
      SplitRestoredIff(w.url, w.urlRef);
    }
  }

  lemma EventsRestoredIff(k: Clock, es: seq<C.Event>)
    ensures Map(e => EventBack(k, e), es) == Map(e => EventStamped(k, e), es) <==>
            forall e | e in es :: RestorableHooks(e.webhooks)
  {
    MapsAgreeIff(e => EventBack(k, e), e => EventStamped(k, e), es);
    forall e: C.Event ensures EventBack(k, e) == EventStamped(k, e) <==> RestorableHooks(e.webhooks) {
      HooksRestoredIff(k, e.webhooks);
    }
  }

  lemma ContractRestoredIff(k: Clock, c: C.Contract)
    ensures ContractBack(k, c) == ContractStamped(k, c) <==> RestorableContract(c)
  {
    HooksRestoredIff(k, c.webhooks);
    EventsRestoredIff(k, c.events);
  }

  /** The aggregate comes back with only its timestamps changed iff every locator in it is restorable. */
  lemma ListenerRestoredIff(k: Clock, l: C.Listener)
    ensures ListenerBack(k, l) == ListenerStamped(k, l) <==> RestorableListener(l)
  {
    SplitRestoredIff(l.url, l.urlRef);
    HooksRestoredIff(k, l.webhooks);
    MapsAgreeIff(c => ContractBack(k, c), c => ContractStamped(k, c), l.contracts);
    forall c ensures ContractBack(k, c) == ContractStamped(k, c) <==> RestorableContract(c) {
      ContractRestoredIff(k, c);
    }
  }

  // ------------------------------------------------------ validated locators

  predicate EnvironmentName(s: string) {
    && s != "" && (s[0] == '_' || 'A' <= s[0] <= 'Z' || 'a' <= s[0] <= 'z')
    && forall c | c in s :: c == '_' || 'A' <= c <= 'Z' || 'a' <= c <= 'z' || '0' <= c <= '9'
  }

  /** An absolute path; a leading slash before a drive letter is dropped first. */
  predicate AbsolutePath(s: string) {
    var key := if |s| >= 3 && s[0] == '/' && s[2] == ':' then s[1..] else s;
    HasPrefix(key, "/")
  }

  /** secrets.ValidateReference */
  predicate ValidReference(s: string) {
    if HasPrefix(s, "env://") then EnvironmentName(s[6..])
    else HasPrefix(s, "file://") && AbsolutePath(s[7..])
  }

  /** What the store checks of a locator: exactly one of URL and reference, and a well-formed reference. */
  predicate ValidLocator(url: string, urlRef: string) {
    (url == "") != (urlRef == "") && (urlRef != "" ==> ValidReference(urlRef))
  }

  predicate ValidHooks(ws: seq<C.Webhook>) {
    forall w | w in ws :: ValidLocator(w.url, w.urlRef)
  }

  predicate ValidLocators(l: C.Listener) {
    && ValidLocator(l.url, l.urlRef) && ValidHooks(l.webhooks)
    && forall c | c in l.contracts :: ValidHooks(c.webhooks) && forall e | e in c.events :: ValidHooks(e.webhooks)
  }

  predicate DirectHooks(ws: seq<C.Webhook>) {
    forall w | w in ws :: !IsReference(w.url)
  }

  /** No direct URL anywhere in the aggregate looks like a reference. */
  predicate NoDisguise(l: C.Listener) {
    && !IsReference(l.url) && DirectHooks(l.webhooks)
    && forall c | c in l.contracts :: DirectHooks(c.webhooks) && forall e | e in c.events :: DirectHooks(e.webhooks)
  }

  lemma ValidRestorableIff(url: string, urlRef: string)
    requires ValidLocator(url, urlRef)
    ensures Restorable(url, urlRef) <==> !IsReference(url)
  {
  }

  lemma HooksRestorableIff(ws: seq<C.Webhook>)
    requires ValidHooks(ws)
    ensures RestorableHooks(ws) <==> DirectHooks(ws)
  {
    forall w | w in ws ensures Restorable(w.url, w.urlRef) <==> !IsReference(w.url) {
      ValidRestorableIff(w.url, w.urlRef);
    }
  }

  /** A validated listener comes back with only new timestamps iff no direct URL in it looks like a reference. */
  lemma ValidatedComesBackIff(k: Clock, l: C.Listener)
    requires ValidLocators(l)
    ensures ListenerBack(k, l) == ListenerStamped(k, l) <==> NoDisguise(l)
  {
    ListenerRestoredIff(k, l);
    ValidRestorableIff(l.url, l.urlRef);
    HooksRestorableIff(l.webhooks);
    forall c | c in l.contracts
      ensures RestorableContract(c) <==> DirectHooks(c.webhooks) && forall e | e in c.events :: DirectHooks(e.webhooks)
    {
      HooksRestorableIff(c.webhooks);
      forall e | e in c.events ensures RestorableHooks(e.webhooks) <==> DirectHooks(e.webhooks) {
        HooksRestorableIff(e.webhooks);
      }
    }
  }

  const DISGUISED := C.Listener("a", PLAIN, "env://NODE", "", C.NO_RPC_AUTHENTICATION, [], [], C.NO_TIMES)

  const ONE_LISTENER := Tables(
    map["a" := ListenerRow(PLAIN, "u", C.NO_RPC_AUTHENTICATION, C.Times(1, 1))], map[], map[], map[], map[], map[])

  /** The store validates, replaces and loads a listener whose direct URL comes back as a reference. */
  lemma UrlBecomesReference()
    ensures ForeignKeys(ONE_LISTENER) && ValidLocators(DISGUISED) && Replace(ONE_LISTENER, DISGUISED, 9).Some?
    ensures var back := LoadListener(Replace(ONE_LISTENER, DISGUISED, 9).value, "a");
            back.Some? && back.value.url == "" && back.value.urlRef == "env://NODE"
  {
    assert HasPrefix("env://NODE", "env://");
    var t, l := ONE_LISTENER, DISGUISED;
    var rest, k := DeleteListener(t, "a"), Clock(CreationTimes(t), 9);
    assert PutAll(rest.chainHooks, "a", HookRows(k, l.webhooks)) == Some(rest.chainHooks);
    ReplaceThenLoad(t, l, 9, Replace(t, l, 9).value);
  }
}

/** The configuration tables with their revision: one compare-and-swap transaction per mutation. */
module ListenerStore {
  import opened Common
  import opened ChildRows
  import opened ListenerRows
  import opened ListenerChecks
  import opened Lists
  import C = Configuration
  import R = Records

  method InsertWebhooks(t: Table<WebhookRow>, k: Clock, parent: string, webhooks: seq<C.Webhook>)
    returns (r: Option<Table<WebhookRow>>)
    ensures r == PutAll(t, parent, HookRows(k, webhooks))
  {
    var table := t;
    ghost var rows := HookRows(k, webhooks);
    for i := 0 to |webhooks|
      invariant PutAll(t, parent, rows[..i]) == Some(table)
    {
      assert rows[..i + 1][..i] == rows[..i];
      var w := webhooks[i];
      if w.id in table {
        PutAllFailsLater(t, parent, rows, i + 1);
        return None;
      }
      var row := WebhookRow(Locator(w.url, w.urlRef), w.auth, Stamp(k.created, w.id, k.now));
      table := table[w.id := Placed(parent, i, row)];
    }
    assert rows[..|rows|] == rows;
    r := Some(table);
  }

  lemma {:induction false} PutAllFailsLater<T>(t: Table<T>, parent: string, xs: seq<(string, T)>, n: nat)
    requires n <= |xs| && PutAll(t, parent, xs[..n]).None?
    ensures PutAll(t, parent, xs).None?
    decreases |xs|
  {
    if n == |xs| {
      assert xs[..n] == xs;
    } else {
      var m := |xs| - 1;
      assert xs[..m][..n] == xs[..n];
      PutAllFailsLater(t, parent, xs[..m], n);
    }
  }

  method InsertEvents(t: Tables, k: Clock, contract: string, events: seq<C.Event>) returns (r: Option<Tables>)
    ensures r == PutEvents(t, k, contract, events)
  {
    var tx := t;
    for i := 0 to |events|
      invariant PutEvents(t, k, contract, events[..i]) == Some(tx)
    {
      assert events[..i + 1][..i] == events[..i];
      var e := events[i];
      if e.id in tx.events {
        EventsFailLater(t, k, contract, events, i + 1);
        return None;
      }
      var hooks := InsertWebhooks(tx.eventHooks, k, e.id, e.webhooks);
      if hooks.None? {
        EventsFailLater(t, k, contract, events, i + 1);
        return None;
      }
      var row := EventRow(e.selector, Stamp(k.created, e.id, k.now));
      tx := tx.(events := tx.events[e.id := Placed(contract, i, row)], eventHooks := hooks.value);
    }
    assert events[..|events|] == events;
    r := Some(tx);
  }

  lemma {:induction false} EventsFailLater(t: Tables, k: Clock, contract: string, es: seq<C.Event>, n: nat)
    requires n <= |es| && PutEvents(t, k, contract, es[..n]).None?
    ensures PutEvents(t, k, contract, es).None?
    decreases |es|
  {
    if n == |es| {
      assert es[..n] == es;
    } else {
      var m := |es| - 1;
      assert es[..m][..n] == es[..n];
      EventsFailLater(t, k, contract, es[..m], n);
    }
  }

  method InsertContracts(t: Tables, k: Clock, listener: string, contracts: seq<C.Contract>) returns (r: Option<Tables>)
    ensures r == PutContracts(t, k, listener, contracts)
  {
    var tx := t;
    for i := 0 to |contracts|
      invariant PutContracts(t, k, listener, contracts[..i]) == Some(tx)
    {
      assert contracts[..i + 1][..i] == contracts[..i];
      var one := InsertContract(tx, k, listener, i, contracts[i]);
      if one.None? {
        ContractsFailLater(t, k, listener, contracts, i + 1);
        return None;
      }
      tx := one.value;
    }
    assert contracts[..|contracts|] == contracts;
    r := Some(tx);
  }

  method InsertContract(t: Tables, k: Clock, listener: string, position: nat, c: C.Contract) returns (r: Option<Tables>)
    ensures r == PutContract(t, k, listener, position, c)
  {
    if c.id in t.contracts {
      return None;
    }
    var row := ContractRow(c.address, c.abi, Stamp(k.created, c.id, k.now));
    var hooks := InsertWebhooks(t.contractHooks, k, c.id, c.webhooks);
    if hooks.None? {
      return None;
    }
    var contracts := t.contracts[c.id := Placed(listener, position, row)];
    r := InsertEvents(t.(contracts := contracts, contractHooks := hooks.value), k, c.id, c.events);
  }

  lemma ContractsFailNext(t: Tables, k: Clock, listener: string, cs: seq<C.Contract>, n: nat)
    requires n < |cs| && PutContracts(t, k, listener, cs[..n]).None?
    ensures PutContracts(t, k, listener, cs[..n + 1]).None?
  {
    assert cs[..n + 1][..n] == cs[..n];
  }

  lemma {:induction false} ContractsFailLater(t: Tables, k: Clock, listener: string, cs: seq<C.Contract>, n: nat)
    requires n <= |cs| && PutContracts(t, k, listener, cs[..n]).None?
    ensures PutContracts(t, k, listener, cs).None?
    decreases |cs| - n
  {
    if n == |cs| {
      assert cs[..n] == cs;
    } else {
      ContractsFailNext(t, k, listener, cs, n);
      ContractsFailLater(t, k, listener, cs, n + 1);
    }
  }

  class Configurations {
    var tables: Tables
    var revision: nat

    constructor ()
      ensures revision == 0 && ForeignKeys(tables) && SharedTimes(tables) && tables.listeners == map[]
    {
      tables, revision := Tables(map[], map[], map[], map[], map[], map[]), 0;
    }

    /** Insert a listener's row and everything under it into a transaction's tables. */
    method InsertListener(t: Tables, k: Clock, l: C.Listener) returns (r: Option<Tables>)
      ensures r == PutListener(t, k, l)
    {
      if l.id in t.listeners {
        return None;
      }
      var row := ListenerRow(l.settings, Locator(l.url, l.urlRef), l.rpcAuth, Stamp(k.created, l.id, k.now));
      var hooks := InsertWebhooks(t.chainHooks, k, l.id, l.webhooks);
      if hooks.None? {
        return None;
      }
      r := InsertContracts(t.(listeners := t.listeners[l.id := row], chainHooks := hooks.value), k, l.id, l.contracts);
    }

    /**
     Replace one aggregate prepared at `expected`: it commits only at that revision, raises it by one, and
     then loads back as given, with every other listener as before.
     */
    method ReplaceRPCListener(l: C.Listener, expected: nat, now: int) returns (r: Result<nat, R.Error>)
      requires ForeignKeys(tables)
      modifies this
      ensures ForeignKeys(tables)
      ensures r.Ok? <==>
                ValidLocators(l) && old(revision) == expected <= MAX_INT64 && Replaceable(old(tables), l)
      ensures r.Err? ==> tables == old(tables) && revision == old(revision)
      ensures r.Ok? ==>
                && revision == r.value == old(revision) + 1 && Replace(old(tables), l, now) == Some(tables)
                && LoadListener(tables, l.id) == Some(ListenerBack(Clock(CreationTimes(old(tables)), now), l))
                && forall q | q != l.id :: LoadListener(tables, q) == LoadListener(old(tables), q)
      ensures r.Ok? && SharedTimes(old(tables)) && now != 0 ==>
                TimesKept(old(tables), tables, now) && SharedTimes(tables)
    {
      var valid := CheckListener(l);
      if !valid {
        return Err(R.InvalidLocator);
      }
      ReplaceOkIff(tables, l, now);
      if expected > MAX_INT64 {
        return Err(R.OutOfRange);
      }
      if revision != expected {
        return Err(R.RevisionConflict);
      }
      if l.id !in tables.listeners {
        return Err(R.NotFound);
      }
      var tx := InsertListener(DeleteListener(tables, l.id), Clock(CreationTimes(tables), now), l);
      if tx.None? {
        return Err(R.InvalidId);
      }
      ReplaceThenLoad(tables, l, now, tx.value);
      if SharedTimes(tables) && now != 0 {
        SharedTimesAreKept(tables, l, now, tx.value);
      }
      tables, revision := tx.value, revision + 1;
      r := Ok(revision);
    }
  }
}
