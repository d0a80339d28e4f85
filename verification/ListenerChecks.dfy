/** The checks a replacement makes: well-formed locators, and ids that no other row holds. */
module ListenerChecks {
  import opened ChildRows
  import opened ListenerRows
  import C = Configuration

  // ---------------------------------------------------------------- locators

  method CheckEnvironmentName(s: string) returns (ok: bool)
    ensures ok <==> EnvironmentName(s)
  {
    if s == "" || '0' <= s[0] <= '9' {
      return false;
    }
    for i := 0 to |s|
      invariant forall j | 0 <= j < i ::
                  s[j] == '_' || 'A' <= s[j] <= 'Z' || 'a' <= s[j] <= 'z' || '0' <= s[j] <= '9'
    {
      assert s[i] in s;
      if !(s[i] == '_' || 'A' <= s[i] <= 'Z' || 'a' <= s[i] <= 'z' || '0' <= s[i] <= '9') {
        return false;
      }
    }
    ok := true;
  }

  method CheckReference(s: string) returns (ok: bool)
    ensures ok <==> ValidReference(s)
  {
    if HasPrefix(s, "env://") {
      ok := CheckEnvironmentName(s[6..]);
    } else if HasPrefix(s, "file://") {
      var key := s[7..];
      if |key| >= 3 && key[0] == '/' && key[2] == ':' {
        key := key[1..];
      }
      ok := key != "" && key[0] == '/';
    } else {
      ok := false;
    }
  }

  method CheckLocator(url: string, urlRef: string) returns (ok: bool)
    ensures ok <==> ValidLocator(url, urlRef)
  {
    ok := true;
    if url == "" {
      if urlRef == "" {
        return false;
      }
      ok := CheckReference(urlRef);
    } else if urlRef != "" {
      return false;
    }
  }

  method CheckWebhooks(webhooks: seq<C.Webhook>) returns (ok: bool)
    ensures ok <==> ValidHooks(webhooks)
  {
    for i := 0 to |webhooks|
      invariant forall j | 0 <= j < i :: ValidLocator(webhooks[j].url, webhooks[j].urlRef)
    {
      ok := CheckLocator(webhooks[i].url, webhooks[i].urlRef);
      if !ok {
        return;
      }
    }
    ok := true;
  }

  predicate ValidContract(c: C.Contract) {
    ValidHooks(c.webhooks) && forall e | e in c.events :: ValidHooks(e.webhooks)
  }

  method CheckContract(c: C.Contract) returns (ok: bool)
    ensures ok <==> ValidContract(c)
  {
    ok := CheckWebhooks(c.webhooks);
    if !ok {
      return;
    }
    for i := 0 to |c.events|
      invariant forall j | 0 <= j < i :: ValidHooks(c.events[j].webhooks)
    {
      ok := CheckWebhooks(c.events[i].webhooks);
      if !ok {
        return;
      }
    }
    ok := true;
  }

  /** The locator checks of validateStoredListener. */
  method CheckListener(l: C.Listener) returns (ok: bool)
    ensures ok <==> ValidLocators(l)
  {
    ok := CheckLocator(l.url, l.urlRef);
    if !ok {
      return;
    }
    ok := CheckWebhooks(l.webhooks);
    if !ok {
      return;
    }
    for i := 0 to |l.contracts|
      invariant forall j | 0 <= j < i :: ValidContract(l.contracts[j])
    {
      ok := CheckContract(l.contracts[i]);
      if !ok {
        return;
      }
    }
    ok := true;
  }

  // -------------------------------------------------------------------- ids

  function Members(ids: seq<string>): set<string> {
    set id | id in ids
  }

  /** The ids are not taken, and none is repeated. */
  predicate Free(taken: set<string>, ids: seq<string>) {
    && (forall id | id in ids :: id !in taken)
    && (forall i, j | 0 <= i < j < |ids| :: ids[i] != ids[j])
  }

  lemma FreeAppend(taken: set<string>, a: seq<string>, b: seq<string>)
    ensures Free(taken, a + b) <==> Free(taken, a) && Free(taken + Members(a), b)
    ensures taken + Members(a + b) == (taken + Members(a)) + Members(b)
  {
    var c := a + b;
    if Free(taken, c) {
      assert forall i | 0 <= i < |a| :: a[i] == c[i];
      assert forall j | 0 <= j < |b| :: b[j] == c[|a| + j];
    }
    if Free(taken, a) && Free(taken + Members(a), b) {
      forall i, j | 0 <= i < j < |c| ensures c[i] != c[j] {
        if i < |a| && |a| <= j { assert a[i] in Members(a) && b[j - |a|] in b; }
      }
    }
  }

  lemma FreeOne(taken: set<string>, id: string)
    ensures Free(taken, [id]) <==> id !in taken
    ensures Members([id]) == {id}
  {
    assert id in [id];
  }

  function HookIds(ws: seq<C.Webhook>): seq<string> {
    seq(|ws|, i requires 0 <= i < |ws| => ws[i].id)
  }

  function EventIds(es: seq<C.Event>): seq<string> {
    if es == [] then [] else EventIds(es[..|es| - 1]) + [es[|es| - 1].id]
  }

  function EventHookIds(es: seq<C.Event>): seq<string> {
    if es == [] then [] else EventHookIds(es[..|es| - 1]) + HookIds(es[|es| - 1].webhooks)
  }

  /** All ids under a list of contracts, by table. */
  datatype Ids = Ids(contracts: seq<string>, events: seq<string>, contractHooks: seq<string>, eventHooks: seq<string>)

  function IdsOf(c: C.Contract): Ids {
    Ids([c.id], EventIds(c.events), HookIds(c.webhooks), EventHookIds(c.events))
  }

  function IdsUnder(cs: seq<C.Contract>): Ids {
    if cs == [] then Ids([], [], [], [])
    else
      var before, last := IdsUnder(cs[..|cs| - 1]), IdsOf(cs[|cs| - 1]);
      Both(before, last)
  }

  function Both(a: Ids, b: Ids): Ids {
    Ids(a.contracts + b.contracts, a.events + b.events, a.contractHooks + b.contractHooks, a.eventHooks + b.eventHooks)
  }

  /** None of the ids is taken in its table or repeated. */
  predicate Fits(contracts: set<string>, events: set<string>, contractHooks: set<string>, eventHooks: set<string>,
                 ids: Ids)
  {
    && Free(contracts, ids.contracts) && Free(events, ids.events)
    && Free(contractHooks, ids.contractHooks) && Free(eventHooks, ids.eventHooks)
  }

  lemma {:induction false} PutAllIff(t: Table<WebhookRow>, k: Clock, parent: string, ws: seq<C.Webhook>)
    ensures PutAll(t, parent, HookRows(k, ws)).Some? <==> Free(t.Keys, HookIds(ws))
    ensures PutAll(t, parent, HookRows(k, ws)).Some? ==>
              PutAll(t, parent, HookRows(k, ws)).value.Keys == t.Keys + Members(HookIds(ws))
    decreases |ws|
  {
    if ws != [] {
      var n := |ws| - 1;
      PutAllIff(t, k, parent, ws[..n]);
      assert HookRows(k, ws)[..n] == HookRows(k, ws[..n]);
      assert HookIds(ws) == HookIds(ws[..n]) + [ws[n].id];
      FreeAppend(t.Keys, HookIds(ws[..n]), [ws[n].id]);
      FreeOne(t.Keys + Members(HookIds(ws[..n])), ws[n].id);
    }
  }

  lemma PutEventIff(t: Tables, k: Clock, contract: string, position: nat, e: C.Event)
    ensures PutEvent(t, k, contract, position, e).Some? <==>
            e.id !in t.events && Free(t.eventHooks.Keys, HookIds(e.webhooks))
    ensures PutEvent(t, k, contract, position, e).Some? ==>
              var t' := PutEvent(t, k, contract, position, e).value;
              && t'.listeners == t.listeners && t'.contracts == t.contracts && t'.chainHooks == t.chainHooks
              && t'.contractHooks == t.contractHooks && t'.events.Keys == t.events.Keys + {e.id}
              && t'.eventHooks.Keys == t.eventHooks.Keys + Members(HookIds(e.webhooks))
  {
    PutAllIff(t.eventHooks, k, e.id, e.webhooks);
  }

  lemma {:induction false} PutEventsIff(t: Tables, k: Clock, contract: string, es: seq<C.Event>)
    ensures PutEvents(t, k, contract, es).Some? <==>
            Free(t.events.Keys, EventIds(es)) && Free(t.eventHooks.Keys, EventHookIds(es))
    ensures PutEvents(t, k, contract, es).Some? ==>
              var t' := PutEvents(t, k, contract, es).value;
              && t'.listeners == t.listeners && t'.contracts == t.contracts && t'.chainHooks == t.chainHooks
              && t'.contractHooks == t.contractHooks && t'.events.Keys == t.events.Keys + Members(EventIds(es))
              && t'.eventHooks.Keys == t.eventHooks.Keys + Members(EventHookIds(es))
    decreases |es|
  {
    if es != [] {
      var n := |es| - 1;
      var e, front := es[n], es[..n];
      PutEventsIff(t, k, contract, front);
      FreeAppend(t.events.Keys, EventIds(front), [e.id]);
      FreeOne(t.events.Keys + Members(EventIds(front)), e.id);
      FreeAppend(t.eventHooks.Keys, EventHookIds(front), HookIds(e.webhooks));
      if PutEvents(t, k, contract, front).Some? {
        PutEventIff(PutEvents(t, k, contract, front).value, k, contract, n, e);
      }
    }
  }

  ghost predicate FitsIn(t: Tables, ids: Ids) {
    Fits(t.contracts.Keys, t.events.Keys, t.contractHooks.Keys, t.eventHooks.Keys, ids)
  }

  /** The tables hold these ids as well. */
  ghost predicate Holds(t: Tables, t': Tables, ids: Ids) {
    && t'.listeners == t.listeners && t'.chainHooks == t.chainHooks
    && t'.contracts.Keys == t.contracts.Keys + Members(ids.contracts)
    && t'.events.Keys == t.events.Keys + Members(ids.events)
    && t'.contractHooks.Keys == t.contractHooks.Keys + Members(ids.contractHooks)
    && t'.eventHooks.Keys == t.eventHooks.Keys + Members(ids.eventHooks)
  }

  lemma PutContractIff(t: Tables, k: Clock, listener: string, position: nat, c: C.Contract)
    ensures PutContract(t, k, listener, position, c).Some? <==> FitsIn(t, IdsOf(c))
    ensures PutContract(t, k, listener, position, c).Some? ==>
              Holds(t, PutContract(t, k, listener, position, c).value, IdsOf(c))
  {
    FreeOne(t.contracts.Keys, c.id);
    PutAllIff(t.contractHooks, k, c.id, c.webhooks);
    if c.id !in t.contracts && PutAll(t.contractHooks, c.id, HookRows(k, c.webhooks)).Some? {
      var contracts := PutOne(t.contracts, listener, position, ContractPair(k, c)).value;
      var hooks := PutAll(t.contractHooks, c.id, HookRows(k, c.webhooks)).value;
      PutEventsIff(t.(contracts := contracts, contractHooks := hooks), k, c.id, c.events);
    }
  }

  lemma FitsAppend(t: Tables, t': Tables, a: Ids, b: Ids)
    requires FitsIn(t, a) && Holds(t, t', a)
    ensures FitsIn(t, Both(a, b)) <==> FitsIn(t', b)
    ensures forall t'' | Holds(t', t'', b) :: Holds(t, t'', Both(a, b))
  {
    FreeAppend(t.contracts.Keys, a.contracts, b.contracts);
    FreeAppend(t.events.Keys, a.events, b.events);
    FreeAppend(t.contractHooks.Keys, a.contractHooks, b.contractHooks);
    FreeAppend(t.eventHooks.Keys, a.eventHooks, b.eventHooks);
  }

  lemma FitsBefore(t: Tables, a: Ids, b: Ids)
    ensures FitsIn(t, Both(a, b)) ==> FitsIn(t, a)
  {
    FreeAppend(t.contracts.Keys, a.contracts, b.contracts);
    FreeAppend(t.events.Keys, a.events, b.events);
    FreeAppend(t.contractHooks.Keys, a.contractHooks, b.contractHooks);
    FreeAppend(t.eventHooks.Keys, a.eventHooks, b.eventHooks);
  }

  lemma {:induction false} PutContractsIff(t: Tables, k: Clock, listener: string, cs: seq<C.Contract>)
    ensures PutContracts(t, k, listener, cs).Some? <==> FitsIn(t, IdsUnder(cs))
    ensures PutContracts(t, k, listener, cs).Some? ==>
              Holds(t, PutContracts(t, k, listener, cs).value, IdsUnder(cs))
    decreases |cs|
  {
    if cs != [] {
      var n := |cs| - 1;
      var c, front := cs[n], cs[..n];
      PutContractsIff(t, k, listener, front);
      FitsBefore(t, IdsUnder(front), IdsOf(c));
      if PutContracts(t, k, listener, front).Some? {
        var before := PutContracts(t, k, listener, front).value;
        PutContractIff(before, k, listener, n, c);
        FitsAppend(t, before, IdsUnder(front), IdsOf(c));
      }
    }
  }

  lemma PutListenerIff(t: Tables, k: Clock, l: C.Listener)
    ensures PutListener(t, k, l).Some? <==>
            && l.id !in t.listeners && Free(t.chainHooks.Keys, HookIds(l.webhooks))
            && FitsIn(t, IdsUnder(l.contracts))
  {
    PutAllIff(t.chainHooks, k, l.id, l.webhooks);
    if l.id !in t.listeners && PutAll(t.chainHooks, l.id, HookRows(k, l.webhooks)).Some? {
      var row := ListenerRow(l.settings, Locator(l.url, l.urlRef), l.rpcAuth, Stamp(k.created, l.id, k.now));
      var hooks := PutAll(t.chainHooks, l.id, HookRows(k, l.webhooks)).value;
      PutContractsIff(t.(listeners := t.listeners[l.id := row], chainHooks := hooks), k, l.id, l.contracts);
    }
  }

  // What the other listeners hold.

  function OtherContracts(t: Tables, id: string): set<string> {
    set c | c in t.contracts && t.contracts[c].parent != id
  }

  function OtherEvents(t: Tables, id: string): set<string> {
    set e | e in t.events && t.events[e].parent in OtherContracts(t, id)
  }

  function OtherChainHooks(t: Tables, id: string): set<string> {
    set w | w in t.chainHooks && t.chainHooks[w].parent != id
  }

  function OtherContractHooks(t: Tables, id: string): set<string> {
    set w | w in t.contractHooks && t.contractHooks[w].parent in OtherContracts(t, id)
  }

  function OtherEventHooks(t: Tables, id: string): set<string> {
    set w | w in t.eventHooks && t.eventHooks[w].parent in OtherEvents(t, id)
  }

  lemma OthersRemain(t: Tables, id: string)
    requires ForeignKeys(t)
    ensures var m := DeleteListener(t, id);
            && m.contracts.Keys == OtherContracts(t, id) && m.events.Keys == OtherEvents(t, id)
            && m.chainHooks.Keys == OtherChainHooks(t, id) && m.contractHooks.Keys == OtherContractHooks(t, id)
            && m.eventHooks.Keys == OtherEventHooks(t, id) && id !in m.listeners
  {
  }

  /** The listener exists, and no id in the new aggregate is repeated or held by another listener. */
  predicate Replaceable(t: Tables, l: C.Listener) {
    && l.id in t.listeners && Free(OtherChainHooks(t, l.id), HookIds(l.webhooks))
    && Fits(OtherContracts(t, l.id), OtherEvents(t, l.id), OtherContractHooks(t, l.id),
            OtherEventHooks(t, l.id), IdsUnder(l.contracts))
  }

  lemma ReplaceOkIff(t: Tables, l: C.Listener, now: int)
    requires ForeignKeys(t)
    ensures Replace(t, l, now).Some? <==> Replaceable(t, l)
  {
    OthersRemain(t, l.id);
    if l.id in t.listeners {
      PutListenerIff(DeleteListener(t, l.id), Clock(CreationTimes(t), now), l);
    }
  }
}
