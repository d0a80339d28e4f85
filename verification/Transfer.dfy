/** Element-wise images of lists. */
module Lists {

  function Map<A, B>(f: A -> B, s: seq<A>): (r: seq<B>)
    ensures |r| == |s| && forall i | 0 <= i < |s| :: r[i] == f(s[i])
  {
    seq(|s|, i requires 0 <= i < |s| => f(s[i]))
  }

  /** Two images agree iff they agree on every member. */
  lemma MapsAgreeIff<A, B>(f: A -> B, g: A -> B, s: seq<A>)
    ensures Map(f, s) == Map(g, s) <==> forall x | x in s :: f(x) == g(x)
  {
    var a, b := Map(f, s), Map(g, s);
    if a == b {
      forall x | x in s ensures f(x) == g(x) {
        var i :| 0 <= i < |s| && s[i] == x;
        assert a[i] == b[i];
      }
    }
  }

  lemma MapSnoc<A, B>(f: A -> B, s: seq<A>, i: nat)
    requires i < |s|
    ensures Map(f, s[..i + 1]) == Map(f, s[..i]) + [f(s[i])]
  {
  }
}

/** The nested configuration of a deployment (internal/core/rpclistener.go). */
module Configuration {

  datatype Authentication = Authentication(kind: string, secretRef: string, keyId: string)

  const NO_AUTHENTICATION := Authentication("", "", "")

  datatype Times = Times(created: int, updated: int)

  const NO_TIMES := Times(0, 0)

  datatype Webhook = Webhook(id: string, url: string, urlRef: string, auth: Authentication, times: Times)

  datatype Event = Event(id: string, selector: string, webhooks: seq<Webhook>, times: Times)

  datatype Contract = Contract(
    id: string, address: string, abi: string, webhooks: seq<Webhook>, events: seq<Event>, times: Times)

  datatype Settings = Settings(
    name: string, paused: bool, chain: nat, startBlock: nat, batchSize: nat, pollInterval: int, confirmations: nat,
    reorgDepth: nat, retryAttempts: int, retryBackoff: int, timeout: int,
    caPem: string, serverName: string, insecure: bool)

  datatype RpcAuthentication = RpcAuthentication(
    kind: string, username: string, headerName: string, secret: string, tokenUrl: string, tokenApiKey: string)

  const NO_RPC_AUTHENTICATION := RpcAuthentication("", "", "", "", "", "")

  datatype Listener = Listener(
    id: string, settings: Settings, url: string, urlRef: string, rpcAuth: RpcAuthentication,
    webhooks: seq<Webhook>, contracts: seq<Contract>, times: Times)

  datatype Snapshot = Snapshot(webhooks: seq<Webhook>, listeners: seq<Listener>)
}

/** Exporting the configuration to a document and importing one. */
module Transfer {
  import opened Common
  import opened Lists
  import opened Configuration
  import R = Records

  datatype WebhookDoc = WebhookDoc(id: string, url: string, urlRef: string, auth: Option<Authentication>)

  datatype EventDoc = EventDoc(id: string, selector: string, webhooks: seq<WebhookDoc>)

  datatype ContractDoc = ContractDoc(
    id: string, address: string, abi: string, webhooks: seq<WebhookDoc>, events: seq<EventDoc>)

  datatype ListenerDoc = ListenerDoc(
    id: string, settings: Settings, url: string, urlRef: string,
    webhooks: seq<WebhookDoc>, contracts: seq<ContractDoc>)

  datatype Document = Document(webhooks: seq<WebhookDoc>, listeners: seq<ListenerDoc>)

  // -------------------------------------------------------------- identities

  /** Lower-case hexadecimal in groups of 8, 4, 4, 4 and 12. */
  predicate CanonicalUuid(id: string) {
    |id| == 36 && forall i | 0 <= i < 36 ::
      if i in {8, 13, 18, 23} then id[i] == '-' else '0' <= id[i] <= '9' || 'a' <= id[i] <= 'f'
  }

  /** The positions of the dashes. */
  predicate Dash(i: nat) {
    i == 8 || i == 13 || i == 18 || i == 23
  }

  function HexValue(c: char): Option<nat> {
    if '0' <= c <= '9' then Some((c - '0') as nat)
    else if 'a' <= c <= 'f' then Some((c - 'a') as nat + 10)
    else if 'A' <= c <= 'F' then Some((c - 'A') as nat + 10)
    else None
  }

  function HexDigit(v: nat): char
    requires v < 16
  {
    "0123456789abcdef"[v]
  }

  /** Where the k-th digit stands in the text, and which digit stands at a place. */
  function Place(k: nat): nat {
    if k < 8 then k else if k < 12 then k + 1 else if k < 16 then k + 2 else if k < 20 then k + 3 else k + 4
  }

  function DigitAt(i: nat): nat {
    if i < 8 then i
    else if i < 13 then i - 1 else if i < 18 then i - 2 else if i < 23 then i - 3 else i - 4
  }

  /** uuid.Parse of a text of 36 characters; the texts it accepts at other lengths are never canonical. */
  function ParseUuid(s: string): Option<seq<nat>> {
    if |s| == 36 && forall i: nat | i < 36 :: if Dash(i) then s[i] == '-' else HexValue(s[i]).Some? then
      Some(seq(32, k requires 0 <= k < 32 => HexValue(s[Place(k)]).value))
    else None
  }

  /** uuid.UUID.String */
  function PrintUuid(digits: seq<nat>): string
    requires |digits| == 32 && forall k | 0 <= k < 32 :: digits[k] < 16
  {
    seq(36, i requires 0 <= i < 36 => if Dash(i) then '-' else HexDigit(digits[DigitAt(i)]))
  }

  lemma ParsedDigits(s: string)
    requires ParseUuid(s).Some?
    ensures forall k | 0 <= k < 32 :: ParseUuid(s).value[k] < 16
  {
    forall k | 0 <= k < 32 ensures !Dash(Place(k)) && HexValue(s[Place(k)]).Some? {}
  }

  /** A character is printed back unchanged iff it is a digit or a lower-case letter. */
  lemma PrintedBackIff(c: char)
    requires HexValue(c).Some?
    ensures HexDigit(HexValue(c).value) == c <==> '0' <= c <= '9' || 'a' <= c <= 'f'
  {
  }

  lemma ParseThenPrint(s: string, i: nat)
    requires ParseUuid(s).Some? && i < 36 && !Dash(i)
    ensures HexValue(s[i]).Some? && DigitAt(i) < 32 && ParseUuid(s).value[DigitAt(i)] == HexValue(s[i]).value
  {
    assert Place(DigitAt(i)) == i;
  }

  /** An id parses and prints back as itself exactly when it has the canonical form. */
  method IsCanonicalUuid(value: string) returns (ok: bool)
    ensures ok <==> CanonicalUuid(value)
  {
    var parsed := ParseUuid(value);
    if parsed.None? {
      assert CanonicalUuid(value) ==>
          forall i: nat | i < 36 :: if Dash(i) then value[i] == '-' else HexValue(value[i]).Some?;
      return false;
    }
    ParsedDigits(value);
    var printed := PrintUuid(parsed.value);
    forall i: nat | i < 36 && !Dash(i)
      ensures printed[i] == value[i] <==> '0' <= value[i] <= '9' || 'a' <= value[i] <= 'f'
    {
      ParseThenPrint(value, i);
      PrintedBackIff(value[i]);
    }
    ok := printed == value;
  }

  /** The ids of each kind, in document order. */
  datatype Ids = Ids(listeners: seq<string>, contracts: seq<string>, events: seq<string>, webhooks: seq<string>)

  const NO_IDS := Ids([], [], [], [])

  function Plus(a: Ids, b: Ids): Ids {
    Ids(a.listeners + b.listeners, a.contracts + b.contracts, a.events + b.events, a.webhooks + b.webhooks)
  }

  predicate Distinct(s: seq<string>) {
    forall i, j | 0 <= i < j < |s| :: s[i] != s[j]
  }

  predicate AllCanonical(s: seq<string>) {
    forall i | 0 <= i < |s| :: CanonicalUuid(s[i])
  }

  predicate Proper(s: seq<string>) {
    Distinct(s) && AllCanonical(s)
  }

  /** Every id is canonical, and none is repeated among those of its kind. */
  predicate ProperIds(ids: Ids) {
    Proper(ids.listeners) && Proper(ids.contracts) && Proper(ids.events) && Proper(ids.webhooks)
  }

  /** The ids of a list, element by element. */
  function IdsOfAll<T>(f: T -> Ids, s: seq<T>): Ids {
    if s == [] then NO_IDS else Plus(IdsOfAll(f, s[..|s| - 1]), f(s[|s| - 1]))
  }

  function IdsOfWebhook(w: WebhookDoc): Ids {
    Ids([], [], [], [w.id])
  }

  function IdsOfEvent(e: EventDoc): Ids {
    Plus(Ids([], [], [e.id], []), IdsOfAll(IdsOfWebhook, e.webhooks))
  }

  function IdsOfContract(c: ContractDoc): Ids {
    Plus(Plus(Ids([], [c.id], [], []), IdsOfAll(IdsOfWebhook, c.webhooks)), IdsOfAll(IdsOfEvent, c.events))
  }

  function IdsOfListener(l: ListenerDoc): Ids {
    Plus(Plus(Ids([l.id], [], [], []), IdsOfAll(IdsOfWebhook, l.webhooks)), IdsOfAll(IdsOfContract, l.contracts))
  }

  function IdsOf(d: Document): Ids {
    Plus(IdsOfAll(IdsOfWebhook, d.webhooks), IdsOfAll(IdsOfListener, d.listeners))
  }

  lemma PlusAssociates(a: Ids, b: Ids, c: Ids)
    ensures Plus(Plus(a, b), c) == Plus(a, Plus(b, c))
  {
    assert (a.listeners + b.listeners) + c.listeners == a.listeners + (b.listeners + c.listeners);
    assert (a.contracts + b.contracts) + c.contracts == a.contracts + (b.contracts + c.contracts);
    assert (a.events + b.events) + c.events == a.events + (b.events + c.events);
    assert (a.webhooks + b.webhooks) + c.webhooks == a.webhooks + (b.webhooks + c.webhooks);
  }

  lemma PlusNothing(a: Ids)
    ensures Plus(a, NO_IDS) == a && Plus(NO_IDS, a) == a
  {
  }

  lemma ProperPrefix(s: seq<string>, t: seq<string>)
    requires Proper(s + t)
    ensures Proper(s)
  {
    forall i | 0 <= i < |s| ensures (s + t)[i] == s[i] {}
    assert forall i | 0 <= i < |s| :: CanonicalUuid((s + t)[i]);
    assert forall i, j | 0 <= i < j < |s| :: (s + t)[i] != (s + t)[j];
  }

  /** A repeated or malformed id early on spoils the whole document. */
  lemma ProperBefore(a: Ids, b: Ids)
    requires ProperIds(Plus(a, b))
    ensures ProperIds(a)
  {
    ProperPrefix(a.listeners, b.listeners);
    ProperPrefix(a.contracts, b.contracts);
    ProperPrefix(a.events, b.events);
    ProperPrefix(a.webhooks, b.webhooks);
  }

  // --------------------------------------------------------- the `seen` maps

  datatype Seen = Seen(listeners: set<string>, contracts: set<string>, events: set<string>, webhooks: set<string>)

  function Elements(s: seq<string>): set<string> {
    set x | x in s
  }

  function SeenOf(ids: Ids): Seen {
    Seen(Elements(ids.listeners), Elements(ids.contracts), Elements(ids.events), Elements(ids.webhooks))
  }

  predicate Acceptable(id: string, seen: set<string>) {
    CanonicalUuid(id) && id !in seen
  }

  method UniqueImportId(id: string, seen: set<string>) returns (ok: bool)
    ensures ok <==> Acceptable(id, seen)
  {
    ok := IsCanonicalUuid(id);
    if ok && id in seen {
      ok := false;
    }
  }

  lemma ProperSnoc(s: seq<string>, id: string)
    requires Proper(s)
    ensures Proper(s + [id]) <==> Acceptable(id, Elements(s))
    ensures Elements(s + [id]) == Elements(s) + {id}
  {
    var t := s + [id];
    if Proper(t) {
      assert t[|s|] == id;
      assert forall i | 0 <= i < |s| :: t[i] == s[i] && t[i] != t[|s|];
    }
    if Acceptable(id, Elements(s)) {
      forall i, j | 0 <= i < j < |t| ensures t[i] != t[j] {
        if j == |s| { assert s[i] in Elements(s); }
      }
    }
  }

  lemma AppendNothing(s: seq<string>)
    ensures s + [] == s
  {
  }

  lemma WebhookIdAccepted(before: Ids, w: WebhookDoc)
    requires ProperIds(before)
    ensures ProperIds(Plus(before, IdsOfWebhook(w))) <==> Acceptable(w.id, SeenOf(before).webhooks)
    ensures SeenOf(Plus(before, IdsOfWebhook(w))) == SeenOf(before).(webhooks := SeenOf(before).webhooks + {w.id})
  {
    AppendNothing(before.listeners);
    AppendNothing(before.contracts);
    AppendNothing(before.events);
    ProperSnoc(before.webhooks, w.id);
  }

  lemma EventIdAccepted(before: Ids, id: string)
    requires ProperIds(before)
    ensures var b := Ids([], [], [id], []);
            && (ProperIds(Plus(before, b)) <==> Acceptable(id, SeenOf(before).events))
            && SeenOf(Plus(before, b)) == SeenOf(before).(events := SeenOf(before).events + {id})
  {
    AppendNothing(before.listeners);
    AppendNothing(before.contracts);
    AppendNothing(before.webhooks);
    ProperSnoc(before.events, id);
  }

  lemma ContractIdAccepted(before: Ids, id: string)
    requires ProperIds(before)
    ensures var b := Ids([], [id], [], []);
            && (ProperIds(Plus(before, b)) <==> Acceptable(id, SeenOf(before).contracts))
            && SeenOf(Plus(before, b)) == SeenOf(before).(contracts := SeenOf(before).contracts + {id})
  {
    AppendNothing(before.listeners);
    AppendNothing(before.events);
    AppendNothing(before.webhooks);
    ProperSnoc(before.contracts, id);
  }

  lemma ListenerIdAccepted(before: Ids, id: string)
    requires ProperIds(before)
    ensures var b := Ids([id], [], [], []);
            && (ProperIds(Plus(before, b)) <==> Acceptable(id, SeenOf(before).listeners))
            && SeenOf(Plus(before, b)) == SeenOf(before).(listeners := SeenOf(before).listeners + {id})
  {
    AppendNothing(before.contracts);
    AppendNothing(before.events);
    AppendNothing(before.webhooks);
    ProperSnoc(before.listeners, id);
  }

  // ------------------------------------------------------------------ import

  predicate SafeUrl(safe: string -> bool, url: string) {
    url == "" || safe(url)
  }

  function WebhookFrom(d: WebhookDoc): Webhook {
    Webhook(d.id, d.url, d.urlRef, if d.auth.Some? then d.auth.value else NO_AUTHENTICATION, NO_TIMES)
  }

  function EventFrom(d: EventDoc): Event {
    Event(d.id, d.selector, Map(WebhookFrom, d.webhooks), NO_TIMES)
  }

  function ContractFrom(d: ContractDoc): Contract {
    Contract(d.id, d.address, d.abi, Map(WebhookFrom, d.webhooks), Map(EventFrom, d.events), NO_TIMES)
  }

  function ListenerFrom(d: ListenerDoc): Listener {
    Listener(d.id, d.settings, d.url, d.urlRef, NO_RPC_AUTHENTICATION, Map(WebhookFrom, d.webhooks),
             Map(ContractFrom, d.contracts), NO_TIMES)
  }

  function SnapshotFrom(d: Document): Snapshot {
    Snapshot(Map(WebhookFrom, d.webhooks), Map(ListenerFrom, d.listeners))
  }

  predicate SafeWebhooks(safe: string -> bool, ws: seq<WebhookDoc>) {
    forall w | w in ws :: SafeUrl(safe, w.url)
  }

  predicate SafeEvent(safe: string -> bool, e: EventDoc) {
    SafeWebhooks(safe, e.webhooks)
  }

  predicate SafeContract(safe: string -> bool, c: ContractDoc) {
    SafeWebhooks(safe, c.webhooks) && forall e | e in c.events :: SafeEvent(safe, e)
  }

  predicate SafeContracts(safe: string -> bool, cs: seq<ContractDoc>) {
    forall c | c in cs :: SafeContract(safe, c)
  }

  lemma SafeContractsSnoc(safe: string -> bool, cs: seq<ContractDoc>, i: nat)
    requires i < |cs|
    ensures SafeContracts(safe, cs[..i + 1]) <==> SafeContracts(safe, cs[..i]) && SafeContract(safe, cs[i])
    ensures SafeContracts(safe, cs) ==> SafeContracts(safe, cs[..i + 1])
  {
    assert cs[..i + 1] == cs[..i] + [cs[i]];
  }

  predicate SafeListener(safe: string -> bool, l: ListenerDoc) {
    && SafeUrl(safe, l.url)
    && l.settings.pollInterval > 0 && l.settings.retryBackoff > 0 && l.settings.timeout > 0
    && SafeWebhooks(safe, l.webhooks) && SafeContracts(safe, l.contracts)
  }

  /** Exactly the documents that import accepts. */
  predicate Importable(safe: string -> bool, d: Document) {
    ProperIds(IdsOf(d)) && SafeWebhooks(safe, d.webhooks) && forall l | l in d.listeners :: SafeListener(safe, l)
  }

  /** The ids up to and including the i-th element. */
  lemma IdsSnoc<T>(before: Ids, f: T -> Ids, s: seq<T>, i: nat)
    requires i < |s|
    ensures s[..i + 1] == s[..i] + [s[i]]
    ensures Plus(before, IdsOfAll(f, s[..i + 1])) == Plus(Plus(before, IdsOfAll(f, s[..i])), f(s[i]))
  {
    assert s[..i + 1][..i] == s[..i];
    PlusAssociates(before, IdsOfAll(f, s[..i]), f(s[i]));
  }

  /** What spoils the beginning of a list spoils all of it. */
  lemma SpoiledEarly<T>(before: Ids, f: T -> Ids, s: seq<T>, i: nat)
    requires i <= |s|
    ensures ProperIds(Plus(before, IdsOfAll(f, s))) ==> ProperIds(Plus(before, IdsOfAll(f, s[..i])))
  {
    if ProperIds(Plus(before, IdsOfAll(f, s))) {
      IdsPrefix(before, f, s, i);
    }
  }

  lemma {:induction false} IdsPrefix<T>(before: Ids, f: T -> Ids, s: seq<T>, i: nat)
    requires i <= |s| && ProperIds(Plus(before, IdsOfAll(f, s)))
    ensures ProperIds(Plus(before, IdsOfAll(f, s[..i])))
    decreases |s|
  {
    if i == |s| {
      assert s[..i] == s;
    } else {
      var n := |s| - 1;
      PlusAssociates(before, IdsOfAll(f, s[..n]), f(s[n]));
      ProperBefore(Plus(before, IdsOfAll(f, s[..n])), f(s[n]));
      assert s[..n][..i] == s[..i];
      IdsPrefix(before, f, s[..n], i);
    }
  }

  method ImportWebhooks(safe: string -> bool, inputs: seq<WebhookDoc>, seen: Seen, ghost before: Ids)
    returns (r: Result<seq<Webhook>, R.Error>, seen': Seen)
    requires ProperIds(before) && seen == SeenOf(before)
    ensures r.Ok? <==> SafeWebhooks(safe, inputs) && ProperIds(Plus(before, IdsOfAll(IdsOfWebhook, inputs)))
    ensures r.Ok? ==>
              && r.value == Map(WebhookFrom, inputs)
              && seen' == SeenOf(Plus(before, IdsOfAll(IdsOfWebhook, inputs)))
  {
    seen' := seen;
    var result: seq<Webhook> := [];
    PlusNothing(before);
    for i := 0 to |inputs|
      invariant result == Map(WebhookFrom, inputs[..i]) && SafeWebhooks(safe, inputs[..i])
      invariant ProperIds(Plus(before, IdsOfAll(IdsOfWebhook, inputs[..i])))
      invariant seen' == SeenOf(Plus(before, IdsOfAll(IdsOfWebhook, inputs[..i])))
    {
      var input := inputs[i];
      IdsSnoc(before, IdsOfWebhook, inputs, i);
      SpoiledEarly(before, IdsOfWebhook, inputs, i + 1);
      MapSnoc(WebhookFrom, inputs, i);
      WebhookIdAccepted(Plus(before, IdsOfAll(IdsOfWebhook, inputs[..i])), input);
      var unique := UniqueImportId(input.id, seen'.webhooks);
      if !unique {
        return Err(R.InvalidId), seen';
      }
      seen' := seen'.(webhooks := seen'.webhooks + {input.id});
      if input.url != "" && !safe(input.url) {
        return Err(R.UnsafeUrl), seen';
      }
      var item := Webhook(input.id, input.url, input.urlRef, NO_AUTHENTICATION, NO_TIMES);
      if input.auth.Some? {
        item := item.(auth := input.auth.value);
      }
      result := result + [item];
    }
    assert inputs[..|inputs|] == inputs;
    r := Ok(result);
  }

  method ImportEvent(safe: string -> bool, input: EventDoc, seen: Seen, ghost before: Ids)
    returns (r: Result<Event, R.Error>, seen': Seen)
    requires ProperIds(before) && seen == SeenOf(before)
    ensures r.Ok? <==> SafeEvent(safe, input) && ProperIds(Plus(before, IdsOfEvent(input)))
    ensures r.Ok? ==> r.value == EventFrom(input) && seen' == SeenOf(Plus(before, IdsOfEvent(input)))
  {
    seen' := seen;
    ghost var own := Ids([], [], [input.id], []);
    EventIdAccepted(before, input.id);
    SplitIds(before, own, IdsOfAll(IdsOfWebhook, input.webhooks));
    var unique := UniqueImportId(input.id, seen.events);
    if !unique {
      return Err(R.InvalidId), seen';
    }
    seen' := seen'.(events := seen'.events + {input.id});
    var webhooks;
    webhooks, seen' := ImportWebhooks(safe, input.webhooks, seen', Plus(before, own));
    if webhooks.Err? {
      return Err(webhooks.error), seen';
    }
    r := Ok(Event(input.id, input.selector, webhooks.value, NO_TIMES));
  }

  /** The ids of an entity are its own and then those of its children. */
  lemma SplitIds(before: Ids, own: Ids, children: Ids)
    ensures Plus(before, Plus(own, children)) == Plus(Plus(before, own), children)
    ensures ProperIds(Plus(before, Plus(own, children))) ==> ProperIds(Plus(before, own))
  {
    PlusAssociates(before, own, children);
    if ProperIds(Plus(before, Plus(own, children))) {
      ProperBefore(Plus(before, own), children);
    }
  }

  method ImportEvents(safe: string -> bool, inputs: seq<EventDoc>, seen: Seen, ghost before: Ids)
    returns (r: Result<seq<Event>, R.Error>, seen': Seen)
    requires ProperIds(before) && seen == SeenOf(before)
    ensures r.Ok? <==>
              && (forall e | e in inputs :: SafeEvent(safe, e))
              && ProperIds(Plus(before, IdsOfAll(IdsOfEvent, inputs)))
    ensures r.Ok? ==> r.value == Map(EventFrom, inputs) && seen' == SeenOf(Plus(before, IdsOfAll(IdsOfEvent, inputs)))
  {
    seen' := seen;
    var result: seq<Event> := [];
    PlusNothing(before);
    for i := 0 to |inputs|
      invariant result == Map(EventFrom, inputs[..i]) && forall e | e in inputs[..i] :: SafeEvent(safe, e)
      invariant ProperIds(Plus(before, IdsOfAll(IdsOfEvent, inputs[..i])))
      invariant seen' == SeenOf(Plus(before, IdsOfAll(IdsOfEvent, inputs[..i])))
    {
      IdsSnoc(before, IdsOfEvent, inputs, i);
      SpoiledEarly(before, IdsOfEvent, inputs, i + 1);
      MapSnoc(EventFrom, inputs, i);
      var event;
      event, seen' := ImportEvent(safe, inputs[i], seen', Plus(before, IdsOfAll(IdsOfEvent, inputs[..i])));
      if event.Err? {
        return Err(event.error), seen';
      }
      result := result + [event.value];
    }
    assert inputs[..|inputs|] == inputs;
    r := Ok(result);
  }

  method ImportContract(safe: string -> bool, input: ContractDoc, seen: Seen, ghost before: Ids)
    returns (r: Result<Contract, R.Error>, seen': Seen)
    requires ProperIds(before) && seen == SeenOf(before)
    ensures r.Ok? <==> SafeContract(safe, input) && ProperIds(Plus(before, IdsOfContract(input)))
    ensures r.Ok? ==> r.value == ContractFrom(input) && seen' == SeenOf(Plus(before, IdsOfContract(input)))
  {
    seen' := seen;
    ghost var own := Ids([], [input.id], [], []);
    ghost var hooks := IdsOfAll(IdsOfWebhook, input.webhooks);
    ContractIdAccepted(before, input.id);
    SplitIds(before, own, hooks);
    SplitIds(before, Plus(own, hooks), IdsOfAll(IdsOfEvent, input.events));
    var unique := UniqueImportId(input.id, seen.contracts);
    if !unique {
      return Err(R.InvalidId), seen';
    }
    seen' := seen'.(contracts := seen'.contracts + {input.id});
    var webhooks;
    webhooks, seen' := ImportWebhooks(safe, input.webhooks, seen', Plus(before, own));
    if webhooks.Err? {
      return Err(webhooks.error), seen';
    }
    var events;
    events, seen' := ImportEvents(safe, input.events, seen', Plus(before, Plus(own, hooks)));
    if events.Err? {
      return Err(events.error), seen';
    }
    r := Ok(Contract(input.id, input.address, input.abi, webhooks.value, events.value, NO_TIMES));
  }

  method ImportContracts(safe: string -> bool, inputs: seq<ContractDoc>, seen: Seen, ghost before: Ids)
    returns (r: Result<seq<Contract>, R.Error>, seen': Seen)
    requires ProperIds(before) && seen == SeenOf(before)
    ensures r.Ok? <==> SafeContracts(safe, inputs) && ProperIds(Plus(before, IdsOfAll(IdsOfContract, inputs)))
    ensures r.Ok? ==>
              && r.value == Map(ContractFrom, inputs)
              && seen' == SeenOf(Plus(before, IdsOfAll(IdsOfContract, inputs)))
  {
    seen' := seen;
    var result: seq<Contract> := [];
    PlusNothing(before);
    for i := 0 to |inputs|
      invariant result == Map(ContractFrom, inputs[..i]) && SafeContracts(safe, inputs[..i])
      invariant ProperIds(Plus(before, IdsOfAll(IdsOfContract, inputs[..i])))
      invariant seen' == SeenOf(Plus(before, IdsOfAll(IdsOfContract, inputs[..i])))
    {
      IdsSnoc(before, IdsOfContract, inputs, i);
      SpoiledEarly(before, IdsOfContract, inputs, i + 1);
      SafeContractsSnoc(safe, inputs, i);
      MapSnoc(ContractFrom, inputs, i);
      var contract;
      contract, seen' := ImportContract(safe, inputs[i], seen', Plus(before, IdsOfAll(IdsOfContract, inputs[..i])));
      if contract.Err? {
        return Err(contract.error), seen';
      }
      result := result + [contract.value];
    }
    assert inputs[..|inputs|] == inputs;
    r := Ok(result);
  }

  method ImportListener(safe: string -> bool, input: ListenerDoc, seen: Seen, ghost before: Ids)
    returns (r: Result<Listener, R.Error>, seen': Seen)
    requires ProperIds(before) && seen == SeenOf(before)
    ensures r.Ok? <==> SafeListener(safe, input) && ProperIds(Plus(before, IdsOfListener(input)))
    ensures r.Ok? ==> r.value == ListenerFrom(input) && seen' == SeenOf(Plus(before, IdsOfListener(input)))
  {
    seen' := seen;
    ghost var own := Ids([input.id], [], [], []);
    ghost var hooks := IdsOfAll(IdsOfWebhook, input.webhooks);
    ListenerIdAccepted(before, input.id);
    SplitIds(before, own, hooks);
    SplitIds(before, Plus(own, hooks), IdsOfAll(IdsOfContract, input.contracts));
    var unique := UniqueImportId(input.id, seen.listeners);
    if !unique {
      return Err(R.InvalidId), seen';
    }
    seen' := seen'.(listeners := seen'.listeners + {input.id});
    if input.url != "" && !safe(input.url) {
      return Err(R.UnsafeUrl), seen';
    }
    if input.settings.pollInterval <= 0 || input.settings.retryBackoff <= 0 || input.settings.timeout <= 0 {
      return Err(R.OutOfRange), seen';
    }
    var webhooks;
    webhooks, seen' := ImportWebhooks(safe, input.webhooks, seen', Plus(before, own));
    if webhooks.Err? {
      return Err(webhooks.error), seen';
    }
    var contracts;
    contracts, seen' := ImportContracts(safe, input.contracts, seen', Plus(before, Plus(own, hooks)));
    if contracts.Err? {
      return Err(contracts.error), seen';
    }
    r := Ok(Listener(input.id, input.settings, input.url, input.urlRef, NO_RPC_AUTHENTICATION,
                     webhooks.value, contracts.value, NO_TIMES));
  }

  /** Import accepts a document iff it is importable: in particular it accepts no repeated id at any depth. */
  method ImportConfiguration(safe: string -> bool, document: Document) returns (r: Result<Snapshot, R.Error>)
    ensures r.Ok? <==> Importable(safe, document)
    ensures r.Ok? ==> r.value == SnapshotFrom(document)
  {
    var seen := Seen({}, {}, {}, {});
    ghost var hooks := IdsOfAll(IdsOfWebhook, document.webhooks);
    PlusNothing(hooks);
    SplitIds(NO_IDS, hooks, IdsOfAll(IdsOfListener, document.listeners));
    PlusNothing(IdsOf(document));
    var webhooks;
    webhooks, seen := ImportWebhooks(safe, document.webhooks, seen, NO_IDS);
    if webhooks.Err? {
      return Err(webhooks.error);
    }
    var listeners: seq<Listener> := [];
    for i := 0 to |document.listeners|
      invariant listeners == Map(ListenerFrom, document.listeners[..i])
      invariant forall l | l in document.listeners[..i] :: SafeListener(safe, l)
      invariant ProperIds(Plus(hooks, IdsOfAll(IdsOfListener, document.listeners[..i])))
      invariant seen == SeenOf(Plus(hooks, IdsOfAll(IdsOfListener, document.listeners[..i])))
    {
      IdsSnoc(hooks, IdsOfListener, document.listeners, i);
      SpoiledEarly(hooks, IdsOfListener, document.listeners, i + 1);
      MapSnoc(ListenerFrom, document.listeners, i);
      var listener;
      listener, seen := ImportListener(safe, document.listeners[i], seen,
                                       Plus(hooks, IdsOfAll(IdsOfListener, document.listeners[..i])));
      if listener.Err? {
        return Err(listener.error);
      }
      listeners := listeners + [listener.value];
    }
    assert document.listeners[..|document.listeners|] == document.listeners;
    r := Ok(Snapshot(webhooks.value, listeners));
  }

  // ------------------------------------------------------------------ export

  function WebhookDocOf(w: Webhook): WebhookDoc {
    WebhookDoc(w.id, w.url, w.urlRef, if w.auth.kind != "" then Some(w.auth) else None)
  }

  function EventDocOf(e: Event): EventDoc {
    EventDoc(e.id, e.selector, Map(WebhookDocOf, e.webhooks))
  }

  function ContractDocOf(c: Contract): ContractDoc {
    ContractDoc(c.id, c.address, c.abi, Map(WebhookDocOf, c.webhooks), Map(EventDocOf, c.events))
  }

  function ListenerDocOf(l: Listener): ListenerDoc {
    ListenerDoc(l.id, l.settings, l.url, l.urlRef, Map(WebhookDocOf, l.webhooks), Map(ContractDocOf, l.contracts))
  }

  function DocumentOf(s: Snapshot): Document {
    Document(Map(WebhookDocOf, s.webhooks), Map(ListenerDocOf, s.listeners))
  }

  predicate ExportableWebhooks(safe: string -> bool, ws: seq<Webhook>) {
    forall w | w in ws :: SafeUrl(safe, w.url)
  }

  predicate ExportableEvents(safe: string -> bool, es: seq<Event>) {
    forall e | e in es :: ExportableWebhooks(safe, e.webhooks)
  }

  predicate ExportableContracts(safe: string -> bool, cs: seq<Contract>) {
    forall c | c in cs :: ExportableWebhooks(safe, c.webhooks) && ExportableEvents(safe, c.events)
  }

  predicate ExportableListener(safe: string -> bool, l: Listener) {
    && l.rpcAuth.kind == "" && SafeUrl(safe, l.url)
    && ExportableWebhooks(safe, l.webhooks) && ExportableContracts(safe, l.contracts)
  }

  /** No credential and no secret-bearing URL anywhere in it. */
  predicate Exportable(safe: string -> bool, s: Snapshot) {
    ExportableWebhooks(safe, s.webhooks) && forall l | l in s.listeners :: ExportableListener(safe, l)
  }

  method ExportWebhooks(safe: string -> bool, webhooks: seq<Webhook>) returns (r: Result<seq<WebhookDoc>, R.Error>)
    ensures r.Ok? <==> ExportableWebhooks(safe, webhooks)
    ensures r.Ok? ==> r.value == Map(WebhookDocOf, webhooks)
  {
    var result: seq<WebhookDoc> := [];
    for i := 0 to |webhooks|
      invariant result == Map(WebhookDocOf, webhooks[..i]) && ExportableWebhooks(safe, webhooks[..i])
    {
      MapSnoc(WebhookDocOf, webhooks, i);
      assert webhooks[..i + 1] == webhooks[..i] + [webhooks[i]];
      var webhook := webhooks[i];
      if webhook.url != "" && !safe(webhook.url) {
        return Err(R.UnsafeUrl);
      }
      var item := WebhookDoc(webhook.id, webhook.url, webhook.urlRef, None);
      if webhook.auth.kind != "" {
        item := item.(auth := Some(webhook.auth));
      }
      result := result + [item];
    }
    assert webhooks[..|webhooks|] == webhooks;
    r := Ok(result);
  }

  method ExportEvents(safe: string -> bool, events: seq<Event>) returns (r: Result<seq<EventDoc>, R.Error>)
    ensures r.Ok? <==> ExportableEvents(safe, events)
    ensures r.Ok? ==> r.value == Map(EventDocOf, events)
  {
    var result: seq<EventDoc> := [];
    for i := 0 to |events|
      invariant result == Map(EventDocOf, events[..i]) && ExportableEvents(safe, events[..i])
    {
      MapSnoc(EventDocOf, events, i);
      assert events[..i + 1] == events[..i] + [events[i]];
      var webhooks := ExportWebhooks(safe, events[i].webhooks);
      if webhooks.Err? {
        return Err(webhooks.error);
      }
      result := result + [EventDoc(events[i].id, events[i].selector, webhooks.value)];
    }
    assert events[..|events|] == events;
    r := Ok(result);
  }

  method ExportContracts(safe: string -> bool, contracts: seq<Contract>) returns (r: Result<seq<ContractDoc>, R.Error>)
    ensures r.Ok? <==> ExportableContracts(safe, contracts)
    ensures r.Ok? ==> r.value == Map(ContractDocOf, contracts)
  {
    var result: seq<ContractDoc> := [];
    for i := 0 to |contracts|
      invariant result == Map(ContractDocOf, contracts[..i]) && ExportableContracts(safe, contracts[..i])
    {
      MapSnoc(ContractDocOf, contracts, i);
      assert contracts[..i + 1] == contracts[..i] + [contracts[i]];
      var webhooks := ExportWebhooks(safe, contracts[i].webhooks);
      if webhooks.Err? {
        return Err(webhooks.error);
      }
      var events := ExportEvents(safe, contracts[i].events);
      if events.Err? {
        return Err(events.error);
      }
      var c := contracts[i];
      result := result + [ContractDoc(c.id, c.address, c.abi, webhooks.value, events.value)];
    }
    assert contracts[..|contracts|] == contracts;
    r := Ok(result);
  }

  method ExportConfiguration(safe: string -> bool, snapshot: Snapshot) returns (r: Result<Document, R.Error>)
    ensures r.Ok? <==> Exportable(safe, snapshot)
    ensures r.Ok? ==> r.value == DocumentOf(snapshot)
  {
    var webhooks := ExportWebhooks(safe, snapshot.webhooks);
    if webhooks.Err? {
      return Err(webhooks.error);
    }
    var result: seq<ListenerDoc> := [];
    var listeners := snapshot.listeners;
    for i := 0 to |listeners|
      invariant result == Map(ListenerDocOf, listeners[..i])
      invariant forall l | l in listeners[..i] :: ExportableListener(safe, l)
    {
      MapSnoc(ListenerDocOf, listeners, i);
      assert listeners[..i + 1] == listeners[..i] + [listeners[i]];
      var listener := listeners[i];
      assert listener in snapshot.listeners;
      if listener.rpcAuth.kind != "" {
        return Err(R.UnsafeCredentials);
      }
      if listener.url != "" && !safe(listener.url) {
        return Err(R.UnsafeUrl);
      }
      var hooks := ExportWebhooks(safe, listener.webhooks);
      if hooks.Err? {
        return Err(hooks.error);
      }
      var contracts := ExportContracts(safe, listener.contracts);
      if contracts.Err? {
        return Err(contracts.error);
      }
      result := result + [ListenerDoc(listener.id, listener.settings, listener.url, listener.urlRef,
                                      hooks.value, contracts.value)];
    }
    assert listeners[..|listeners|] == listeners;
    r := Ok(Document(webhooks.value, result));
  }

  // -------------------------------------------------------------- round trip

  /** The same configuration without its timestamps. */
  function WebhookBare(w: Webhook): Webhook { w.(times := NO_TIMES) }

  function EventBare(e: Event): Event { e.(webhooks := Map(WebhookBare, e.webhooks), times := NO_TIMES) }

  function ContractBare(c: Contract): Contract {
    c.(webhooks := Map(WebhookBare, c.webhooks), events := Map(EventBare, c.events), times := NO_TIMES)
  }

  function ListenerBare(l: Listener): Listener {
    l.(webhooks := Map(WebhookBare, l.webhooks), contracts := Map(ContractBare, l.contracts), times := NO_TIMES)
  }

  function Bare(s: Snapshot): Snapshot {
    Snapshot(Map(WebhookBare, s.webhooks), Map(ListenerBare, s.listeners))
  }

  /** What every stored configuration is validated for: no authentication details without a type. */
  predicate ValidWebhooks(ws: seq<Webhook>) {
    forall w | w in ws :: w.auth.kind == "" ==> w.auth == NO_AUTHENTICATION
  }

  predicate ValidContract(c: Contract) {
    ValidWebhooks(c.webhooks) && forall e | e in c.events :: ValidWebhooks(e.webhooks)
  }

  predicate ValidListener(l: Listener) {
    && (l.rpcAuth.kind == "" ==> l.rpcAuth == NO_RPC_AUTHENTICATION)
    && l.settings.pollInterval > 0 && l.settings.retryBackoff > 0 && l.settings.timeout > 0
    && ValidWebhooks(l.webhooks) && forall c | c in l.contracts :: ValidContract(c)
  }

  predicate ValidSnapshot(s: Snapshot) {
    ValidWebhooks(s.webhooks) && forall l | l in s.listeners :: ValidListener(l)
  }

  lemma WebhooksReturn(safe: string -> bool, ws: seq<Webhook>)
    requires ValidWebhooks(ws) && ExportableWebhooks(safe, ws)
    ensures SafeWebhooks(safe, Map(WebhookDocOf, ws))
    ensures Map(WebhookFrom, Map(WebhookDocOf, ws)) == Map(WebhookBare, ws)
  {
    forall i | 0 <= i < |ws|
      ensures SafeUrl(safe, WebhookDocOf(ws[i]).url) && WebhookFrom(WebhookDocOf(ws[i])) == WebhookBare(ws[i])
    {
      assert ws[i] in ws;
    }
  }

  lemma EventsReturn(safe: string -> bool, es: seq<Event>)
    requires ExportableEvents(safe, es) && forall e | e in es :: ValidWebhooks(e.webhooks)
    ensures forall e | e in Map(EventDocOf, es) :: SafeEvent(safe, e)
    ensures Map(EventFrom, Map(EventDocOf, es)) == Map(EventBare, es)
  {
    forall i | 0 <= i < |es|
      ensures SafeEvent(safe, EventDocOf(es[i])) && EventFrom(EventDocOf(es[i])) == EventBare(es[i])
    {
      assert es[i] in es;
      WebhooksReturn(safe, es[i].webhooks);
    }
  }

  lemma ContractsReturn(safe: string -> bool, cs: seq<Contract>)
    requires ExportableContracts(safe, cs) && forall c | c in cs :: ValidContract(c)
    ensures SafeContracts(safe, Map(ContractDocOf, cs))
    ensures Map(ContractFrom, Map(ContractDocOf, cs)) == Map(ContractBare, cs)
  {
    forall i | 0 <= i < |cs|
      ensures SafeContract(safe, ContractDocOf(cs[i])) && ContractFrom(ContractDocOf(cs[i])) == ContractBare(cs[i])
    {
      assert cs[i] in cs;
      WebhooksReturn(safe, cs[i].webhooks);
      EventsReturn(safe, cs[i].events);
    }
  }

  lemma ListenerReturns(safe: string -> bool, l: Listener)
    requires ExportableListener(safe, l) && ValidListener(l)
    ensures SafeListener(safe, ListenerDocOf(l)) && ListenerFrom(ListenerDocOf(l)) == ListenerBare(l)
  {
    WebhooksReturn(safe, l.webhooks);
    ContractsReturn(safe, l.contracts);
  }

  /** Importing an export of a valid configuration with proper ids returns it, up to timestamps. */
  lemma ExportThenImport(safe: string -> bool, s: Snapshot)
    requires Exportable(safe, s) && ValidSnapshot(s) && ProperIds(IdsOf(DocumentOf(s)))
    ensures Importable(safe, DocumentOf(s)) && SnapshotFrom(DocumentOf(s)) == Bare(s)
  {
    WebhooksReturn(safe, s.webhooks);
    forall i | 0 <= i < |s.listeners|
      ensures SafeListener(safe, ListenerDocOf(s.listeners[i]))
              && ListenerFrom(ListenerDocOf(s.listeners[i])) == ListenerBare(s.listeners[i])
    {
      assert s.listeners[i] in s.listeners;
      ListenerReturns(safe, s.listeners[i]);
    }
    assert Map(ListenerFrom, Map(ListenerDocOf, s.listeners)) == Map(ListenerBare, s.listeners);
  }
}
