/** The strategy registry and the run that feeds the sender queue: internal/controller/controller.go. */
module Controller {
  import opened Prelude
  import opened Messages

  /** The strategies there are (internal/strategies/stub.go:10-11). */
  datatype Strategy = Stub

  /** What a strategy is registered for. */
  datatype Triple = Triple(product: string, page: string, alert: string)

  /** One flat string for three names, in three shapes. */
  function StrategyKey(t: Triple): string {
    if t.alert != "" then t.product + "|" + t.page + "|" + t.alert
    else if t.product != "" then t.product + "|" + t.page
    else t.page
  }

  predicate BarFree(s: string) { '|' !in s }

  predicate BarFreeTriple(t: Triple) {
    BarFree(t.product) && BarFree(t.page) && BarFree(t.alert)
  }

  /** Splitting at the first bar is unambiguous when the left part has none. */
  lemma SplitAtBar(a: string, b: string, x: string, y: string)
    requires BarFree(a) && BarFree(b)
    requires a + "|" + x == b + "|" + y
    ensures a == b && x == y
  {
    var s, t := a + "|" + x, b + "|" + y;
    assert s[|a|] == '|' && t[|b|] == '|';
    assert forall k :: 0 <= k < |a| ==> s[k] == a[k] && a[k] in a;
    assert forall k :: 0 <= k < |b| ==> t[k] == b[k] && b[k] in b;
    assert |a| == |b|;
    assert a == s[..|a|] == t[..|b|] == b;
    assert x == s[|a| + 1..] == t[|b| + 1..] == y;
  }

  /** A key of the three-part shape never equals one of the shorter shapes. */
  lemma BarsSeparateShapes(a: string, x: string, b: string)
    requires BarFree(b)
    ensures a + "|" + x != b
  {
    assert (a + "|" + x)[|a|] == '|';
  }

  /** On names without bars the flat key tells all triples apart, whatever their shapes. */
  lemma StrategyKeyIsInjective(t: Triple, u: Triple)
    requires BarFreeTriple(t) && BarFreeTriple(u)
    requires StrategyKey(t) == StrategyKey(u)
    ensures t == u
    decreases t.alert == ""
  {
    if t.alert == "" && u.alert != "" {
      StrategyKeyIsInjective(u, t);
    } else if t.alert != "" {
      assert StrategyKey(t) == t.product + "|" + (t.page + "|" + t.alert);
      if u.alert != "" {
        assert StrategyKey(u) == u.product + "|" + (u.page + "|" + u.alert);
        SplitAtBar(t.product, u.product, t.page + "|" + t.alert, u.page + "|" + u.alert);
        SplitAtBar(t.page, u.page, t.alert, u.alert);
      } else if u.product != "" {
        SplitAtBar(t.product, u.product, t.page + "|" + t.alert, u.page);
        BarsSeparateShapes(t.page, t.alert, u.page);
      } else {
        BarsSeparateShapes(t.product, t.page + "|" + t.alert, u.page);
      }
    } else if t.product != "" {
      if u.product != "" {
        SplitAtBar(t.product, u.product, t.page, u.page);
      } else {
        BarsSeparateShapes(t.product, t.page, u.page);
      }
    } else if u.product != "" {
      BarsSeparateShapes(u.product, u.page, t.page);
    }
  }

  /** Names with a bar can collide: wherever a bar may be read as a separator, two different triples share a key. */
  lemma KeysWithBarsCollide(a: string, b: string, c: string)
    requires a != "" && c != ""
    ensures StrategyKey(Triple("", a + "|" + b, "")) == StrategyKey(Triple(a, b, ""))
    ensures StrategyKey(Triple(a, b + "|" + c, "")) == StrategyKey(Triple(a, b, c))
  {
    assert a + "|" + (b + "|" + c) == a + "|" + b + "|" + c;
  }

  /** A bar stands behind the first character of the key. */
  predicate HasInnerBar(key: string) {
    exists i :: 0 < i < |key| && key[i] == '|'
  }

  /**
   * Exactly when a key is ambiguous: some other triple has it if and only if a bar
   * stands behind its first character.
   */
  lemma KeyIsSharedIff(t: Triple)
    ensures (exists u :: u != t && StrategyKey(u) == StrategyKey(t)) <==> HasInnerBar(StrategyKey(t))
  {
    var key := StrategyKey(t);
    if HasInnerBar(key) {
      var i :| 0 < i < |key| && key[i] == '|';
      assert key == key[..i] + "|" + key[i + 1..];
      assert StrategyKey(Triple("", key, "")) == key == StrategyKey(Triple(key[..i], key[i + 1..], ""));
    } else {
      forall u | StrategyKey(u) == key ensures u == Triple("", key, "") {
        PlainKeyIsPage(u);
      }
      assert t == Triple("", key, "");
    }
  }

  lemma PlainKeyIsPage(u: Triple)
    ensures HasInnerBar(StrategyKey(u)) || u == Triple("", StrategyKey(u), "")
  {
    var key := StrategyKey(u);
    if u.alert != "" {
      assert key[|u.product| + 1 + |u.page|] == '|';
    } else if u.product != "" {
      assert key[|u.product|] == '|';
    }
  }

  /** A sequence of Register calls, oldest first. */
  type Registrations<S> = seq<(Triple, S)>

  /** What the registry is meant to be: a map on triples, later calls winning. */
  function TripleMap<S>(calls: Registrations<S>): map<Triple, S> {
    if calls == [] then map[]
    else
      var n := |calls| - 1;
      TripleMap(calls[..n])[calls[n].0 := calls[n].1]
  }

  /** What the registry is: a map on flat keys. */
  function KeyMap<S>(calls: Registrations<S>): map<string, S> {
    if calls == [] then map[]
    else
      var n := |calls| - 1;
      KeyMap(calls[..n])[StrategyKey(calls[n].0) := calls[n].1]
  }

  function LookupTriple<S>(strategies: map<Triple, S>, t: Triple): Option<S> {
    if t in strategies then Some(strategies[t])
    else if Triple("", t.page, "") in strategies then Some(strategies[Triple("", t.page, "")])
    else None
  }

  function LookupKey<S>(strategies: map<string, S>, t: Triple): Option<S> {
    if StrategyKey(t) in strategies then Some(strategies[StrategyKey(t)])
    else if t.page in strategies then Some(strategies[t.page])
    else None
  }

  /** The triple of the last call under the key. */
  function LastUnder<S>(calls: Registrations<S>, key: string): Option<Triple> {
    if calls == [] then None
    else
      var n := |calls| - 1;
      if StrategyKey(calls[n].0) == key then Some(calls[n].0) else LastUnder(calls[..n], key)
  }

  /** A key is bound to the strategy of the triple last registered under it. */
  lemma {:induction false} KeyIsOfLast<S>(calls: Registrations<S>, key: string)
    ensures key in KeyMap(calls) <==> LastUnder(calls, key).Some?
    ensures LastUnder(calls, key).Some? ==>
      var u := LastUnder(calls, key).value;
      StrategyKey(u) == key && u in TripleMap(calls) && KeyMap(calls)[key] == TripleMap(calls)[u]
  {
    if calls != [] {
      hide StrategyKey;
      KeyIsOfLast(calls[..|calls| - 1], key);
    }
  }

  /** A registered triple has its key taken, by itself or by a later one. */
  lemma {:induction false} RegisteredHasKey<S>(calls: Registrations<S>, u: Triple)
    requires u in TripleMap(calls)
    ensures LastUnder(calls, StrategyKey(u)).Some?
  {
    hide StrategyKey;
    var n := |calls| - 1;
    if u != calls[n].0 {
      RegisteredHasKey(calls[..n], u);
    }
  }

  /** The key of the triple was last taken by the triple itself, or never. */
  predicate OwnsKey<S>(calls: Registrations<S>, t: Triple) {
    LastUnder(calls, StrategyKey(t)) == None || LastUnder(calls, StrategyKey(t)) == Some(t)
  }

  /** The key the lookup ends at is its own. */
  predicate Resolves<S>(calls: Registrations<S>, t: Triple) {
    && OwnsKey(calls, t)
    && (LastUnder(calls, StrategyKey(t)).None? ==> OwnsKey(calls, Triple("", t.page, "")))
  }

  /** Different triples have different strategies. */
  ghost predicate AllDistinct<S>(strategies: map<Triple, S>) {
    forall u, v :: u in strategies && v in strategies && strategies[u] == strategies[v] ==> u == v
  }

  /** What a lookup answers, whatever names are registered and looked up. */
  lemma LookupIsOfLast<S>(calls: Registrations<S>, t: Triple)
    ensures var strategies, exact, bare := TripleMap(calls), LastUnder(calls, StrategyKey(t)), LastUnder(calls, t.page);
      var found := if exact.Some? then exact else bare;
      match found
      case Some(u) => u in strategies && LookupKey(KeyMap(calls), t) == Some(strategies[u])
      case None => LookupKey(KeyMap(calls), t) == None
  {
    KeyIsOfLast(calls, StrategyKey(t));
    KeyIsOfLast(calls, t.page);
  }

  /**
   * Exactly when the flat keys do no harm. A lookup, of any names, is answered as
   * the map on triples with fallback would answer it if the key it ends at was
   * last registered by that very triple, or by none; and only then, when
   * different triples have different strategies.
   */
  lemma RegistryRefinesIff<S>(calls: Registrations<S>, t: Triple)
    ensures Resolves(calls, t) ==> LookupKey(KeyMap(calls), t) == LookupTriple(TripleMap(calls), t)
    ensures AllDistinct(TripleMap(calls)) && LookupKey(KeyMap(calls), t) == LookupTriple(TripleMap(calls), t) ==>
      Resolves(calls, t)
  {
    var page := Triple("", t.page, "");
    KeyIsOfLast(calls, StrategyKey(t));
    KeyIsOfLast(calls, StrategyKey(page));
    if t in TripleMap(calls) { RegisteredHasKey(calls, t); }
    if page in TripleMap(calls) { RegisteredHasKey(calls, page); }
    if LastUnder(calls, StrategyKey(t)) == Some(page) { OwnKeyIsLonger(t); }
  }

  lemma OwnKeyIsLonger(t: Triple)
    ensures StrategyKey(t) == t.page ==> t == Triple("", t.page, "")
  {
  }

  /** No other registered triple has the key of this one. */
  ghost predicate KeyIsOwn<S>(calls: Registrations<S>, t: Triple) {
    forall i :: 0 <= i < |calls| && StrategyKey(calls[i].0) == StrategyKey(t) ==> calls[i].0 == t
  }

  lemma {:induction false} OwnKeyIsOwned<S>(calls: Registrations<S>, t: Triple)
    requires KeyIsOwn(calls, t)
    ensures OwnsKey(calls, t)
  {
    if calls != [] {
      hide StrategyKey;
      OwnKeyIsOwned(calls[..|calls| - 1], t);
    }
  }

  /**
   * The registry answers as the map on triples would, fallback included, unless
   * another registered triple shares one of the two keys looked up.
   */
  lemma RegistryRefinesTripleMap<S>(calls: Registrations<S>, t: Triple)
    requires KeyIsOwn(calls, t) && KeyIsOwn(calls, Triple("", t.page, ""))
    ensures LookupKey(KeyMap(calls), t) == LookupTriple(TripleMap(calls), t)
  {
    OwnKeyIsOwned(calls, t);
    OwnKeyIsOwned(calls, Triple("", t.page, ""));
    RegistryRefinesIff(calls, t);
  }

  ghost predicate BarFreeCalls<S>(calls: Registrations<S>) {
    forall i :: 0 <= i < |calls| ==> BarFreeTriple(calls[i].0)
  }

  /** Among names without bars no key is shared. */
  lemma BarFreeKeysAreOwn<S>(calls: Registrations<S>, t: Triple)
    requires BarFreeCalls(calls) && BarFreeTriple(t)
    ensures KeyIsOwn(calls, t) && KeyIsOwn(calls, Triple("", t.page, ""))
  {
    forall i | 0 <= i < |calls| && StrategyKey(calls[i].0) == StrategyKey(t) ensures calls[i].0 == t {
      StrategyKeyIsInjective(calls[i].0, t);
    }
    var page := Triple("", t.page, "");
    forall i | 0 <= i < |calls| && StrategyKey(calls[i].0) == StrategyKey(page) ensures calls[i].0 == page {
      StrategyKeyIsInjective(calls[i].0, page);
    }
  }

  /** The shared registry. `calls` remembers every registration, for specification only. */
  class Registry<S> {
    var strategies: map<string, S>
    ghost var calls: Registrations<S>

    ghost predicate Valid()
      reads this
    {
      strategies == KeyMap(calls)
    }

    constructor ()
      ensures Valid() && calls == []
    {
      strategies, calls := map[], [];
    }

    method Register(product: string, pageName: string, pageAlertNotification: string, s: S)
      requires Valid()
      modifies this
      ensures Valid()
      ensures calls == old(calls) + [(Triple(product, pageName, pageAlertNotification), s)]
      ensures var key := if pageAlertNotification != "" then product + "|" + pageName + "|" + pageAlertNotification
                         else if product != "" then product + "|" + pageName else pageName;
        strategies == old(strategies)[key := s]
    {
      var key := StrategyKey(Triple(product, pageName, pageAlertNotification));
      strategies := strategies[key := s];
      calls := calls + [(Triple(product, pageName, pageAlertNotification), s)];
      assert calls[..|calls| - 1] == old(calls);
    }

    method Get(product: string, pageName: string, pageAlertNotification: string) returns (r: Option<S>)
      requires Valid()
      ensures r == LookupKey(strategies, Triple(product, pageName, pageAlertNotification))
      ensures Resolves(calls, Triple(product, pageName, pageAlertNotification)) ==>
        r == LookupTriple(TripleMap(calls), Triple(product, pageName, pageAlertNotification))
      ensures var key := if pageAlertNotification != "" then product + "|" + pageName + "|" + pageAlertNotification
                         else if product != "" then product + "|" + pageName else pageName;
        r == if key in strategies then Some(strategies[key])
             else if pageName in strategies then Some(strategies[pageName]) else None
    {
      RegistryRefinesIff(calls, Triple(product, pageName, pageAlertNotification));
      var key := StrategyKey(Triple(product, pageName, pageAlertNotification));
      if key in strategies {
        return Some(strategies[key]);
      }
      key := StrategyKey(Triple("", pageName, ""));
      if key in strategies {
        return Some(strategies[key]);
      }
      return None;
    }
  }

  /** The names under which Controller.Run looks a request up. */
  function LookupNames(info: EventInfo): Triple {
    var page := if info.product == "Alerts" && info.pageAlertNotification != "" then info.pageAlertNotification
                else info.pageName;
    Triple(info.product, if page == "" then "Default" else page, info.pageAlertNotification)
  }

  /** Some registered strategy answers the request. */
  predicate HasStrategy(keys: set<string>, info: EventInfo) {
    StrategyKey(LookupNames(info)) in keys || LookupNames(info).page in keys
  }

  /** The item the stub strategy builds. */
  function StubItem(src: nat, info: EventInfo): Item {
    Widget(src,
           Outgoing(if info.pageName != "" then info.pageName + "__stub" else "Stub__Widget",
                    StubBody(info.pageName, info.routingKey), info.queueName, info.streamTech),
           info.routingKey)
  }

  /** The item pushed when no strategy is found. It carries no stream_tech. */
  function PlaceholderItem(src: nat, info: EventInfo): Item {
    Widget(src, Outgoing("Dispatcher__Placeholder", NoStrategy(LookupNames(info).page), "", ""), info.routingKey)
  }

  /** The one item a controller run pushes. */
  function WidgetOf(keys: set<string>, src: nat, info: EventInfo): Item {
    if HasStrategy(keys, info) then StubItem(src, info) else PlaceholderItem(src, info)
  }

  function MarkerOf(src: nat, info: EventInfo): Item {
    Marker(src, info.routingKey)
  }

  /** The sending end of the sender queue: everything that was ever sent on it. */
  class SenderQueue {
    var sent: seq<Item>

    constructor ()
      ensures sent == []
    {
      sent := [];
    }

    /** The select between the send and ctx.Done(); `chosen` tells which case fired. */
    method Select(item: Item, chosen: bool) returns (ok: bool)
      modifies this
      ensures sent == old(sent) + (if chosen then [item] else []) && ok == chosen
    {
      if chosen {
        sent := sent + [item];
      }
      return chosen;
    }
  }

  /** StubStrategy.CallPageData (internal/strategies/stub.go:14-40). */
  method CallPageData(src: nat, params: EventData, queue: SenderQueue, chosen: bool) returns (ok: bool)
    modifies queue
    ensures queue.sent == old(queue.sent) + (if chosen then [StubItem(src, params.Info())] else []) && ok == chosen
  {
    var eventName := "Stub__Widget";
    if params.pageName != "" {
      eventName := params.pageName + "__stub";
    }
    var body := StubBody(params.pageName, params.routingKey);
    var message := Outgoing(eventName, body, params.queueName, params.streamTech);
    ok := queue.Select(Widget(src, message, params.routingKey), chosen);
  }

  /** Controller.Run: looks the strategy up and has exactly one item sent, unless the context is done first. */
  method Run<S>(registry: Registry<S>, src: nat, params: EventData?, queue: SenderQueue, chosen: bool)
    returns (ok: bool)
    requires registry.Valid()
    modifies queue
    ensures params == null ==> ok && queue.sent == old(queue.sent)
    ensures params != null ==>
      && ok == chosen
      && queue.sent == old(queue.sent) +
           (if chosen then [WidgetOf(registry.strategies.Keys, src, params.Info())] else [])
    ensures params != null && chosen ==>
      var product, alert := params.product, params.pageAlertNotification;
      var asked := if product == "Alerts" && alert != "" then alert else params.pageName;
      var page := if asked == "" then "Default" else asked;
      var key := if alert != "" then product + "|" + page + "|" + alert
                 else if product != "" then product + "|" + page else page;
      queue.sent == old(queue.sent) + [Widget(src,
        if key in registry.strategies || page in registry.strategies
        then Outgoing(if params.pageName != "" then params.pageName + "__stub" else "Stub__Widget",
                      StubBody(params.pageName, params.routingKey), params.queueName, params.streamTech)
        else Outgoing("Dispatcher__Placeholder", NoStrategy(page), "", ""),
        params.routingKey)]
  {
    if params == null {
      return true;
    }
    var pageName := params.pageName;
    if params.product == "Alerts" && params.pageAlertNotification != "" {
      pageName := params.pageAlertNotification;
    }
    if pageName == "" {
      pageName := "Default";
    }
    var strategy := registry.Get(params.product, pageName, params.pageAlertNotification);
    if strategy.Some? {
      ok := CallPageData(src, params, queue, chosen);
      return;
    }
    var message := Outgoing("Dispatcher__Placeholder", NoStrategy(pageName), "", "");
    ok := queue.Select(Widget(src, message, params.routingKey), chosen);
  }
}
