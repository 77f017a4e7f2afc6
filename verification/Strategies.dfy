/** The stub strategies and what they cover: internal/strategies/stub.go. */
module Strategies {
  import opened Prelude
  import opened Messages
  import opened Events
  import opened Controller

  const PAGES: seq<string> := [
    "CustomDashboard", "AccountPage", "EngagementsPage", "CustomerCarePage", "PostsPage",
    "CommentsMentionsPage", "AuthorsPage", "QuestionsPage", "ResearchInteractionsPage", "ResearchInsightsPage",
    "ResearchChatsPage", "ResearchChatsInteractionsPage", "ResearchSingleDataSourceInsightsPage",
    "ResearchSingleDataSourceInteractionsPage", "CDPProfileInteractionsPage", "SurveyPage",
    "SurveyIndividualQuestionsInsightsPage", "EngagementAnalyticsPage", "EngagementsNotesPage",
    "EngagementsSingleInteractionDMHistoryPage", "EngagementSurveyFeedbackPage", "SingleInteractionPage",
    "FulfillmentQuestionsResponsesCountPage", "FulfillmentQuestionResponsesPage", "FulfillmentUserResponsesPage",
    "UnifiedAccountPerformancePage", "UnifiedAccountContentPage", "UnifiedVisualContentPage",
    "UnifiedEngagementInsightsPage", "UnifiedCustomerCarePerformancePage", "UnifiedPostPage",
    "UnifiedQuestionsPage", "UnifiedAuthorsPage", "UnifiedProfilePage", "UnifiedDynamicWidgetsPage",
    "UnifiedBenchmarkPage", "EngagementsProductPage", "EngagementAnalyticsPageExport", "Default"
  ]

  const DASHBOARDS: seq<string> := [
    "CustomDashboard", "AccountPage", "EngagementsPage", "CustomerCarePage", "PostsPage", "CommentsMentionsPage",
    "AuthorsPage", "QuestionsPage"
  ]

  const ALERTS: seq<string> := [
    "TrendingAlert", "NegativePostsAlert", "NewPostAlert", "HighVolumeReachAlert", "ViralTweetAlert", "InfluencerAlert",
    "VerifiedAuthorAlert", "HourlyAlertNotification"
  ]

  const PUBLIC_API: seq<string> := [
    "Account", "Engagements", "CustomerCare", "Posts", "Analytics", "Chats", "Interactions", "SingleSource",
    "SocialMedia", "EngagementAnalytics"
  ]

  /** One registration per name, for one product and no alert. */
  function CallsFor(product: string, names: seq<string>): (r: Registrations<Strategy>)
    ensures |r| == |names| && forall i :: 0 <= i < |names| ==> r[i] == (Triple(product, names[i], ""), Stub)
  {
    seq(|names|, i requires 0 <= i < |names| => (Triple(product, names[i], ""), Stub))
  }

  /** Everything RegisterStubStrategies registers, in order. */
  function StubCalls(): Registrations<Strategy> {
    CallsFor("", PAGES) + CallsFor("Dashboards", DASHBOARDS) + CallsFor("Alerts", ALERTS)
    + CallsFor("PUBLIC_API", PUBLIC_API)
  }

  /** The keys of the registry the program runs with. */
  function StubKeys(): set<string> {
    KeyMap(StubCalls()).Keys
  }

  /** The loop over one list of names. */
  method RegisterAll(r: Registry<Strategy>, product: string, names: seq<string>)
    requires r.Valid()
    modifies r
    ensures r.Valid() && r.calls == old(r.calls) + CallsFor(product, names)
  {
    var i := 0;
    while i < |names|
      invariant 0 <= i <= |names|
      invariant r.Valid() && r.calls == old(r.calls) + CallsFor(product, names)[..i]
    {
      r.Register(product, names[i], "", Stub);
      i := i + 1;
    }
  }

  method RegisterDashboards(r: Registry<Strategy>)
    requires r.Valid()
    modifies r
    ensures r.Valid() && r.calls == old(r.calls) + CallsFor("Dashboards", DASHBOARDS)
  {
    hide KeyMap, StrategyKey;
    r.Register("Dashboards", "CustomDashboard", "", Stub);
    r.Register("Dashboards", "AccountPage", "", Stub);
    r.Register("Dashboards", "EngagementsPage", "", Stub);
    r.Register("Dashboards", "CustomerCarePage", "", Stub);
    r.Register("Dashboards", "PostsPage", "", Stub);
    r.Register("Dashboards", "CommentsMentionsPage", "", Stub);
    r.Register("Dashboards", "AuthorsPage", "", Stub);
    r.Register("Dashboards", "QuestionsPage", "", Stub);
  }

  method RegisterPublicApi(r: Registry<Strategy>)
    requires r.Valid()
    modifies r
    ensures r.Valid() && r.calls == old(r.calls) + CallsFor("PUBLIC_API", PUBLIC_API)
  {
    hide KeyMap, StrategyKey;
    r.Register("PUBLIC_API", "Account", "", Stub);
    r.Register("PUBLIC_API", "Engagements", "", Stub);
    r.Register("PUBLIC_API", "CustomerCare", "", Stub);
    r.Register("PUBLIC_API", "Posts", "", Stub);
    r.Register("PUBLIC_API", "Analytics", "", Stub);
    r.Register("PUBLIC_API", "Chats", "", Stub);
    r.Register("PUBLIC_API", "Interactions", "", Stub);
    r.Register("PUBLIC_API", "SingleSource", "", Stub);
    r.Register("PUBLIC_API", "SocialMedia", "", Stub);
    r.Register("PUBLIC_API", "EngagementAnalytics", "", Stub);
  }

  /** Fills an empty registry with the stub for every page, dashboard, alert and public-API name. */
  method RegisterStubStrategies(r: Registry<Strategy>)
    requires r.Valid() && r.calls == []
    modifies r
    ensures r.Valid() && r.calls == StubCalls() && r.strategies.Keys == StubKeys()
  {
    RegisterAll(r, "", PAGES);
    RegisterDashboards(r);
    RegisterAll(r, "Alerts", ALERTS);
    RegisterPublicApi(r);
  }

  // ---- Which keys there are ----

  lemma {:induction false} KeysOfCalls<S>(calls: Registrations<S>, key: string)
    ensures key in KeyMap(calls) <==> exists i :: 0 <= i < |calls| && StrategyKey(calls[i].0) == key
  {
    if calls != [] {
      var n := |calls| - 1;
      KeysOfCalls(calls[..n], key);
      assert forall i :: 0 <= i < n ==> calls[..n][i] == calls[i];
    }
  }

  /** The key is a page name, or a product and a name of its list. */
  ghost predicate IsListed(key: string) {
    || key in PAGES
    || (exists name :: name in DASHBOARDS && key == "Dashboards" + "|" + name)
    || (exists name :: name in ALERTS && key == "Alerts" + "|" + name)
    || (exists name :: name in PUBLIC_API && key == "PUBLIC_API" + "|" + name)
  }

  lemma StubKeyShapes(key: string)
    ensures key in StubKeys() <==> IsListed(key)
  {
    hide PAGES, DASHBOARDS, ALERTS, PUBLIC_API;
    KeysOfCalls(StubCalls(), key);
    KeysFor("", PAGES, key);
    KeysFor("Dashboards", DASHBOARDS, key);
    KeysFor("Alerts", ALERTS, key);
    KeysFor("PUBLIC_API", PUBLIC_API, key);
    InConcatenation(CallsFor("", PAGES), CallsFor("Dashboards", DASHBOARDS), CallsFor("Alerts", ALERTS),
                    CallsFor("PUBLIC_API", PUBLIC_API), key);
  }

  ghost predicate HasKey(calls: Registrations<Strategy>, key: string) {
    exists i :: 0 <= i < |calls| && StrategyKey(calls[i].0) == key
  }

  lemma InConcatenation(a: Registrations<Strategy>, b: Registrations<Strategy>, c: Registrations<Strategy>,
                        d: Registrations<Strategy>, key: string)
    ensures HasKey(a + b + c + d, key) <==> HasKey(a, key) || HasKey(b, key) || HasKey(c, key) || HasKey(d, key)
  {
    hide StrategyKey;
    InAppend(a, b, key);
    InAppend(a + b, c, key);
    InAppend(a + b + c, d, key);
  }

  lemma InAppend(a: Registrations<Strategy>, b: Registrations<Strategy>, key: string)
    ensures HasKey(a + b, key) <==> HasKey(a, key) || HasKey(b, key)
  {
    hide StrategyKey;
    if HasKey(a, key) {
      var i :| 0 <= i < |a| && StrategyKey(a[i].0) == key;
      assert (a + b)[i] == a[i];
    }
    if HasKey(b, key) {
      var i :| 0 <= i < |b| && StrategyKey(b[i].0) == key;
      assert (a + b)[|a| + i] == b[i];
    }
  }

  lemma KeysFor(product: string, names: seq<string>, key: string)
    ensures HasKey(CallsFor(product, names), key) <==>
      if product == "" then key in names else exists name :: name in names && key == product + "|" + name
  {
    var calls := CallsFor(product, names);
    if product == "" {
      if key in names {
        var i :| 0 <= i < |names| && names[i] == key;
        assert StrategyKey(calls[i].0) == key;
      }
    } else {
      if name :| name in names && key == product + "|" + name {
        var i :| 0 <= i < |names| && names[i] == name;
        assert StrategyKey(calls[i].0) == key;
      }
      if HasKey(calls, key) {
        var i :| 0 <= i < |calls| && StrategyKey(calls[i].0) == key;
        assert names[i] in names && key == product + "|" + names[i];
      }
    }
  }

  // ---- No name contains the separator ----

  ghost predicate AllBarFree(names: seq<string>) {
    forall i :: 0 <= i < |names| ==> BarFree(names[i])
  }

  lemma PagesFrom0BarFree()
    ensures forall i :: 0 <= i < 5 ==> BarFree(PAGES[i])
  {
  }

  lemma PagesFrom5BarFree()
    ensures forall i :: 5 <= i < 10 ==> BarFree(PAGES[i])
  {
  }

  lemma PagesFrom10BarFree()
    ensures forall i :: 10 <= i < 14 ==> BarFree(PAGES[i])
  {
  }

  lemma PagesFrom14BarFree()
    ensures forall i :: 14 <= i < 18 ==> BarFree(PAGES[i])
  {
  }

  lemma PagesFrom18BarFree()
    ensures forall i :: 18 <= i < 22 ==> BarFree(PAGES[i])
  {
  }

  lemma PagesFrom22BarFree()
    ensures forall i :: 22 <= i < 26 ==> BarFree(PAGES[i])
  {
  }

  lemma PagesFrom26BarFree()
    ensures forall i :: 26 <= i < 30 ==> BarFree(PAGES[i])
  {
  }

  lemma PagesFrom30BarFree()
    ensures forall i :: 30 <= i < 34 ==> BarFree(PAGES[i])
  {
  }

  lemma PagesFrom34BarFree()
    ensures |PAGES| == 39 && forall i :: 34 <= i < 39 ==> BarFree(PAGES[i])
  {
  }

  lemma NamesAreBarFree()
    ensures AllBarFree(PAGES) && AllBarFree(DASHBOARDS) && AllBarFree(ALERTS) && AllBarFree(PUBLIC_API)
  {
    PagesFrom0BarFree();
    PagesFrom5BarFree();
    PagesFrom10BarFree();
    PagesFrom14BarFree();
    PagesFrom18BarFree();
    PagesFrom22BarFree();
    PagesFrom26BarFree();
    PagesFrom30BarFree();
    PagesFrom34BarFree();
    DashboardsBarFree();
    AlertsBarFree();
    PublicApiBarFree();
    hide PAGES, DASHBOARDS, ALERTS, PUBLIC_API, BarFree;
  }

  lemma DashboardsBarFree()
    ensures AllBarFree(DASHBOARDS)
  {
  }

  lemma AlertsBarFree()
    ensures AllBarFree(ALERTS)
  {
  }

  lemma PublicApiBarFree()
    ensures AllBarFree(PUBLIC_API)
  {
  }

  // ---- Routing after enrichment ----

  /** The lookup replaces the page by the alert name. */
  predicate AlertsRewrite(info: EventInfo) {
    info.product == "Alerts" && info.pageAlertNotification != ""
  }

  lemma PageIsFound(info: EventInfo, page: string)
    requires LookupNames(info).page == page && page in PAGES
    ensures HasStrategy(StubKeys(), info)
  {
    hide PAGES, StrategyKey;
    StubKeyShapes(page);
  }

  lemma FixedPagesAreRegistered(eventName: string)
    ensures FixedPage(eventName).Some? ==> FixedPage(eventName).value in PAGES
  {
  }

  lemma UnifiedPagesAreRegistered(page: string)
    ensures page in UNIFIED_JSON_PAGES ==> UNIFIED_JSON_PAGES[page] in PAGES
  {
  }

  /** The two pages of the engagements table that nobody registered. */
  predicate IsOrphanPage(page: string) {
    page == "EngagementsProfileDataPage" || page == "EngagementsSlasPage"
  }

  lemma OtherEngagementPagesAreRegistered(page: string)
    requires page in ENGAGEMENTS_PAGES && !IsOrphanPage(ENGAGEMENTS_PAGES[page])
    ensures ENGAGEMENTS_PAGES[page] in PAGES
  {
  }

  lemma DefaultEngagementPageIsRegistered()
    ensures "EngagementsProductPage" in PAGES
  {
  }

  lemma ProfileDataPageIsMissing()
    ensures "EngagementsProfileDataPage" !in PAGES
  {
  }

  lemma SlasPageIsMissing()
    ensures "EngagementsSlasPage" !in PAGES
  {
  }

  lemma NoPageIsEmpty()
    ensures "" !in PAGES
  {
  }

  /** The page an event name or a table decides, if one of them does. */
  function DecidedPage(eventName: string, page: string): Option<string> {
    match PageRuleOf(eventName)
    case Keep => None
    case Fix(fixed) => Some(fixed)
    case Translate(table, whenEmpty) =>
      if page == "" then whenEmpty else if page in table then Some(table[page]) else None
  }

  /** Every decided page is registered, except exactly the two orphans. */
  lemma DecidedPages(eventName: string, page: string)
    ensures DecidedPage(eventName, page).Some? ==>
      (DecidedPage(eventName, page).value in PAGES <==> !IsOrphanPage(DecidedPage(eventName, page).value))
  {
    ProfileDataPageIsMissing();
    SlasPageIsMissing();
    hide PAGES, ENGAGEMENTS_PAGES, UNIFIED_JSON_PAGES, FixedPage;
    FixedPagesAreRegistered(eventName);
    UnifiedPagesAreRegistered(page);
    DefaultEngagementPageIsRegistered();
    if page in ENGAGEMENTS_PAGES && !IsOrphanPage(ENGAGEMENTS_PAGES[page]) {
      OtherEngagementPagesAreRegistered(page);
    }
  }

  lemma DecidedPageIsSet(eventName: string, info: EventInfo)
    ensures DecidedPage(eventName, info.pageName).Some? ==>
      Enrich(eventName, info).pageName == DecidedPage(eventName, info.pageName).value
  {
    hide FixedPage, ENGAGEMENTS_PAGES, UNIFIED_JSON_PAGES;
  }

  lemma OrphanIsInNoList(page: string)
    requires IsOrphanPage(page)
    ensures page !in DASHBOARDS && page !in ALERTS && page !in PUBLIC_API
  {
  }

  lemma OrphanIsNoPage(page: string)
    requires IsOrphanPage(page)
    ensures page !in PAGES && page != ""
  {
    ProfileDataPageIsMissing();
    SlasPageIsMissing();
    hide PAGES;
  }

  /** No product and no alert name, bars included, makes an orphan page part of a registered key. */
  lemma OrphanHasNoKey(t: Triple)
    requires IsOrphanPage(t.page)
    ensures StrategyKey(t) !in StubKeys()
  {
    OrphanIsNoPage(t.page);
    OrphanIsInNoList(t.page);
    BarFreeProducts();
    hide PAGES, DASHBOARDS, ALERTS, PUBLIC_API, StubKeys, IsOrphanPage, BarFree;
    var key := StrategyKey(t);
    StubKeyShapes(key);
    NamesAreBarFree();
    if t.alert != "" {
      ThreePartKeyIsMissing(t.product, t.page, t.alert);
      assert key == t.product + "|" + (t.page + "|" + t.alert);
    } else if t.product != "" {
      if key in PAGES { BarInPage(t.product, t.page); }
      if name :| name in DASHBOARDS && key == "Dashboards" + "|" + name {
        SameSecondPart("Dashboards", DASHBOARDS, name, t.product, t.page);
      }
      if name :| name in ALERTS && key == "Alerts" + "|" + name {
        SameSecondPart("Alerts", ALERTS, name, t.product, t.page);
      }
      if name :| name in PUBLIC_API && key == "PUBLIC_API" + "|" + name {
        SameSecondPart("PUBLIC_API", PUBLIC_API, name, t.product, t.page);
      }
    } else {
      assert key == t.page;
      if name :| name in DASHBOARDS && key == "Dashboards" + "|" + name { OrphanIsBarFree(t.page, "Dashboards", name); }
      if name :| name in ALERTS && key == "Alerts" + "|" + name { OrphanIsBarFree(t.page, "Alerts", name); }
      if name :| name in PUBLIC_API && key == "PUBLIC_API" + "|" + name { OrphanIsBarFree(t.page, "PUBLIC_API", name); }
    }
  }

  lemma OrphanIsBarFree(page: string, product: string, name: string)
    requires IsOrphanPage(page)
    ensures page != product + "|" + name
  {
    BarsSeparateShapes(product, name, page);
  }

  lemma BarInPage(product: string, page: string)
    ensures product + "|" + page !in PAGES
  {
    NamesAreBarFree();
    hide PAGES;
    var key := product + "|" + page;
    if key in PAGES {
      NameInAllIsBarFree(PAGES, key);
      BarsSeparateShapes(product, page, key);
    }
  }

  /** A registered two-part key has one bar, so it splits in one way only. */
  lemma SameSecondPart(registered: string, names: seq<string>, name: string, product: string, page: string)
    requires AllBarFree(names) && name in names && BarFree(registered)
    requires registered + "|" + name == product + "|" + page
    ensures name == page
  {
    NameInAllIsBarFree(names, name);
    OneBar(registered, name, |product|);
    var key := registered + "|" + name;
    assert (product + "|" + page)[|product|] == '|';
    assert name == key[|registered| + 1..] == page;
  }

  lemma OneBar(a: string, b: string, i: nat)
    requires BarFree(a) && BarFree(b) && i < |a + "|" + b|
    ensures (a + "|" + b)[i] == '|' <==> i == |a|
  {
    var key := a + "|" + b;
    if i < |a| {
      assert key[i] == a[i] && a[i] in a;
    } else if i > |a| {
      assert key[i] == b[i - |a| - 1] && b[i - |a| - 1] in b;
    }
  }

  lemma BarePageKey(page: string)
    ensures StrategyKey(Triple("", page, "")) == page
  {
  }

  /**
   * Routing totality, exactly. Whatever product, alert name and other data a
   * request carries, if its event name or a table decides the page, then after
   * enrichment a strategy answers it if and only if the page is not one of two
   * pages of engagements_go_dispatcher. The product Alerts with an alert name is
   * treated by AlertsRouting.
   */
  lemma RoutingIsTotal(eventName: string, info: EventInfo)
    requires DecidedPage(eventName, info.pageName).Some? && !AlertsRewrite(Enrich(eventName, info))
    ensures HasStrategy(StubKeys(), Enrich(eventName, info)) <==> !IsOrphanPage(Enrich(eventName, info).pageName)
  {
    DecidedPageIsSet(eventName, info);
    DecidedPages(eventName, info.pageName);
    NoPageIsEmpty();
    var enriched := Enrich(eventName, info);
    var page := enriched.pageName;
    hide PAGES, Enrich, DecidedPage, StubKeys, StrategyKey;
    if IsOrphanPage(page) {
      OrphanIsNoPage(page);
      OrphanHasNoKey(LookupNames(enriched));
      OrphanHasNoKey(Triple("", page, ""));
      BarePageKey(page);
    } else {
      PageIsFound(enriched, page);
    }
  }

  /**
   * Alerts. The strategies are registered under Alerts|a, but looked up under
   * Alerts|a|a, which no registration produces: a request of the Alerts product
   * with alert name `a` finds a strategy if and only if `a` is itself listed, as a
   * page or as a product and a name. None of the eight alerts is.
   */
  lemma AlertsRouting(info: EventInfo)
    requires AlertsRewrite(info)
    ensures HasStrategy(StubKeys(), info) <==> IsListed(info.pageAlertNotification)
    ensures info.pageAlertNotification in ALERTS ==> !HasStrategy(StubKeys(), info)
  {
    hide PAGES, DASHBOARDS, ALERTS, PUBLIC_API;
    var a := info.pageAlertNotification;
    var key := StrategyKey(LookupNames(info));
    assert key == "Alerts" + "|" + (a + "|" + a);
    NamesAreBarFree();
    ThreePartKeyIsMissing("Alerts", a, a);
    StubKeyShapes(a);
    if a in ALERTS && a in StubKeys() {
      AlertsAreNoPages(a);
      NameInAllIsBarFree(ALERTS, a);
      if name :| name in DASHBOARDS && a == "Dashboards" + "|" + name { BarsSeparateShapes("Dashboards", name, a); }
      if name :| name in ALERTS && a == "Alerts" + "|" + name { BarsSeparateShapes("Alerts", name, a); }
      if name :| name in PUBLIC_API && a == "PUBLIC_API" + "|" + name { BarsSeparateShapes("PUBLIC_API", name, a); }
    }
  }

  /** The names with a strategy of their own under one of the three products. */
  function NamesUnder(product: string): set<string> {
    if product == "Dashboards" then
      {"CustomDashboard", "AccountPage", "EngagementsPage", "CustomerCarePage", "PostsPage", "CommentsMentionsPage",
       "AuthorsPage", "QuestionsPage"}
    else if product == "Alerts" then
      {"TrendingAlert", "NegativePostsAlert", "NewPostAlert", "HighVolumeReachAlert", "ViralTweetAlert",
       "InfluencerAlert", "VerifiedAuthorAlert", "HourlyAlertNotification"}
    else if product == "PUBLIC_API" then
      {"Account", "Engagements", "CustomerCare", "Posts", "Analytics", "Chats", "Interactions", "SingleSource",
       "SocialMedia", "EngagementAnalytics"}
    else {}
  }

  lemma DashboardNames(name: string)
    ensures name in DASHBOARDS <==> name in NamesUnder("Dashboards")
  {
  }

  lemma AlertNames(name: string)
    ensures name in ALERTS <==> name in NamesUnder("Alerts")
  {
  }

  lemma PublicApiNames(name: string)
    ensures name in PUBLIC_API <==> name in NamesUnder("PUBLIC_API")
  {
  }

  lemma ListUnder(product: string, registered: string, names: seq<string>, page: string)
    requires AllBarFree(names) && BarFree(registered) && BarFree(product)
    ensures (exists name :: name in names && product + "|" + page == registered + "|" + name) <==>
      product == registered && page in names
  {
    if name :| name in names && product + "|" + page == registered + "|" + name {
      SplitAtBar(product, registered, page, name);
    }
  }

  /**
   * Routing of a request without an alert name, for each of the three products:
   * it finds a strategy if and only if its page is one of the names under the
   * product, or is listed by itself.
   */
  lemma ProductRouting(info: EventInfo)
    requires info.product == "Dashboards" || info.product == "Alerts" || info.product == "PUBLIC_API"
    requires info.pageAlertNotification == "" && info.pageName != ""
    ensures HasStrategy(StubKeys(), info) <==> info.pageName in NamesUnder(info.product) || IsListed(info.pageName)
  {
    var product, page := info.product, info.pageName;
    DashboardNames(page);
    AlertNames(page);
    PublicApiNames(page);
    NamesAreBarFree();
    BarFreeProducts();
    BarInPage(product, page);
    ProductKey(info);
    hide PAGES, DASHBOARDS, ALERTS, PUBLIC_API, StubKeys, BarFree, AllBarFree, NamesUnder, StrategyKey;
    StubKeyShapes(page);
    StubKeyShapes(product + "|" + page);
    ListUnder(product, "Dashboards", DASHBOARDS, page);
    ListUnder(product, "Alerts", ALERTS, page);
    ListUnder(product, "PUBLIC_API", PUBLIC_API, page);
  }

  lemma ProductKey(info: EventInfo)
    requires info.product != "" && info.pageAlertNotification == "" && info.pageName != ""
    ensures LookupNames(info).page == info.pageName
    ensures StrategyKey(LookupNames(info)) == info.product + "|" + info.pageName
  {
  }

  /** Every dashboard page has a strategy under no product too, and so has a request that asks for no page. */
  lemma PagesWithoutProduct(info: EventInfo)
    requires !AlertsRewrite(info)
    ensures info.pageName in NamesUnder("Dashboards") ==> HasStrategy(StubKeys(), info)
    ensures info.pageName == "" || info.pageName == "EngagementAnalyticsPageExport" ==> HasStrategy(StubKeys(), info)
  {
    var page := LookupNames(info).page;
    OtherPages();
    if info.pageName in NamesUnder("Dashboards") {
      DashboardsArePages(info.pageName);
      DashboardIsNamed(info.pageName);
    }
    hide PAGES, NamesUnder, StubKeys, IsListed;
    if page in PAGES { PageIsFound(info, page); }
  }

  lemma DashboardIsNamed(page: string)
    ensures page in NamesUnder("Dashboards") ==> page != ""
  {
  }

  lemma DashboardsArePages(page: string)
    requires page in NamesUnder("Dashboards")
    ensures page in PAGES
  {
  }

  lemma OtherPages()
    ensures "Default" in PAGES && "EngagementAnalyticsPageExport" in PAGES
  {
  }

  lemma FirstAlertsAreNoPages()
    ensures forall i :: 0 <= i < 4 ==> ALERTS[i] !in PAGES
  {
  }

  lemma LastAlertsAreNoPages()
    ensures |ALERTS| == 8 && forall i :: 4 <= i < 8 ==> ALERTS[i] !in PAGES
  {
  }

  lemma AlertsAreNoPages(a: string)
    requires a in ALERTS
    ensures a !in PAGES
  {
    FirstAlertsAreNoPages();
    LastAlertsAreNoPages();
    hide PAGES, ALERTS;
    var i :| 0 <= i < |ALERTS| && ALERTS[i] == a;
  }

  lemma NameInAllIsBarFree(names: seq<string>, name: string)
    requires AllBarFree(names) && name in names
    ensures BarFree(name)
  {
  }

  lemma BarFreeProducts()
    ensures BarFree("Dashboards") && BarFree("Alerts") && BarFree("PUBLIC_API")
  {
  }

  /** No registered key has two bars. */
  lemma TwoBarsAreMissing(key: string, i: nat, j: nat)
    requires i < j < |key| && key[i] == '|' && key[j] == '|'
    ensures key !in StubKeys()
  {
    hide PAGES, DASHBOARDS, ALERTS, PUBLIC_API, StubKeys, BarFree;
    NamesAreBarFree();
    StubKeyShapes(key);
    if key in PAGES {
      NameInAllIsBarFree(PAGES, key);
      NoBarIn(key, i);
    }
    BarFreeProducts();
    if name :| name in DASHBOARDS && key == "Dashboards" + "|" + name {
      HasOneBar("Dashboards", DASHBOARDS, name, i, j);
    }
    if name :| name in ALERTS && key == "Alerts" + "|" + name { HasOneBar("Alerts", ALERTS, name, i, j); }
    if name :| name in PUBLIC_API && key == "PUBLIC_API" + "|" + name {
      HasOneBar("PUBLIC_API", PUBLIC_API, name, i, j);
    }
  }

  lemma NoBarIn(key: string, i: nat)
    requires BarFree(key) && i < |key|
    ensures key[i] != '|'
  {
  }

  lemma HasOneBar(product: string, names: seq<string>, name: string, i: nat, j: nat)
    requires AllBarFree(names) && name in names && BarFree(product) && i < j < |product + "|" + name|
    ensures (product + "|" + name)[i] != '|' || (product + "|" + name)[j] != '|'
  {
    NameInAllIsBarFree(names, name);
    OneBar(product, name, i);
    OneBar(product, name, j);
  }

  /** No registered key has three parts. */
  lemma ThreePartKeyIsMissing(product: string, x: string, y: string)
    ensures product + "|" + (x + "|" + y) !in StubKeys()
  {
    var key := product + "|" + (x + "|" + y);
    assert key[|product|] == '|' && key[|product| + 1 + |x|] == '|';
    TwoBarsAreMissing(key, |product|, |product| + 1 + |x|);
  }
}
