/** Event names, page tables and enrichment: internal/models/events.go. */
module Events {
  import opened Prelude
  import opened Messages

  const ACCEPTED_EVENT_NAMES: set<string> := {
    "fedi_listener_go_dispatcher", "interactions", "insights", "cdp_profile_interactions",
    "aggregate_dashboard_go_dispatcher", "custom_dashboard_go_dispatcher", "fedi_data", "alert_data",
    "chats_page_data", "chats_interactions", "survey_insights_go_dispatcher",
    "survey_individual_questions_insights_go_dispatcher", "benchmark_go_dispatcher", "fedi_private_data",
    "fedi_interactions", "fedi_private_interactions", "custom_projects", "explore_go_dispatcher",
    "engagements_go_dispatcher", "engagements_notes_go_dispatcher", "engagements_analytics_go_dispatcher",
    "engagements_single_interaction_dm_history", "single_post_go_dispatcher",
    "engagements_survey_feedback_go_dispatcher", "top_trends_go_dispatcher", "single_interaction_go_dispatcher",
    "csat_questions_responses_count", "csat_question_responses", "csat_user_responses", "calc_export",
    "unified_json", "qdtranscriber_go_dispatcher",
    "staci.fedi.dispatcher", "staci.calc.export_request", "staci.transcriber.dispatcher"
  }

  predicate IsAccepted(eventName: string) {
    eventName in ACCEPTED_EVENT_NAMES
  }

  const ENGAGEMENTS_PAGES: map<string, string> := map[
    "engagements" := "EngagementsProductPage",
    "engagements_profile_data" := "EngagementsProfileDataPage",
    "engagements_logs_data" := "EngagementsSlasPage",
    "engagements_notes" := "EngagementsNotesPage",
    "engagements_analytics" := "EngagementAnalyticsPage",
    "engagements_single_interaction_dm_history" := "EngagementsSingleInteractionDMHistoryPage",
    "engagement_survey_feedback" := "EngagementSurveyFeedbackPage"
  ]

  const UNIFIED_JSON_PAGES: map<string, string> := map[
    "account_performance_page" := "UnifiedAccountPerformancePage",
    "account_content_page" := "UnifiedAccountContentPage",
    "visual_content_page" := "UnifiedVisualContentPage",
    "engagement_insights_page" := "UnifiedEngagementInsightsPage",
    "customer_care_page" := "UnifiedCustomerCarePerformancePage",
    "posts_page" := "UnifiedPostPage",
    "engagements_page" := "UnifiedPostPage",
    "questions_page" := "UnifiedQuestionsPage",
    "authors_page" := "UnifiedAuthorsPage",
    "profile_page" := "UnifiedProfilePage",
    "dynamic_widgets_page" := "UnifiedDynamicWidgetsPage",
    "benchmark_page" := "UnifiedBenchmarkPage"
  ]

  /** What one event name does to the page: leave it, set it, or translate it through a table. */
  datatype PageRule =
    | Keep
    | Fix(page: string)
    | Translate(table: map<string, string>, whenEmpty: Option<string>)

  /** The page that an event name alone decides. */
  function FixedPage(eventName: string): Option<string> {
    match eventName
    case "interactions" => Some("ResearchInteractionsPage")
    case "insights" => Some("ResearchInsightsPage")
    case "chats_page_data" => Some("ResearchChatsPage")
    case "chats_interactions" => Some("ResearchChatsInteractionsPage")
    case "fedi_private_data" => Some("ResearchSingleDataSourceInsightsPage")
    case "fedi_private_interactions" => Some("ResearchSingleDataSourceInteractionsPage")
    case "cdp_profile_interactions" => Some("CDPProfileInteractionsPage")
    case "survey_insights_go_dispatcher" => Some("SurveyPage")
    case "survey_individual_questions_insights_go_dispatcher" => Some("SurveyIndividualQuestionsInsightsPage")
    case "engagements_notes_go_dispatcher" => Some("EngagementsNotesPage")
    case "engagements_analytics_go_dispatcher" => Some("EngagementAnalyticsPage")
    case "engagements_single_interaction_dm_history" => Some("EngagementsSingleInteractionDMHistoryPage")
    case "engagements_survey_feedback_go_dispatcher" => Some("EngagementSurveyFeedbackPage")
    case "single_interaction_go_dispatcher" => Some("SingleInteractionPage")
    case "csat_questions_responses_count" => Some("FulfillmentQuestionsResponsesCountPage")
    case "csat_question_responses" => Some("FulfillmentQuestionResponsesPage")
    case "csat_user_responses" => Some("FulfillmentUserResponsesPage")
    case _ => None
  }

  function PageRuleOf(eventName: string): PageRule {
    if eventName == "engagements_go_dispatcher" then Translate(ENGAGEMENTS_PAGES, Some("EngagementsProductPage"))
    else if eventName == "unified_json" then Translate(UNIFIED_JSON_PAGES, None)
    else match FixedPage(eventName)
      case Some(page) => Fix(page)
      case None => Keep
  }

  function EnrichedPage(rule: PageRule, page: string): string {
    match rule
    case Keep => page
    case Fix(fixed) => fixed
    case Translate(table, whenEmpty) =>
      if page == "" then (if whenEmpty.Some? then whenEmpty.value else page)
      else if page in table then table[page]
      else page
  }

  function EnrichedProduct(eventName: string, product: string): string {
    if eventName == "aggregate_dashboard_go_dispatcher" || eventName == "custom_dashboard_go_dispatcher"
    then "Dashboards" else product
  }

  function EnrichedSource(eventName: string, source: string): string {
    if eventName == "fedi_private_data" || eventName == "fedi_private_interactions"
    then "Fediprivate" else source
  }

  /** The value of the event data after enrichment. */
  function Enrich(eventName: string, info: EventInfo): EventInfo {
    info.(pageName := EnrichedPage(PageRuleOf(eventName), info.pageName),
          product := EnrichedProduct(eventName, info.product),
          dataSourceName := EnrichedSource(eventName, info.dataSourceName))
  }

  /** A table whose values are none of its keys maps nothing twice. */
  ghost predicate OneShot(table: map<string, string>) {
    forall k :: k in table ==> table[k] !in table && table[k] != ""
  }

  /** Every key of the table starts with a lower-case letter and every value with `initial`. */
  ghost predicate LowerToUpper(table: map<string, string>, initial: char) {
    forall k :: k in table ==> |k| > 0 && 'a' <= k[0] <= 'z' && |table[k]| > 0 && table[k][0] == initial
  }

  lemma LowerToUpperIsOneShot(table: map<string, string>, initial: char)
    requires LowerToUpper(table, initial) && initial < 'a'
    ensures OneShot(table)
  {
  }

  lemma EngagementsTable()
    ensures LowerToUpper(ENGAGEMENTS_PAGES, 'E')
  {
  }

  lemma UnifiedTable()
    ensures LowerToUpper(UNIFIED_JSON_PAGES, 'U')
  {
  }

  /** The rule's table maps nothing twice, and the page it picks for an empty name is not a key. */
  ghost predicate StableRule(rule: PageRule) {
    rule.Translate? ==>
      && OneShot(rule.table)
      && (rule.whenEmpty.Some? ==> rule.whenEmpty.value != "" && rule.whenEmpty.value !in rule.table)
  }

  lemma EveryRuleIsStable(eventName: string)
    ensures StableRule(PageRuleOf(eventName))
  {
    if eventName == "engagements_go_dispatcher" {
      EngagementsTable();
      LowerToUpperIsOneShot(ENGAGEMENTS_PAGES, 'E');
      assert "EngagementsProductPage"[0] == 'E';
    } else if eventName == "unified_json" {
      UnifiedTable();
      LowerToUpperIsOneShot(UNIFIED_JSON_PAGES, 'U');
    }
  }

  /** Enriching twice is enriching once, for every event name and every event data. */
  lemma EnrichIsIdempotent(eventName: string, info: EventInfo)
    ensures Enrich(eventName, Enrich(eventName, info)) == Enrich(eventName, info)
  {
    EveryRuleIsStable(eventName);
  }

  /**
   * Enrichment touches the page, the product and the data source only, so the
   * admission checks and the completion protocol read the same values before
   * and after it.
   */
  lemma EnrichFrame(eventName: string, info: EventInfo)
    ensures Enrich(eventName, info).(pageName := "", product := "", dataSourceName := "")
         == info.(pageName := "", product := "", dataSourceName := "")
  {
  }

  // ---- What the enrichment does to each name ----

  /** The page of every other request, which for most names does not depend on the page it asks for. */
  lemma PageByName(eventName: string, info: EventInfo)
    requires eventName != "engagements_go_dispatcher" && eventName != "unified_json"
    ensures Enrich(eventName, info).pageName == match eventName
        case "interactions" => "ResearchInteractionsPage"
        case "insights" => "ResearchInsightsPage"
        case "chats_page_data" => "ResearchChatsPage"
        case "chats_interactions" => "ResearchChatsInteractionsPage"
        case "fedi_private_data" => "ResearchSingleDataSourceInsightsPage"
        case "fedi_private_interactions" => "ResearchSingleDataSourceInteractionsPage"
        case "cdp_profile_interactions" => "CDPProfileInteractionsPage"
        case "survey_insights_go_dispatcher" => "SurveyPage"
        case "survey_individual_questions_insights_go_dispatcher" => "SurveyIndividualQuestionsInsightsPage"
        case "engagements_notes_go_dispatcher" => "EngagementsNotesPage"
        case "engagements_analytics_go_dispatcher" => "EngagementAnalyticsPage"
        case "engagements_single_interaction_dm_history" => "EngagementsSingleInteractionDMHistoryPage"
        case "engagements_survey_feedback_go_dispatcher" => "EngagementSurveyFeedbackPage"
        case "single_interaction_go_dispatcher" => "SingleInteractionPage"
        case "csat_questions_responses_count" => "FulfillmentQuestionsResponsesCountPage"
        case "csat_question_responses" => "FulfillmentQuestionResponsesPage"
        case "csat_user_responses" => "FulfillmentUserResponsesPage"
        case _ => info.pageName
  {
    hide ENGAGEMENTS_PAGES, UNIFIED_JSON_PAGES, EnrichedProduct, EnrichedSource;
  }

  /** The page of an engagements request, by the page it asks for. */
  lemma EngagementsTranslation(info: EventInfo)
    ensures var page, page' := info.pageName, Enrich("engagements_go_dispatcher", info).pageName;
      page' == match page
        case "" => "EngagementsProductPage"
        case "engagements" => "EngagementsProductPage"
        case "engagements_profile_data" => "EngagementsProfileDataPage"
        case "engagements_logs_data" => "EngagementsSlasPage"
        case "engagements_notes" => "EngagementsNotesPage"
        case "engagements_analytics" => "EngagementAnalyticsPage"
        case "engagements_single_interaction_dm_history" => "EngagementsSingleInteractionDMHistoryPage"
        case "engagement_survey_feedback" => "EngagementSurveyFeedbackPage"
        case _ => page
  {
  }

  /** The page of a unified request, by the page it asks for; an empty one stays. */
  lemma UnifiedTranslation(info: EventInfo)
    ensures var pages := map[
        "account_performance_page" := "UnifiedAccountPerformancePage",
        "account_content_page" := "UnifiedAccountContentPage",
        "visual_content_page" := "UnifiedVisualContentPage",
        "engagement_insights_page" := "UnifiedEngagementInsightsPage",
        "customer_care_page" := "UnifiedCustomerCarePerformancePage",
        "posts_page" := "UnifiedPostPage",
        "engagements_page" := "UnifiedPostPage",
        "questions_page" := "UnifiedQuestionsPage",
        "authors_page" := "UnifiedAuthorsPage",
        "profile_page" := "UnifiedProfilePage",
        "dynamic_widgets_page" := "UnifiedDynamicWidgetsPage",
        "benchmark_page" := "UnifiedBenchmarkPage"];
      Enrich("unified_json", info).pageName == if info.pageName in pages then pages[info.pageName] else info.pageName
  {
    NoUnifiedPageIsEmpty();
    hide ENGAGEMENTS_PAGES, FixedPage, EnrichedProduct, EnrichedSource;
  }

  lemma NoUnifiedPageIsEmpty()
    ensures "" !in UNIFIED_JSON_PAGES
  {
    UnifiedTable();
    hide UNIFIED_JSON_PAGES;
  }

  /** Product and data source change for two names each, to one value each. */
  lemma ProductAndSource(eventName: string, info: EventInfo)
    ensures Enrich(eventName, info).product ==
      if eventName in {"aggregate_dashboard_go_dispatcher", "custom_dashboard_go_dispatcher"}
      then "Dashboards" else info.product
    ensures Enrich(eventName, info).dataSourceName ==
      if eventName in {"fedi_private_data", "fedi_private_interactions"} then "Fediprivate" else info.dataSourceName
  {
    hide EnrichedPage, PageRuleOf;
  }

  /** The cases of the switch that set a constant page name. */
  method SetFixedPage(eventName: string, eventData: EventData)
    modifies eventData`pageName
    ensures eventData.pageName ==
      match FixedPage(eventName) case Some(page) => page case None => old(eventData.pageName)
  {
    match eventName {
      case "interactions" => eventData.pageName := "ResearchInteractionsPage";
      case "insights" => eventData.pageName := "ResearchInsightsPage";
      case "chats_page_data" => eventData.pageName := "ResearchChatsPage";
      case "chats_interactions" => eventData.pageName := "ResearchChatsInteractionsPage";
      case "fedi_private_data" => eventData.pageName := "ResearchSingleDataSourceInsightsPage";
      case "fedi_private_interactions" => eventData.pageName := "ResearchSingleDataSourceInteractionsPage";
      case "cdp_profile_interactions" => eventData.pageName := "CDPProfileInteractionsPage";
      case "survey_insights_go_dispatcher" => eventData.pageName := "SurveyPage";
      case "survey_individual_questions_insights_go_dispatcher" =>
        eventData.pageName := "SurveyIndividualQuestionsInsightsPage";
      case "engagements_notes_go_dispatcher" => eventData.pageName := "EngagementsNotesPage";
      case "engagements_analytics_go_dispatcher" => eventData.pageName := "EngagementAnalyticsPage";
      case "engagements_single_interaction_dm_history" =>
        eventData.pageName := "EngagementsSingleInteractionDMHistoryPage";
      case "engagements_survey_feedback_go_dispatcher" => eventData.pageName := "EngagementSurveyFeedbackPage";
      case "single_interaction_go_dispatcher" => eventData.pageName := "SingleInteractionPage";
      case "csat_questions_responses_count" => eventData.pageName := "FulfillmentQuestionsResponsesCountPage";
      case "csat_question_responses" => eventData.pageName := "FulfillmentQuestionResponsesPage";
      case "csat_user_responses" => eventData.pageName := "FulfillmentUserResponsesPage";
      case _ =>
    }
  }

  /** Rewrites the passed event data in place. */
  method EventToPageEnrichment(eventName: string, eventData: EventData?)
    modifies eventData
    ensures eventData != null ==> eventData.Info() == Enrich(eventName, old(eventData.Info()))
  {
    if eventData == null {
      return;
    }
    match eventName {
      case "engagements_go_dispatcher" =>
        if eventData.pageName != "" {
          if eventData.pageName in ENGAGEMENTS_PAGES {
            eventData.pageName := ENGAGEMENTS_PAGES[eventData.pageName];
          }
        } else {
          eventData.pageName := "EngagementsProductPage";
        }
      case "unified_json" =>
        if eventData.pageName != "" {
          if eventData.pageName in UNIFIED_JSON_PAGES {
            eventData.pageName := UNIFIED_JSON_PAGES[eventData.pageName];
          }
        }
      case _ =>
        SetFixedPage(eventName, eventData);
        if eventName == "aggregate_dashboard_go_dispatcher" || eventName == "custom_dashboard_go_dispatcher" {
          eventData.product := "Dashboards";
        }
        if eventName == "fedi_private_data" || eventName == "fedi_private_interactions" {
          eventData.dataSourceName := "Fediprivate";
        }
    }
  }
}
