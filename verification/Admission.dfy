/** The decision part of Consumer.ProcessMessage: internal/consumer/consumer.go:119-177. */
module Admission {
  import opened Prelude
  import opened Messages
  import opened Events

  const MESSAGE_DISPATCHER_TIMEOUT_SEC := 7200

  const STALE_REQUEST := "stale_request"
  const EXPORT_XLSX_TIMEOUT := "export_xlsx_timeout"
  const EXPORT_SEND_FAILED := "export_send_failed"
  const CONTROLLER_ERROR := "controller_error"

  /** What becomes of a request before any of its data is looked up. */
  datatype Verdict =
    | Skip                                   // acknowledged, nothing done
    | Forward                                // handed to the export pipeline
    | Reject(reason: string, info: EventInfo) // dead-lettered; info is the event data as mutated so far
    | Admit(info: EventInfo)                 // enriched and run

  predicate IsExportRequest(eventName: string, info: EventInfo) {
    || info.exportXlsx
    || eventName == "staci.calc.export_request"
    || eventName == "fedi_listener_go_dispatcher"
    || eventName == "calc_export"
  }

  predicate IsForwarded(cfg: Config, eventName: string, info: EventInfo) {
    info.exporterId != "" && cfg.exportProducer && IsExportRequest(eventName, info)
  }

  predicate BelongsElsewhere(info: EventInfo) {
    info.exporterId != "" || info.jobId != "" || info.isLiveDashboard
    || info.isNewsletterReport || info.isExportEngagements
  }

  /** The request runs unless its age stops it. Nothing here looks at a clock. */
  predicate IsWork(cfg: Config, m: Incoming) {
    && m.eventData.Some?
    && IsAccepted(m.eventName)
    && !IsForwarded(cfg, m.eventName, m.eventData.value)
    && !BelongsElsewhere(m.eventData.value)
  }

  /** The event data with the top-level widget selection appended. */
  function Merged(m: Incoming): EventInfo
    requires m.eventData.Some?
  {
    var info := m.eventData.value;
    info.(selectedWidgets := info.selectedWidgets + m.selectedWidgets)
  }

  predicate TooOld(cfg: Config, now: int, info: EventInfo) {
    info.requestTimestamp > 0 && now - info.requestTimestamp > cfg.eventTimeout
  }

  predicate ExportTooOld(eventName: string, now: int, info: EventInfo) {
    && (eventName == "fedi_listener_go_dispatcher" || eventName == "staci.fedi.dispatcher")
    && info.exportXlsx
    && info.requestTimestamp > 0
    && now - info.requestTimestamp > MESSAGE_DISPATCHER_TIMEOUT_SEC
  }

  /** The verdict, given the two clock readings the code takes. */
  function Judge(cfg: Config, now1: int, now2: int, m: Incoming): Verdict {
    if m.eventData.None? || !IsAccepted(m.eventName) then Skip
    else if IsForwarded(cfg, m.eventName, m.eventData.value) then Forward
    else if BelongsElsewhere(m.eventData.value) then Skip
    else
      var info := Merged(m);
      if TooOld(cfg, now1, info) then Reject(STALE_REQUEST, info)
      else if ExportTooOld(m.eventName, now2, info) then Reject(EXPORT_XLSX_TIMEOUT, info)
      else Admit(Enrich(m.eventName, info))
  }

  /** Waits for its completion marker: `stream_tech` is API and there is a routing key to count under. */
  predicate WantsCompletion(info: EventInfo) {
    info.streamTech == "API" && info.routingKey != ""
  }

  /** The event data an entry is run with, if it is run at all. */
  function Prepared(cfg: Config, e: Entry): Option<EventInfo> {
    match e.Content()
    case Json(m) => if IsWork(cfg, m) then Some(Enrich(m.eventName, Merged(m))) else None
    case _ => None
  }

  /** The entry is a request whose completion is counted under `rk`. */
  predicate IsRequestFor(cfg: Config, e: Entry, rk: string) {
    && Prepared(cfg, e).Some?
    && var info := Prepared(cfg, e).value;
    && info.streamTech == "API" && info.routingKey != "" && info.routingKey == rk
  }

  /** The verdict by the fields of the message, in the order in which they are looked at. */
  lemma JudgeTable(cfg: Config, now1: int, now2: int, m: Incoming)
    requires m.eventData.Some? && IsAccepted(m.eventName)
    ensures var e, d, v := m.eventName, m.eventData.value, Judge(cfg, now1, now2, m);
      var merged := d.(selectedWidgets := d.selectedWidgets + m.selectedWidgets);
      var aged := d.requestTimestamp > 0;
      if d.exporterId != "" && cfg.exportProducer
         && (d.exportXlsx || e == "staci.calc.export_request" || e == "fedi_listener_go_dispatcher"
             || e == "calc_export")
      then v == Forward
      else if d.exporterId != "" || d.jobId != "" || d.isLiveDashboard || d.isNewsletterReport || d.isExportEngagements
      then v == Skip
      else if aged && now1 - d.requestTimestamp > cfg.eventTimeout
      then v == Reject("stale_request", merged)
      else if (e == "fedi_listener_go_dispatcher" || e == "staci.fedi.dispatcher") && d.exportXlsx && aged
              && now2 - d.requestTimestamp > 7200
      then v == Reject("export_xlsx_timeout", merged)
      else v == Admit(Enrich(e, merged))
  {
    hide Enrich, IsAccepted;
  }

  /**
   * The accepted event names are those to which the enrichment gives a page or a
   * product, the three export names and the timeout name, and ten names that go
   * through as they are.
   */
  lemma AcceptedIff(eventName: string)
    ensures IsAccepted(eventName) <==>
      || PageRuleOf(eventName) != Keep
      || EnrichedProduct(eventName, "") != ""
      || eventName in {"staci.calc.export_request", "fedi_listener_go_dispatcher", "calc_export",
                       "staci.fedi.dispatcher"}
      || eventName in {"fedi_data", "alert_data", "fedi_interactions", "benchmark_go_dispatcher", "custom_projects",
                       "explore_go_dispatcher", "single_post_go_dispatcher", "top_trends_go_dispatcher",
                       "qdtranscriber_go_dispatcher", "staci.transcriber.dispatcher"}
  {
    hide ENGAGEMENTS_PAGES, UNIFIED_JSON_PAGES;
  }

  /** Only the age of a request separates work that is run from work that is dead-lettered. */
  lemma WorkIsRunUnlessTooOld(cfg: Config, now1: int, now2: int, m: Incoming)
    ensures IsWork(cfg, m) <==> Judge(cfg, now1, now2, m).Admit? || Judge(cfg, now1, now2, m).Reject?
    ensures Judge(cfg, now1, now2, m).Admit? <==>
      IsWork(cfg, m) && !TooOld(cfg, now1, m.eventData.value) && !ExportTooOld(m.eventName, now2, m.eventData.value)
    ensures Judge(cfg, now1, now2, m).Admit? ==>
      Judge(cfg, now1, now2, m).info == Enrich(m.eventName, Merged(m))
  {
  }

  /**
   * Replaying a message can only make it older: a message dead-lettered for its
   * age is dead-lettered for its age again, a skipped one is skipped again, and
   * no message is admitted after it was once rejected.
   */
  lemma RejectionIsForever(cfg: Config, then1: int, then2: int, now1: int, now2: int, m: Incoming)
    requires then1 <= now1 && then2 <= now2
    ensures Judge(cfg, then1, then2, m).Reject? ==> Judge(cfg, now1, now2, m).Reject?
    ensures Judge(cfg, then1, then2, m).Reject? && Judge(cfg, then1, then2, m).reason == STALE_REQUEST ==>
      Judge(cfg, now1, now2, m) == Judge(cfg, then1, then2, m)
    ensures Judge(cfg, then1, then2, m).Skip? <==> Judge(cfg, now1, now2, m).Skip?
    ensures Judge(cfg, then1, then2, m).Forward? <==> Judge(cfg, now1, now2, m).Forward?
    ensures Judge(cfg, now1, now2, m).Admit? ==> Judge(cfg, then1, then2, m) == Judge(cfg, now1, now2, m)
  {
  }

  /**
   * The export timeout is unreachable within one second of clock reading: when the
   * event timeout E is below 7200 s the message passed the first check with an
   * age of at most E, so the clock advanced by at least 7201 - E between the reads.
   */
  lemma ExportTimeoutNeedsClockJump(cfg: Config, now1: int, now2: int, m: Incoming)
    requires Judge(cfg, now1, now2, m).Reject? && Judge(cfg, now1, now2, m).reason == EXPORT_XLSX_TIMEOUT
    ensures now2 - now1 >= MESSAGE_DISPATCHER_TIMEOUT_SEC + 1 - cfg.eventTimeout
  {
    assert STALE_REQUEST[0] != EXPORT_XLSX_TIMEOUT[0];
  }
}
