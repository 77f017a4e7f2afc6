/** The message types of internal/models/message.go and the settings they meet. */
module Messages {
  import opened Prelude

  /** The value of an `EventData` at one moment. `rest` holds the fields the dispatcher never reads. */
  datatype EventInfo = EventInfo(
    queueName: string,
    routingKey: string,
    requestTimestamp: int,
    pageName: string,
    dataSourceName: string,
    selectedWidgets: seq<string>,
    streamTech: string,
    product: string,
    pageAlertNotification: string,
    exportXlsx: bool,
    exporterId: string,
    jobId: string,
    isLiveDashboard: bool,
    isNewsletterReport: bool,
    isExportEngagements: bool,
    rest: map<string, string>)

  /** The record that the consumer and the enrichment update in place. */
  class EventData {
    const queueName: string
    const routingKey: string
    const requestTimestamp: int
    var pageName: string
    var dataSourceName: string
    var selectedWidgets: seq<string>
    const streamTech: string
    var product: string
    const pageAlertNotification: string
    const exportXlsx: bool
    const exporterId: string
    const jobId: string
    const isLiveDashboard: bool
    const isNewsletterReport: bool
    const isExportEngagements: bool
    const rest: map<string, string>

    function Info(): (r: EventInfo)
      reads this
    {
      EventInfo(queueName, routingKey, requestTimestamp, pageName, dataSourceName, selectedWidgets,
                streamTech, product, pageAlertNotification, exportXlsx, exporterId, jobId,
                isLiveDashboard, isNewsletterReport, isExportEngagements, rest)
    }

    constructor (info: EventInfo)
      ensures Info() == info
    {
      queueName, routingKey, requestTimestamp := info.queueName, info.routingKey, info.requestTimestamp;
      pageName, dataSourceName, selectedWidgets := info.pageName, info.dataSourceName, info.selectedWidgets;
      streamTech, product, pageAlertNotification := info.streamTech, info.product, info.pageAlertNotification;
      exportXlsx, exporterId, jobId := info.exportXlsx, info.exporterId, info.jobId;
      isLiveDashboard, isNewsletterReport := info.isLiveDashboard, info.isNewsletterReport;
      isExportEngagements, rest := info.isExportEngagements, info.rest;
    }
  }

  /** A decoded request. */
  datatype Incoming = Incoming(eventName: string, eventData: Option<EventInfo>, selectedWidgets: seq<string>)

  /** A text field of a stream entry or Kafka record, seen through the JSON decoder. A missing field is `Empty`. */
  datatype Text = Empty | Malformed | Json(message: Incoming)

  /** An entry of the input stream: its `payload` field, and `body`, which is read when `payload` is empty. */
  datatype Entry = Entry(payload: Text, body: Text) {
    function Content(): Text { if payload.Empty? then body else payload }
  }

  datatype Body = StubBody(page: string, routingKey: string) | NoStrategy(page: string)

  datatype Outgoing = Outgoing(eventName: string, body: Body, queueName: string, streamTech: string)

  /**
   * What travels on the sender queue. `src` names the request that caused the
   * item; the program does not carry it, the model uses it to tell items apart.
   * `Blank` stands for a nil item, nil data or nil message.
   */
  datatype Item =
    | Widget(src: nat, message: Outgoing, routingKey: string)
    | Marker(src: nat, routingKey: string)
    | Blank(src: nat)

  /** The settings the pipeline reads. `strategyKeys` are the keys of the strategy registry. */
  datatype Config = Config(
    eventTimeout: int,
    overrideOutput: bool,
    overrideRoutingKey: string,
    outputStreamPrefix: string,
    useKafka: bool,
    kafkaOut: bool,
    liveServiceUrl: string,
    exportProducer: bool,
    strategyKeys: set<string>)
}
