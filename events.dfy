/**
  Event construction: the record built for one matched log line
  (parseLogEntry, main.go:213-220) and its wire-level projection
  (LogInfo.ToWebhookPayload, main.go:80-87).
*/
module Events {

  /** The in-memory event: application, acting OS user, raw line, severity. */
  datatype LogInfo = LogInfo(eventName: string, username: string, actionType: string, status: string)

  /** The JSON body, with fields event_name, username, action_type, status. */
  datatype WebhookPayload = WebhookPayload(eventName: string, username: string, actionType: string, status: string)

  /** The severity every monitor attaches: a fixed literal, never derived from the line. */
  const ErrorStatus: string := "error"

  /** The application name becomes the event name and the raw line the action type. */
  function ParseLogEntry(logEntry: string, application: string, username: string, status: string): (info: LogInfo)
    ensures info.eventName == application
    ensures info.username == username
    ensures info.actionType == logEntry
    ensures info.status == status
  {
    LogInfo(application, username, logEntry, status)
  }

  /** Every field is copied unchanged into the payload. */
  function ToWebhookPayload(info: LogInfo): (p: WebhookPayload)
    ensures p.eventName == info.eventName
    ensures p.username == info.username
    ensures p.actionType == info.actionType
    ensures p.status == info.status
  {
    WebhookPayload(info.eventName, info.username, info.actionType, info.status)
  }

  /** The payload of a monitor's event carries the line verbatim, so two different
      lines of one monitor never produce the same payload. */
  lemma EventPayloadDeterminesLine(line1: string, line2: string, application: string, username: string)
    requires ToWebhookPayload(ParseLogEntry(line1, application, username, ErrorStatus))
          == ToWebhookPayload(ParseLogEntry(line2, application, username, ErrorStatus))
    ensures line1 == line2
  {
  }

  /** The full payload of a monitor's event, field by field. */
  lemma EventPayload(line: string, application: string, username: string)
    ensures ToWebhookPayload(ParseLogEntry(line, application, username, ErrorStatus))
         == WebhookPayload(application, username, line, "error")
  {
  }
}
