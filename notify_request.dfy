/** The JSON body a notifier may post (the record types of server_routes.go). */
module NotifyRequestModel {

  datatype AttachmentField = AttachmentField(title: string, value: string, short: bool)

  datatype AttachmentRequest = AttachmentRequest(
    fallback: string,
    text: string,
    color: string,
    mrkdwnIn: seq<string>,
    ts: int,
    title: string,
    fields: seq<AttachmentField>)

  datatype NotifyRequest = NotifyRequest(
    text: string,
    username: string,
    attachments: seq<AttachmentRequest>,
    iconEmoji: string)

  /** Go's zero value `var request NotifyRequest`. */
  function EmptyRequest(): NotifyRequest
  {
    NotifyRequest("", "", [], "")
  }
}
