/**
 * `sendNotificationSchema` and the shape `getNotificationType` of a
 * fetched notification.
 */
module NotificationTypes {
  import opened Wrappers
  import opened Zod

  const SendKeys: set<string> := {"message", "receiverIds"}

  datatype SendInput = SendInput(message: string, receiverIds: seq<int>)

  /** `getNotificationType`: what a fetched notification exposes, and nothing more. */
  datatype SenderView = SenderView(id: int, email: string, name: string)
  datatype NotificationView = NotificationView(id: int, message: string, sender: SenderView)

  /** The constraints `sendNotificationSchema` puts on each field. */
  predicate SendBounds(d: SendInput)
  {
    2 <= |d.message| <= 100 && |d.receiverIds| >= 1
  }

  /** The request body that carries exactly the given send input. */
  function EncodeSend(d: SendInput): (j: Json)
    ensures j.JObj? && j.fields.Keys == SendKeys
  {
    JObj(map["message" := JStr(d.message), "receiverIds" := NumArray(d.receiverIds)])
  }

  /** `sendNotificationSchema.safeParse(body)`. */
  function ParseSend(body: Json): (r: Option<SendInput>)
    ensures r.Some? ==> body.JObj? && body.fields.Keys == SendKeys
    ensures r.Some? ==> SendBounds(r.value) && body == EncodeSend(r.value)
  {
    if body.JObj? && body.fields.Keys == SendKeys
      && IsStr(body.fields["message"], 2, 100) && IsNumArray(body.fields["receiverIds"], 1)
    then
      var d := SendInput(body.fields["message"].s, Numbers(body.fields["receiverIds"].items));
      assert EncodeSend(d).fields == body.fields by {
        NumArrayOfNumbers(body.fields["receiverIds"], 1);
      }
      Some(d)
    else None
  }

  /** Every in-bounds send input is accepted when sent as its own encoding. */
  lemma SendRoundTrip(d: SendInput)
    requires SendBounds(d)
    ensures ParseSend(EncodeSend(d)) == Some(d)
  {
    NumbersOfNumArray(d.receiverIds, 1);
  }
}
