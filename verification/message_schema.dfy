/** The `Message` model of the chat: who sent it, what it says, when. */
module MessageSchema {
  import opened Web

  /** A stored chat message; the schema has exactly these three fields. */
  datatype Message = Message(senderEmail: string, content: string, timestamp: int)

  /** The fields handed to the model before validation. */
  datatype MessageDraft = MessageDraft(senderEmail: Option<string>, content: Option<string>, timestamp: Option<int>)

  /** Validating a draft: `senderEmail` and `content` are required strings
      (absent or empty is rejected), a missing `timestamp` takes the creation
      time `now`. */
  function Create(d: MessageDraft, now: int): (r: Option<Message>)
    ensures r.Some? <==> Truthy(d.senderEmail) && Truthy(d.content)
    ensures r.Some? ==> r.value.senderEmail == d.senderEmail.value && r.value.content == d.content.value
    ensures r.Some? && d.timestamp.None? ==> r.value.timestamp == now
    ensures r.Some? && d.timestamp.Some? ==> r.value.timestamp == d.timestamp.value
  {
    if Truthy(d.senderEmail) && Truthy(d.content) then
      Some(Message(d.senderEmail.value, d.content.value, d.timestamp.GetOr(now)))
    else
      None
  }
}
