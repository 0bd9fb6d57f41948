/**
 * The request handlers of api/server.js, the Supabase variant of the back
 * end. Database and mailer results are inputs: `insertOk` is false when the
 * insert returns an error, `mailOk` is false when `sgMail.send` throws.
 */
module ApiServer {
  import opened Wrappers
  import opened Http
  import DataUrl

  const MsgFetchFailed := "Error fetching from Supabase"
  const MsgSaveFailed := "Error saving to Supabase"
  const MsgMissingImage := "Missing image data"

  /** `email || null`: a falsy email is stored as NULL, any other verbatim. */
  function StoredEmail(email: Field): (e: Option<string>)
    ensures e.None? <==> !Truthy(email)
    ensures e.Some? ==> email == Text(e.value)
  {
    if Truthy(email) then Some(email.s) else None
  }

  /** GET /api/waveforms: the rows the query returned, unchanged, or a 500. */
  function ListWaveforms(query: QueryResult): (o: Outcome)
    ensures o.effects == []
    ensures o.response.status == StatusServerError <==> query.QueryError?
    ensures query.QueryError? ==> o.response.payload == Message(MsgFetchFailed)
    ensures query.Rows? ==> o.response == Response(StatusOk, Listing(MsgSuccess, query.rows))
  {
    match query
    case QueryError(_) => Outcome(Response(StatusServerError, Message(MsgFetchFailed)), [])
    case Rows(rows) => Outcome(Response(StatusOk, Listing(MsgSuccess, rows)), [])
  }

  /** POST /api/save-waveform: only the image is required. */
  function SaveWaveform(body: RequestBody, insertOk: bool): (o: Outcome)
    ensures MailOnlyAfterInsert(o.effects) && !Mailed(o)
    ensures o.response.status == StatusBadRequest <==> !Truthy(body.imageData)
    ensures !Truthy(body.imageData) ==> o.effects == [] && o.response.payload == Message(MsgMissingImage)
    ensures Truthy(body.imageData) ==>
      o.effects == [Insert(Row(StoredEmail(body.email), body.imageData.s))]
    ensures o.response.status == StatusOk <==> Truthy(body.imageData) && insertOk
    ensures o.response.status == StatusOk ==> o.response.payload == Message(MsgSaved)
    ensures o.response.status == StatusServerError <==> Truthy(body.imageData) && !insertOk
    ensures Truthy(body.imageData) && !insertOk ==>
      o.response == Response(StatusServerError, Message(MsgSaveFailed))
  {
    if !Truthy(body.imageData) then
      Outcome(Response(StatusBadRequest, Message(MsgMissingImage)), [])
    else
      var insert := Insert(Row(StoredEmail(body.email), body.imageData.s));
      if !insertOk then
        Outcome(Response(StatusServerError, Message(MsgSaveFailed)), [insert])
      else
        Outcome(Response(StatusOk, Message(MsgSaved)), [insert])
  }

  /**
   * POST /api/send-waveform: store first, then mail. A failed mail answers
   * 500, after the row has been stored.
   */
  function SendWaveform(body: RequestBody, insertOk: bool, mailOk: bool): (o: Outcome)
    ensures MailOnlyAfterInsert(o.effects)
    ensures o.response.status == StatusBadRequest <==> !HasEmailAndImage(body)
    ensures !HasEmailAndImage(body) ==> o.effects == [] && o.response.payload == Message(MsgMissingBoth)
    ensures HasEmailAndImage(body) ==>
      Inserted(o) && o.effects[0] == Insert(Row(Some(body.email.s), body.imageData.s))
    ensures Mailed(o) <==> HasEmailAndImage(body) && insertOk
    ensures Mailed(o) ==> o.effects[1] == SendMail(body.email.s, DataUrl.Attachment(body.imageData.s))
    ensures HasEmailAndImage(body) && !insertOk ==>
      o.response == Response(StatusServerError, Message(MsgSaveFailed))
    ensures o.response.status == StatusOk <==> HasEmailAndImage(body) && insertOk && mailOk
    ensures o.response.status == StatusOk ==> o.response.payload == Message(MsgSent)
    ensures HasEmailAndImage(body) && insertOk && !mailOk ==>
      o.response == Response(StatusServerError, Message(MsgMailFailed))
  {
    if !HasEmailAndImage(body) then
      Outcome(Response(StatusBadRequest, Message(MsgMissingBoth)), [])
    else
      var insert := Insert(Row(Some(body.email.s), body.imageData.s));
      if !insertOk then
        Outcome(Response(StatusServerError, Message(MsgSaveFailed)), [insert])
      else
        var effects := [insert, SendMail(body.email.s, DataUrl.Attachment(body.imageData.s))];
        if mailOk then Outcome(Response(StatusOk, Message(MsgSent)), effects)
        else Outcome(Response(StatusServerError, Message(MsgMailFailed)), effects)
  }
}
