/**
 * The request handlers of server.js, the SQLite variant of the back end.
 * Database and mailer results are inputs: `insertOk` is false when `db.run`
 * reports an error, `mailOk` is false when `sgMail.send` rejects.
 */
module LocalServer {
  import opened Wrappers
  import opened Http
  import DataUrl

  const MsgFetchFailed := "Error fetching from database"
  const MsgSaveFailed := "Error saving to database"

  /** GET /api/waveforms: the rows the query returned, unchanged, or a 500. */
  function ListWaveforms(query: QueryResult): (o: Outcome)
    ensures o.effects == []
    ensures o.response.status == StatusServerError <==> query.QueryError?
    ensures query.QueryError? ==> o.response.payload == Message(MsgFetchFailed)
    ensures query.Rows? ==> o.response == Response(StatusOk, Listing(MsgSuccess, query.rows))
  {
    match query
    case QueryError(_) => Outcome(Response(StatusServerError, Message(MsgFetchFailed)), [])
    case Rows(rows) => Outcome(Response(StatusOk, Listing(MsgSuccess, rows)), [])
  }

  /** POST /api/save-waveform. */
  function SaveWaveform(body: RequestBody, insertOk: bool): (o: Outcome)
    ensures MailOnlyAfterInsert(o.effects) && !Mailed(o)
    ensures o.response.status == StatusBadRequest <==> !HasEmailAndImage(body)
    ensures !HasEmailAndImage(body) ==> o.effects == [] && o.response.payload == Message(MsgMissingBoth)
    ensures HasEmailAndImage(body) ==> o.effects == [Insert(Row(Some(body.email.s), body.imageData.s))]
    ensures o.response.status == StatusOk <==> HasEmailAndImage(body) && insertOk
    ensures o.response.status == StatusServerError <==> HasEmailAndImage(body) && !insertOk
    ensures HasEmailAndImage(body) && !insertOk ==>
      o.response == Response(StatusServerError, Message(MsgSaveFailed))
    ensures o.response.status == StatusOk ==> o.response.payload == Message(MsgSaved)
  {
    if !HasEmailAndImage(body) then
      Outcome(Response(StatusBadRequest, Message(MsgMissingBoth)), [])
    else
      var insert := Insert(Row(Some(body.email.s), body.imageData.s));
      if !insertOk then
        Outcome(Response(StatusServerError, Message(MsgSaveFailed)), [insert])
      else
        Outcome(Response(StatusOk, Message(MsgSaved)), [insert])
  }

  /**
   * POST /api/send-waveform: store first, then mail. A failed mail still
   * answers 200; only the message tells the two cases apart.
   */
  function SendWaveform(body: RequestBody, insertOk: bool, mailOk: bool): (o: Outcome)
    ensures MailOnlyAfterInsert(o.effects)
    ensures o.response.status == StatusBadRequest <==> !HasEmailAndImage(body)
    ensures !HasEmailAndImage(body) ==> o.effects == [] && o.response.payload == Message(MsgMissingBoth)
    ensures HasEmailAndImage(body) ==> Inserted(o) && o.effects[0] == Insert(Row(Some(body.email.s), body.imageData.s))
    ensures Mailed(o) <==> HasEmailAndImage(body) && insertOk
    ensures Mailed(o) ==> o.effects[1] == SendMail(body.email.s, DataUrl.Attachment(body.imageData.s))
    ensures HasEmailAndImage(body) && !insertOk ==>
      o.response == Response(StatusServerError, Message(MsgSaveFailed))
    ensures o.response.status == StatusOk <==> HasEmailAndImage(body) && insertOk
    ensures o.response.status == StatusOk ==>
      o.response.payload == Message(if mailOk then MsgSent else MsgMailFailed)
  {
    if !HasEmailAndImage(body) then
      Outcome(Response(StatusBadRequest, Message(MsgMissingBoth)), [])
    else
      var insert := Insert(Row(Some(body.email.s), body.imageData.s));
      if !insertOk then
        Outcome(Response(StatusServerError, Message(MsgSaveFailed)), [insert])
      else
        var effects := [insert, SendMail(body.email.s, DataUrl.Attachment(body.imageData.s))];
        if mailOk then Outcome(Response(StatusOk, Message(MsgSent)), effects)
        else Outcome(Response(StatusOk, Message(MsgMailFailed)), effects)
  }
}
