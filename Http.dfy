/**
 * What the two Express servers exchange with their clients and with the
 * outside world. A handler is modelled as a function from the request body
 * and the results of the external calls (database, mailer) to an `Outcome`:
 * the response sent and the trace of external effects it attempted, in order.
 */
module Http {
  import opened Wrappers

  /** A field of the JSON request body: absent (or null), or a string. */
  datatype Field = Missing | Text(s: string)

  /** JavaScript truthiness of a field: absent, null and "" are falsy; every other string is truthy. */
  predicate Truthy(f: Field): (truthy: bool)
    ensures truthy <==> f != Missing && f != Text("")
  {
    f.Text? && f.s != ""
  }

  /** `req.body` as both POST routes destructure it: `{ email, imageData }`. */
  datatype RequestBody = RequestBody(email: Field, imageData: Field)

  /** `!email || !imageData` is false: both fields are present and non-empty. */
  predicate HasEmailAndImage(body: RequestBody)
  {
    Truthy(body.email) && Truthy(body.imageData)
  }

  /** A row handed to the database; `None` is SQL NULL. */
  datatype Row = Row(email: Option<string>, imageData: string)

  /** A stored waveform as the listing query returns it. */
  datatype Record = Record(id: nat, email: Option<string>, imageData: string, createdAt: string)

  /** An external effect attempted by a handler. */
  datatype Effect =
    | Insert(row: Row)
    | SendMail(to: string, attachment: Option<string>)

  /** The JSON body of a response. */
  datatype Payload =
    | Message(message: string)
    | Listing(message: string, data: seq<Record>)

  datatype Response = Response(status: nat, payload: Payload)

  datatype Outcome = Outcome(response: Response, effects: seq<Effect>)

  /** What the listing query returned: the rows, or an error. */
  datatype QueryResult = Rows(rows: seq<Record>) | QueryError(reason: string)

  /**
   * The effect order every handler keeps: nothing, or one insert,
   * or one insert followed by one mail.
   */
  predicate MailOnlyAfterInsert(effects: seq<Effect>)
  {
    && |effects| <= 2
    && (|effects| >= 1 ==> effects[0].Insert?)
    && (|effects| == 2 ==> effects[1].SendMail?)
  }

  /** The mail was attempted. */
  predicate Mailed(o: Outcome)
  {
    exists k :: 0 <= k < |o.effects| && o.effects[k].SendMail?
  }

  /** A row was handed to the database. */
  predicate Inserted(o: Outcome)
  {
    exists k :: 0 <= k < |o.effects| && o.effects[k].Insert?
  }

  const StatusOk: nat := 200
  const StatusBadRequest: nat := 400
  const StatusServerError: nat := 500

  const MsgSuccess := "success"
  const MsgSaved := "Waveform saved successfully!"
  const MsgSent := "Waveform saved and email sent successfully!"
  const MsgMailFailed := "Waveform saved, but there was an error sending the email."
  const MsgMissingBoth := "Missing email or image data"
}
