/** The inquiry submission endpoint (POST /api/submit-form).

    The handler checks that the three submitted fields are truthy, then opens a
    database connection, inserts one row into the `inquiries` table, closes the
    connection and answers 200. A failure of any of those calls lands in one
    catch block that calls `end()` if a connection was opened (a second call
    when the failure was the close itself) and answers 500. The MySQL driver is abstracted as a `Database` object whose
    three calls each succeed or fail as a `Faults` record decides. */
module SubmitForm {
  import opened Json

  /** The three properties destructured from the parsed request body. */
  datatype Inquiry = Inquiry(fieldOfStudy: Value, destination: Value, educationLevel: Value)

  /** A row of `inquiries`: columns field_of_study, destination, education_level. */
  datatype Row = Row(fieldOfStudy: Value, destination: Value, educationLevel: Value)

  /** What a failed driver call throws; only its `message` is read. */
  datatype DbError = DbError(message: Value)

  /** Response body `{ status, message }` and HTTP status code. */
  datatype Body = Body(status: string, message: Value)
  datatype Response = Response(code: int, body: Body)

  /** The handler either answers, or an error thrown inside its catch block
      escapes it. */
  datatype Outcome = Responded(response: Response) | Threw(error: DbError)

  /** Which driver call fails, and with what: `createConnection`, `execute`,
      the `end` on the success path and the `end` in the catch block. */
  datatype Faults = Faults(
    connect: Option<DbError>,
    insert: Option<DbError>,
    end: Option<DbError>,
    endAfterError: Option<DbError>)

  const IncompleteMessage: string := "Incomplete data provided."
  const SuccessMessage: string := "Your inquiry has been submitted successfully!"
  const FallbackMessage: string := "An internal server error occurred."

  /** The validation at the top of the handler: all three fields truthy. */
  predicate Complete(q: Inquiry) {
    Truthy(q.fieldOfStudy) && Truthy(q.destination) && Truthy(q.educationLevel)
  }

  /** The row the parameterised INSERT writes: the three values, in order. */
  function RowOf(q: Inquiry): (r: Row)
    ensures RowComplete(r) <==> Complete(q)
  {
    Row(q.fieldOfStudy, q.destination, q.educationLevel)
  }

  predicate RowComplete(r: Row) {
    Truthy(r.fieldOfStudy) && Truthy(r.destination) && Truthy(r.educationLevel)
  }

  /** Every row of the table has all three columns truthy. */
  predicate AllRowsComplete(rows: seq<Row>) {
    forall i :: 0 <= i < |rows| ==> RowComplete(rows[i])
  }

  function BadRequest(): Response {
    Response(400, Body("error", Str(IncompleteMessage)))
  }

  function Created(): Response {
    Response(200, Body("success", Str(SuccessMessage)))
  }

  /** The 500 answer for a caught error: its message, or the fallback when
      the message is falsy. */
  function ServerError(e: DbError): (r: Response)
    ensures r.code == 500 && r.body.status == "error"
    ensures Truthy(r.body.message)
    ensures Truthy(e.message) ==> r.body.message == e.message
    ensures !Truthy(e.message) ==> r.body.message == Str(FallbackMessage)
  {
    Response(500, Body("error", Or(e.message, Str(FallbackMessage))))
  }

  /** The shape every answer of the handler has: status "success" exactly
      with code 200, otherwise "error" with 400 or 500, and a truthy message. */
  predicate WellFormed(r: Response) {
    && (r.body.status == "success" <==> r.code == 200)
    && (r.body.status == "success" || r.body.status == "error")
    && (r.code == 200 || r.code == 400 || r.code == 500)
    && Truthy(r.body.message)
  }

  lemma AnswersWellFormed(e: DbError)
    ensures WellFormed(BadRequest()) && WellFormed(Created()) && WellFormed(ServerError(e))
  {
  }

  /** The database as one request sees it: the `inquiries` table, how many
      connections were created, how many are still open, and how many times
      `end()` was called. */
  class Database {
    var rows: seq<Row>
    var created: nat
    var open: nat
    var endCalls: nat

    constructor (rows: seq<Row>)
      ensures this.rows == rows && created == 0 && open == 0 && endCalls == 0
    {
      this.rows := rows;
      created, open, endCalls := 0, 0, 0;
    }

    /** `mysql.createConnection(...)`: on success one more connection exists
        and is open. */
    method CreateConnection(fault: Option<DbError>) returns (err: Option<DbError>)
      modifies this`created, this`open
      ensures err == fault
      ensures created == old(created) + (if fault.None? then 1 else 0)
      ensures open == old(open) + (if fault.None? then 1 else 0)
    {
      err := fault;
      if fault.None? {
        created := created + 1;
        open := open + 1;
      }
    }

    /** `connection.execute(INSERT ...)`: on success the row is appended. */
    method Execute(row: Row, fault: Option<DbError>) returns (err: Option<DbError>)
      requires open > 0
      modifies this`rows
      ensures err == fault
      ensures rows == if fault.None? then old(rows) + [row] else old(rows)
    {
      err := fault;
      if fault.None? {
        rows := rows + [row];
      }
    }

    /** `connection.end()`: counted whether it succeeds or not; a successful
        end closes the connection. */
    method End(fault: Option<DbError>) returns (err: Option<DbError>)
      requires open > 0
      modifies this`open, this`endCalls
      ensures err == fault
      ensures endCalls == old(endCalls) + 1
      ensures open == if fault.None? then old(open) - 1 else old(open)
    {
      err := fault;
      endCalls := endCalls + 1;
      if fault.None? {
        open := open - 1;
      }
    }
  }

  /** The POST handler, from the destructured fields to the outcome. */
  method Post(db: Database, q: Inquiry, faults: Faults) returns (out: Outcome)
    modifies db
    // Validation failure: 400, and the database is not touched.
    ensures !Complete(q) ==>
      && out == Responded(BadRequest())
      && db.rows == old(db.rows) && db.created == old(db.created)
      && db.open == old(db.open) && db.endCalls == old(db.endCalls)
    // Connecting fails: 500, no row, no end() since there is no connection.
    ensures Complete(q) && faults.connect.Some? ==>
      && out == Responded(ServerError(faults.connect.value))
      && db.rows == old(db.rows) && db.created == old(db.created)
      && db.open == old(db.open) && db.endCalls == old(db.endCalls)
    // The insert fails: no row, end() once in the catch block.
    ensures Complete(q) && faults.connect.None? && faults.insert.Some? ==>
      && out == (if faults.endAfterError.None? then Responded(ServerError(faults.insert.value))
                 else Threw(faults.endAfterError.value))
      && db.rows == old(db.rows) && db.created == old(db.created) + 1
      && db.endCalls == old(db.endCalls) + 1
      && db.open == old(db.open) + (if faults.endAfterError.None? then 0 else 1)
    // Everything succeeds: 200 and exactly the submitted row appended.
    ensures Complete(q) && faults.connect.None? && faults.insert.None? && faults.end.None? ==>
      && out == Responded(Created())
      && db.rows == old(db.rows) + [RowOf(q)] && db.created == old(db.created) + 1
      && db.endCalls == old(db.endCalls) + 1 && db.open == old(db.open)
    // The close after a successful insert fails: the row stays, end() is
    // called a second time in the catch block, and the answer is 500.
    ensures Complete(q) && faults.connect.None? && faults.insert.None? && faults.end.Some? ==>
      && out == (if faults.endAfterError.None? then Responded(ServerError(faults.end.value))
                 else Threw(faults.endAfterError.value))
      && db.rows == old(db.rows) + [RowOf(q)] && db.created == old(db.created) + 1
      && db.endCalls == old(db.endCalls) + 2
      && db.open == old(db.open) + (if faults.endAfterError.None? then 0 else 1)
    // Across all cases: every answer is well formed, at most the submitted
    // row is added, and only a complete inquiry is ever stored.
    ensures out.Responded? ==> WellFormed(out.response)
    ensures db.rows == old(db.rows) || (Complete(q) && db.rows == old(db.rows) + [RowOf(q)])
    ensures out == Responded(Created()) ==> db.rows == old(db.rows) + [RowOf(q)]
    ensures AllRowsComplete(old(db.rows)) ==> AllRowsComplete(db.rows)
  {
    if !Truthy(q.fieldOfStudy) || !Truthy(q.destination) || !Truthy(q.educationLevel) {
      return Responded(BadRequest());
    }
    // `connection` stays false (the handler's `connection` is undefined)
    // until createConnection resolves.
    var connection := false;
    var error := db.CreateConnection(faults.connect);
    if error.None? {
      connection := true;
      error := db.Execute(RowOf(q), faults.insert);
      if error.None? {
        error := db.End(faults.end);
        if error.None? {
          return Responded(Created());
        }
      }
    }
    // catch (error)
    if connection {
      var endError := db.End(faults.endAfterError);
      if endError.Some? {
        return Threw(endError.value);
      }
    }
    out := Responded(ServerError(error.value));
  }
}
