/** Vocabulary shared by every route: optional values, identifiers, time,
    the three content categories and the shape of an HTTP response. */
module Common {

  datatype Option<+T> = None | Some(value: T) {
    /** The JavaScript `x ?? default` / `x || default` on a present-or-absent value. */
    function GetOr(default: T): T {
      if Some? then value else default
    }
  }

  /** `x || null` on an optional string: the empty string is falsy too. */
  function OrNull(s: Option<string>): (r: Option<string>)
    ensures r.Some? <==> s.Some? && s.value != ""
    ensures r.Some? ==> r == s
  {
    if s.Some? && s.value != "" then s else None
  }

  /** Document identifiers (MongoDB ObjectIds), allocated by the database. */
  type Id = nat

  /** Instants, as milliseconds since the epoch. */
  type Time = nat

  /** The `enum: ["equity", "futures", "options"]` shared by users, tips and plans. */
  datatype Category = Equity | Futures | Options

  function CategoryName(c: Category): string {
    match c
    case Equity => "equity"
    case Futures => "futures"
    case Options => "options"
  }

  /** Mongoose's enum validator: a string is accepted exactly when it names a category. */
  function ParseCategory(s: string): (r: Option<Category>)
    ensures r.Some? ==> CategoryName(r.value) == s
    ensures forall c :: CategoryName(c) == s ==> r == Some(c)
  {
    if s == "equity" then Some(Equity)
    else if s == "futures" then Some(Futures)
    else if s == "options" then Some(Options)
    else None
  }

  /** The signed-in user as the session callback exposes it: id, email and role. */
  datatype SessionUser = SessionUser(id: Id, email: string, role: string)

  type Session = Option<SessionUser>

  /** An id taken from a query parameter or a JSON body: missing (or empty), not a valid
      ObjectId, or a well-formed id. */
  datatype IdParam = Absent | Malformed | Given(id: Id)

  /** `NextResponse.json(body, { status })`. */
  datatype Response<B> = Response(status: int, body: B)

  /** Why a handler's `try` block threw, standing in for `err.message`. */
  datatype Fault =
    | ValidationFailed   // a Mongoose validator rejected a document
    | NullPlan           // `plan.duration` read on the `null` that `findById` gave
    | FetchRejected      // a push `fetch` rejected (network error)
    | VendorError        // the SMS vendor's client threw
    | CastFailed         // a malformed ObjectId was passed to a `findById...` query
}
