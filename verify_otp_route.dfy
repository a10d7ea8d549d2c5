/**
  `POST /verify-otp`: the same attempt and `used` state machine as
  `verify_otp`, reported as HTTP errors. A failing Supabase call is modelled
  by `fault`: the number of the client call that raises (0 the lookup, 1 the
  first update, 2 the final update), or `None`.
 */
module OtpRoute {
  import opened Wrappers
  import opened Otp

  datatype RouteError =
    | Expired          // 400 "Código expirado o no encontrado"
    | Exhausted        // 400 "Máximo de intentos alcanzado"
    | Incorrect(remaining: int)
    | Internal         // 500 "Error al verificar el código"

  datatype Response =
    | Login(token: string, success: bool, requiresVerification: bool, message: string)
    | HttpError(status: int, error: RouteError)

  const INTERNAL_ERROR: Response := HttpError(500, Internal)

  datatype RouteStep = RouteStep(response: Response, records: seq<OtpRecord>)

  /** The route on the table; a raising call leaves the updates already made in place. */
  function Route(records: seq<OtpRecord>, userId: string, code: string, now: int, fault: Option<nat>): RouteStep {
    if fault == Some(0) then RouteStep(INTERNAL_ERROR, records)
    else
      match Newest(records, userId, now)
      case None => RouteStep(HttpError(400, Expired), records)
      case Some(k) =>
        var rec := records[k];
        if fault == Some(1) then RouteStep(INTERNAL_ERROR, records)
        else if rec.attempts >= rec.maxAttempts then RouteStep(HttpError(400, Exhausted), records[k := rec.(used := true)])
        else
          var counted := records[k := rec.(attempts := rec.attempts + 1)];
          if rec.code != code then RouteStep(HttpError(400, Incorrect(rec.maxAttempts - rec.attempts - 1)), counted)
          else if fault == Some(2) then RouteStep(INTERNAL_ERROR, counted)
          else RouteStep(Login(rec.accessToken, true, false, "Verificación exitosa"),
                         records[k := rec.(attempts := rec.attempts + 1, used := true)])
  }

  /**
    Without a failing call the route is `verify_otp` with its outcomes as
    HTTP responses: the same table afterwards, the token on success, and a
    400 for each rejection.
   */
  lemma RouteAgreesWithUtil(records: seq<OtpRecord>, userId: string, code: string, now: int)
    ensures var r := Route(records, userId, code, now, None);
      var s := VerifyStep(records, userId, code, now);
      && r.records == s.records
      && (s.result == NotFound <==> r.response == HttpError(400, Expired))
      && (s.result == MaxAttemptsReached <==> r.response == HttpError(400, Exhausted))
      && (forall n :: s.result == WrongCode(n) <==> r.response == HttpError(400, Incorrect(n)))
      && (forall t :: s.result == Accepted(t) <==> r.response == Login(t, true, false, "Verificación exitosa"))
  {
  }

  /** Every response is a login without a further verification step, a 400, or the 500 of a failing call. */
  lemma RouteStatuses(records: seq<OtpRecord>, userId: string, code: string, now: int, fault: Option<nat>)
    ensures var r := Route(records, userId, code, now, fault).response;
      && (r.Login? ==> r.success && !r.requiresVerification)
      && (r.HttpError? ==> (r.status == 500 <==> r.error == Internal))
      && (r.HttpError? ==> r.status == 400 || r.status == 500)
      && (r == INTERNAL_ERROR ==> fault.Some?)
  {
  }

  /** A failing lookup changes nothing. */
  lemma LookupFaultChangesNothing(records: seq<OtpRecord>, userId: string, code: string, now: int)
    ensures Route(records, userId, code, now, Some(0)) == RouteStep(INTERNAL_ERROR, records)
  {
  }

  /**
    A failure of the final update after a right code is a 500, yet the
    attempt stays counted and the record stays unused: the earlier update is
    not undone.
   */
  lemma FinalUpdateFault(records: seq<OtpRecord>, userId: string, code: string, now: int, k: nat)
    requires Newest(records, userId, now) == Some(k)
    requires records[k].attempts < records[k].maxAttempts && records[k].code == code
    ensures var r := Route(records, userId, code, now, Some(2));
      && r.response == INTERNAL_ERROR
      && r.records == records[k := records[k].(attempts := records[k].attempts + 1)]
      && !r.records[k].used
  {
  }

  /** Whatever fails, the route keeps the table invariant. */
  lemma RouteKeepsInvariant(records: seq<OtpRecord>, nextId: int, userId: string, code: string, now: int,
                            fault: Option<nat>)
    requires TableInvariant(records, nextId)
    ensures TableInvariant(Route(records, userId, code, now, fault).records, nextId)
  {
  }

  /** The route handler, updating the record call by call. */
  method VerifyOtpRoute(db: VerificationCodes, userId: string, code: string, now: int, fault: Option<nat>)
    returns (response: Response)
    requires db.Valid()
    modifies db
    ensures db.Valid() && db.nextId == old(db.nextId)
    ensures RouteStep(response, db.records) == Route(old(db.records), userId, code, now, fault)
  {
    RouteKeepsInvariant(db.records, db.nextId, userId, code, now, fault);
    if fault == Some(0) {
      return INTERNAL_ERROR;
    }
    var found := Newest(db.records, userId, now);
    if found.None? {
      return HttpError(400, Expired);
    }
    var k := found.value;
    var rec := db.records[k];
    if fault == Some(1) {
      return INTERNAL_ERROR;
    }
    if rec.attempts >= rec.maxAttempts {
      db.records := db.records[k := db.records[k].(used := true)];
      return HttpError(400, Exhausted);
    }
    db.records := db.records[k := db.records[k].(attempts := rec.attempts + 1)];
    if rec.code != code {
      return HttpError(400, Incorrect(rec.maxAttempts - rec.attempts - 1));
    }
    if fault == Some(2) {
      return INTERNAL_ERROR;
    }
    db.records := db.records[k := db.records[k].(used := true)];
    response := Login(rec.accessToken, true, false, "Verificación exitosa");
  }
}
