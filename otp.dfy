/**
  The `verification_codes` table of the careplus login and its two
  operations, `store_otp` and `verify_otp`. Time is a number of seconds;
  `created_at` is the time of the insert.
 */
module Otp {
  import opened Wrappers
  import opened Digits

  const OTP_LENGTH: nat := 6
  const OTP_EXPIRY_SECONDS: int := 10 * 60
  const OTP_MAX_ATTEMPTS: int := 5

  datatype OtpRecord = OtpRecord(
    id: int, userId: string, email: string, code: string, accessToken: string,
    expiresAt: int, createdAt: int, attempts: int, maxAttempts: int, used: bool)

  /** `generate_otp`: `picks` are the six `secrets.choice` draws, as digit values. */
  function GenerateOtp(picks: seq<int>): (code: string)
    requires |picks| == OTP_LENGTH && forall i :: 0 <= i < |picks| ==> 0 <= picks[i] < 10
    ensures |code| == OTP_LENGTH && AllDigits(code)
    ensures forall i :: 0 <= i < |code| ==> DigitValue(code[i]) == picks[i]
  {
    seq(OTP_LENGTH, i requires 0 <= i < OTP_LENGTH => DigitChar(picks[i]))
  }

  /** The filter of the lookup: the user's, unused, and `expires_at >= now`. */
  predicate Pending(r: OtpRecord, userId: string, now: int) {
    r.userId == userId && !r.used && r.expiresAt >= now
  }

  /**
    `order('created_at', desc=True).limit(1)` over the pending records: the
    index of one with the latest `created_at` (the later insert on a tie).
   */
  function Newest(records: seq<OtpRecord>, userId: string, now: int): (r: Option<nat>)
    ensures r.Some? ==> r.value < |records| && Pending(records[r.value], userId, now)
    ensures r.Some? ==> forall j :: 0 <= j < |records| && Pending(records[j], userId, now) ==>
      records[j].createdAt <= records[r.value].createdAt
    ensures r.None? <==> forall j :: 0 <= j < |records| ==> !Pending(records[j], userId, now)
  {
    if records == [] then None
    else
      var n := |records| - 1;
      var prev := Newest(records[..n], userId, now);
      assert forall j :: 0 <= j < n ==> records[j] == records[..n][j];
      if Pending(records[n], userId, now) && (prev.None? || records[prev.value].createdAt <= records[n].createdAt)
      then Some(n)
      else prev
  }

  /** The first update of `store_otp`: every unused code of the user becomes used. */
  function Invalidate(records: seq<OtpRecord>, userId: string): (r: seq<OtpRecord>)
    ensures |r| == |records|
    ensures forall k :: 0 <= k < |records| ==>
      r[k] == if records[k].userId == userId then records[k].(used := true) else records[k]
  {
    if records == [] then []
    else
      var x := records[|records| - 1];
      Invalidate(records[..|records| - 1], userId) + [if x.userId == userId then x.(used := true) else x]
  }

  /** The row `store_otp` inserts. */
  function Fresh(id: int, userId: string, email: string, code: string, accessToken: string, now: int): OtpRecord {
    OtpRecord(id, userId, email, code, accessToken, now + OTP_EXPIRY_SECONDS, now, 0, OTP_MAX_ATTEMPTS, false)
  }

  /** The outcome of `verify_otp`. */
  datatype Verification =
    | NotFound                      // "Código expirado o no encontrado"
    | MaxAttemptsReached            // "Máximo de intentos alcanzado"
    | WrongCode(remaining: int)     // "Código incorrecto. {remaining} intentos restantes."
    | Accepted(accessToken: string)

  datatype Step = Step(result: Verification, records: seq<OtpRecord>)

  /**
    One `verify_otp` on the table: the updates `.eq('id', ...)` are applied to
    the selected record, which has a unique id.
   */
  function VerifyStep(records: seq<OtpRecord>, userId: string, code: string, now: int): Step {
    match Newest(records, userId, now)
    case None => Step(NotFound, records)
    case Some(k) =>
      var rec := records[k];
      if rec.attempts >= rec.maxAttempts then Step(MaxAttemptsReached, records[k := rec.(used := true)])
      else
        var counted := rec.(attempts := rec.attempts + 1);
        if rec.code != code then Step(WrongCode(rec.maxAttempts - rec.attempts - 1), records[k := counted])
        else Step(Accepted(rec.accessToken), records[k := counted.(used := true)])
  }

  /** Ids are unique and below the counter; attempts never exceed the maximum. */
  predicate TableInvariant(records: seq<OtpRecord>, nextId: int) {
    && (forall i, j :: 0 <= i < j < |records| ==> records[i].id != records[j].id)
    && (forall i :: 0 <= i < |records| ==> records[i].id < nextId)
    && (forall i :: 0 <= i < |records| ==> 0 <= records[i].attempts <= records[i].maxAttempts)
  }

  // Properties of `store_otp`.

  /** After `store_otp` the new record is the user's only unused one, and other users' rows are unchanged. */
  lemma StoreLeavesOneUnused(records: seq<OtpRecord>, inserted: OtpRecord)
    requires !inserted.used
    ensures var after := Invalidate(records, inserted.userId) + [inserted];
      && (forall k :: 0 <= k < |after| && after[k].userId == inserted.userId && !after[k].used ==> k == |records|)
      && (forall k :: 0 <= k < |records| && records[k].userId != inserted.userId ==> after[k] == records[k])
  {
  }

  /** Until it expires, the freshly stored code is the one verification selects. */
  lemma StoredIsNewest(records: seq<OtpRecord>, id: int, userId: string, email: string, code: string,
                       accessToken: string, now: int, later: int)
    requires later <= now + OTP_EXPIRY_SECONDS
    ensures var after := Invalidate(records, userId) + [Fresh(id, userId, email, code, accessToken, now)];
      Newest(after, userId, later) == Some(|records|)
  {
    var after := Invalidate(records, userId) + [Fresh(id, userId, email, code, accessToken, now)];
    StoreLeavesOneUnused(records, Fresh(id, userId, email, code, accessToken, now));
    var r := Newest(after, userId, later);
    assert Pending(after[|records|], userId, later);
  }

  lemma StoreKeepsInvariant(records: seq<OtpRecord>, nextId: int, userId: string, email: string, code: string,
                            accessToken: string, now: int)
    requires TableInvariant(records, nextId)
    ensures TableInvariant(Invalidate(records, userId) + [Fresh(nextId, userId, email, code, accessToken, now)], nextId + 1)
  {
  }

  // Properties of `verify_otp`.

  /** With no pending record the result is "not found" and nothing changes. */
  lemma VerifyNotFound(records: seq<OtpRecord>, userId: string, code: string, now: int)
    ensures VerifyStep(records, userId, code, now).result == NotFound <==>
      forall j :: 0 <= j < |records| ==> !Pending(records[j], userId, now)
    ensures VerifyStep(records, userId, code, now).result == NotFound ==>
      VerifyStep(records, userId, code, now).records == records
  {
  }

  /**
    An exhausted record is burnt: marked used, its attempts unchanged, and
    the outcome does not depend on the code given.
   */
  lemma VerifyExhausted(records: seq<OtpRecord>, userId: string, code: string, other: string, now: int, k: nat)
    requires Newest(records, userId, now) == Some(k)
    requires records[k].attempts >= records[k].maxAttempts
    ensures var s := VerifyStep(records, userId, code, now);
      && s.result == MaxAttemptsReached
      && s.records == records[k := records[k].(used := true)]
      && s == VerifyStep(records, userId, other, now)
  {
  }

  /**
    A record with attempts left counts the attempt whatever the code: a
    wrong code leaves it unused and reports max - old - 1 remaining; the
    right code marks it used and returns its access token. No other row
    changes.
   */
  lemma VerifyCounts(records: seq<OtpRecord>, userId: string, code: string, now: int, k: nat)
    requires Newest(records, userId, now) == Some(k)
    requires records[k].attempts < records[k].maxAttempts
    ensures var s := VerifyStep(records, userId, code, now);
      && |s.records| == |records|
      && s.records[k].attempts == records[k].attempts + 1
      && (forall j :: 0 <= j < |records| && j != k ==> s.records[j] == records[j])
      && (records[k].code != code ==>
            s.result == WrongCode(records[k].maxAttempts - records[k].attempts - 1) && !s.records[k].used)
      && (records[k].code == code ==>
            s.result == Accepted(records[k].accessToken) && s.records[k].used)
      && s.records[k] == records[k].(attempts := records[k].attempts + 1, used := records[k].code == code)
  {
  }

  /** Verification never makes a used record unused and keeps the table invariant. */
  lemma VerifyKeepsInvariant(records: seq<OtpRecord>, nextId: int, userId: string, code: string, now: int)
    requires TableInvariant(records, nextId)
    ensures var s := VerifyStep(records, userId, code, now);
      && TableInvariant(s.records, nextId)
      && |s.records| == |records|
      && forall j :: 0 <= j < |records| && records[j].used ==> s.records[j].used
  {
  }

  /** Under the invariant the remaining count of a wrong code is never negative. */
  lemma RemainingNonNegative(records: seq<OtpRecord>, nextId: int, userId: string, code: string, now: int)
    requires TableInvariant(records, nextId)
    requires VerifyStep(records, userId, code, now).result.WrongCode?
    ensures VerifyStep(records, userId, code, now).result.remaining >= 0
  {
  }

  /**
    A record succeeds at most once: once a verification has accepted it, no
    later lookup, for any user and time, selects it again.
   */
  lemma SucceedsAtMostOnce(records: seq<OtpRecord>, userId: string, code: string, now: int,
                           records2: seq<OtpRecord>, userId2: string, code2: string, now2: int, k: nat)
    requires Newest(records, userId, now) == Some(k)
    requires VerifyStep(records, userId, code, now).result.Accepted?
    requires UsedKept(VerifyStep(records, userId, code, now).records, records2)
    ensures Newest(records2, userId2, now2) != Some(k)
  {
  }

  /** `after` keeps every row of `before`, and every used row stays used. */
  predicate UsedKept(before: seq<OtpRecord>, after: seq<OtpRecord>) {
    |before| <= |after| && forall j :: 0 <= j < |before| && before[j].used ==> after[j].used
  }

  /** Any number of stores and verifications keeps used rows used. */
  lemma StoreKeepsUsed(records: seq<OtpRecord>, inserted: OtpRecord, userId: string)
    ensures UsedKept(records, Invalidate(records, userId) + [inserted])
  {
  }

  /** The `verification_codes` table with its id sequence. */
  class VerificationCodes {
    var records: seq<OtpRecord>
    var nextId: int

    ghost predicate Valid()
      reads this
    {
      TableInvariant(records, nextId)
    }

    constructor ()
      ensures Valid() && records == [] && nextId == 1
    {
      records := [];
      nextId := 1;
    }

    /** `store_otp`: invalidate the user's unused codes, then insert the new one. */
    method StoreOtp(userId: string, email: string, code: string, accessToken: string, now: int)
      returns (stored: bool)
      requires Valid()
      modifies this
      ensures Valid() && stored
      ensures records == Invalidate(old(records), userId) + [Fresh(old(nextId), userId, email, code, accessToken, now)]
      ensures nextId == old(nextId) + 1
    {
      StoreKeepsInvariant(records, nextId, userId, email, code, accessToken, now);
      records := Invalidate(records, userId);
      records := records + [Fresh(nextId, userId, email, code, accessToken, now)];
      nextId := nextId + 1;
      stored := true;
    }

    /** `verify_otp`: select the newest pending record, then update it step by step. */
    method VerifyOtp(userId: string, code: string, now: int) returns (result: Verification)
      requires Valid()
      modifies this
      ensures Valid() && nextId == old(nextId)
      ensures Step(result, records) == VerifyStep(old(records), userId, code, now)
    {
      VerifyKeepsInvariant(records, nextId, userId, code, now);
      var found := Newest(records, userId, now);
      if found.None? {
        return NotFound;
      }
      var k := found.value;
      var rec := records[k];
      if rec.attempts >= rec.maxAttempts {
        records := records[k := records[k].(used := true)];
        return MaxAttemptsReached;
      }
      records := records[k := records[k].(attempts := rec.attempts + 1)];
      if rec.code != code {
        return WrongCode(rec.maxAttempts - rec.attempts - 1);
      }
      records := records[k := records[k].(used := true)];
      result := Accepted(rec.accessToken);
    }
  }
}
