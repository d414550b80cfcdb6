/** POST /api/customers/verify-otp: a fixed sequence of guards over the stored one-time code,
    ending in setting the record's `verified` flag. */
module VerifyOtpRoute {
  import opened Wrappers
  import opened Records
  import opened Errors
  import opened EmailVerifications
  import Text

  /** The reply the guard chain gives for a signed-in caller, judged on the table as it is
      when the request arrives; the first failing guard decides. */
  function Decide(records: map<string, EmailVerification>, email: Option<string>, otp: Option<string>, now: int): Reply<()>
  {
    if !Text.Truthy(email) || !Text.Truthy(otp) then Reply(400, Error("Email and OTP are required"))
    else if email.value !in records then Reply(404, Error("No OTP found for this email"))
    else if records[email.value].verified then Reply(400, Error("Email is already verified"))
    else if records[email.value].expiresAt < now then Reply(400, Error("OTP has expired"))
    else if records[email.value].otp != otp.value then Reply(400, Error("Invalid OTP"))
    else Reply(200, Message("Email verified successfully"))
  }

  /** Every check of the chain holds at once. */
  predicate AllChecksPass(records: map<string, EmailVerification>, email: Option<string>, otp: Option<string>, now: int) {
    && Text.Truthy(email) && Text.Truthy(otp)
    && email.value in records
    && !records[email.value].verified
    && now <= records[email.value].expiresAt
    && records[email.value].otp == otp.value
  }

  /** The chain succeeds exactly when all its checks pass, and otherwise answers 400 or 404. */
  lemma DecideSucceedsIff(records: map<string, EmailVerification>, email: Option<string>, otp: Option<string>, now: int)
    ensures Decide(records, email, otp, now).status == 200 <==> AllChecksPass(records, email, otp, now)
    ensures !AllChecksPass(records, email, otp, now) ==> Decide(records, email, otp, now).status in {400, 404}
  {
  }

  /** The route. A successful check flips the flag of that one record; every other reply
      leaves the table as it was. */
  method Post(table: VerificationTable, signedIn: bool, email: Option<string>, otp: Option<string>, now: int)
    returns (reply: Reply<()>)
    modifies table
    ensures !signedIn ==> reply == Unauthorized() && table.records == old(table.records)
    ensures signedIn ==> reply == Decide(old(table.records), email, otp, now)
    ensures reply.status == 200 ==>
      email.Some? && email.value in old(table.records) &&
      table.records == old(table.records)[email.value := old(table.records)[email.value].(verified := true)]
    ensures reply.status != 200 ==> table.records == old(table.records)
  {
    if !signedIn {
      return Unauthorized();
    }
    if !Text.Truthy(email) || !Text.Truthy(otp) {
      return Reply(400, Error("Email and OTP are required"));
    }
    var address := email.value;
    if address !in table.records {
      return Reply(404, Error("No OTP found for this email"));
    }
    var verification := table.records[address];
    if verification.verified {
      return Reply(400, Error("Email is already verified"));
    }
    if verification.expiresAt < now {
      return Reply(400, Error("OTP has expired"));
    }
    if verification.otp != otp.value {
      return Reply(400, Error("Invalid OTP"));
    }
    table.MarkVerified(address);
    reply := Reply(200, Message("Email verified successfully"));
  }

  /** A missing email or code is reported before the table is consulted, whatever it holds. */
  lemma MissingInputComesFirst(records: map<string, EmailVerification>, email: Option<string>, otp: Option<string>, now: int)
    requires !Text.Truthy(email) || !Text.Truthy(otp)
    ensures Decide(records, email, otp, now) == Decide(map[], email, otp, now)
    ensures Decide(records, email, otp, now).status == 400
  {
  }

  /** The expiry instant itself is still inside the window; one millisecond later is not. */
  lemma ExpiryIsInclusive(records: map<string, EmailVerification>, email: string, otp: string)
    requires email != "" && otp != ""
    requires email in records && !records[email].verified && records[email].otp == otp
    ensures Decide(records, Some(email), Some(otp), records[email].expiresAt).status == 200
    ensures Decide(records, Some(email), Some(otp), records[email].expiresAt + 1) == Reply(400, Error("OTP has expired"))
  {
  }

  /** After a successful verification a second attempt with the same code is refused as
      already verified, and the address now counts as verified for customer writes. */
  lemma VerifyIsOneShot(records: map<string, EmailVerification>, email: string, otp: string, now: int, later: int)
    requires AllChecksPass(records, Some(email), Some(otp), now)
    ensures IsVerified(records[email := records[email].(verified := true)], email)
    ensures Decide(records[email := records[email].(verified := true)], Some(email), Some(otp), later)
      == Reply(400, Error("Email is already verified"))
  {
  }
}
