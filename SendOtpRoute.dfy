/** POST /api/customers/send-otp: checks the address, draws a one-time code and stores it
    in the verification table with a ten-minute expiry, then mails it. */
module SendOtpRoute {
  import opened Wrappers
  import opened Records
  import opened Errors
  import opened EmailVerifications
  import Seqs
  import Text

  /** Lifetime of a code: ten minutes, in milliseconds. */
  const OtpLifetime: int := 10 * 60 * 1000

  /** Bounds given to the random draw: the lower one inclusive, the upper one exclusive. */
  const OtpMin: int := 100000
  const OtpMax: int := 999999

  predicate NoWhitespace(s: string) {
    forall k :: 0 <= k < |s| ==> !Text.IsWhitespace(s[k])
  }

  /** What `/^\S+@\S+\.\S+$/` accepts, stated as a shape: no whitespace anywhere, an '@'
      with at least one character before it, and a later '.' with at least one character
      between the two and at least one after the dot. */
  ghost predicate EmailShape(s: string) {
    NoWhitespace(s) &&
    exists i, j :: 0 < i && i + 1 < j < |s| - 1 && s[i] == '@' && s[j] == '.'
  }

  predicate IsAt(c: char) { c == '@' }
  predicate IsDot(c: char) { c == '.' }

  /** The matcher: the first '@' after the first character is the best anchor, because a
      later '@' leaves a shorter stretch in which to look for the dot. */
  function MatchesEmailPattern(s: string): bool {
    if s == [] || !NoWhitespace(s) then false
    else
      match Seqs.IndexWhere(s[1..], IsAt)
      case None => false
      case Some(k) =>
        var at := k + 1;
        at + 2 <= |s| - 1 && Seqs.IndexWhere(s[at + 2..|s| - 1], IsDot).Some?
  }

  lemma MatchesEmailPatternIsShape(s: string)
    ensures MatchesEmailPattern(s) <==> EmailShape(s)
  {
    if MatchesEmailPattern(s) {
      MatchIsShape(s);
    }
    if EmailShape(s) {
      ShapeMatches(s);
    }
  }

  lemma MatchIsShape(s: string)
    requires MatchesEmailPattern(s)
    ensures EmailShape(s)
  {
    var k := Seqs.IndexWhere(s[1..], IsAt).value;
    var at := k + 1;
    var m := Seqs.IndexWhere(s[at + 2..|s| - 1], IsDot).value;
    assert IsAt(s[1..][k]);
    assert s[at] == '@';
    assert IsDot(s[at + 2..|s| - 1][m]);
    assert s[at + 2 + m] == '.';
  }

  lemma ShapeMatches(s: string)
    requires EmailShape(s)
    ensures MatchesEmailPattern(s)
  {
    var i, j :| 0 < i && i + 1 < j < |s| - 1 && s[i] == '@' && s[j] == '.';
    assert IsAt(s[1..][i - 1]);
    var k := Seqs.IndexWhere(s[1..], IsAt).value;
    var at := k + 1;
    assert at <= i;
    assert IsDot(s[at + 2..|s| - 1][j - at - 2]);
  }

  /** The `!email || !pattern.test(email)` guard, negated. */
  predicate EmailAccepted(email: Option<string>) {
    Text.Truthy(email) && MatchesEmailPattern(email.value)
  }

  /** The record the upsert leaves behind, whether or not one existed before. */
  function IssuedRecord(drawn: int, now: int): (v: EmailVerification)
    requires OtpMin <= drawn < OtpMax
    ensures |v.otp| == 6 && forall i :: 0 <= i < 6 ==> Text.IsDigit(v.otp[i])
    ensures Text.DecimalValue(v.otp) == drawn
    ensures v.expiresAt - now == OtpLifetime && !v.verified
  {
    OtpIsSixDigits(drawn);
    EmailVerification(Text.NatToString(drawn), now + OtpLifetime, false)
  }

  lemma OtpIsSixDigits(n: nat)
    requires OtpMin <= n < OtpMax
    ensures |Text.NatToString(n)| == 6
    ensures Text.DecimalValue(Text.NatToString(n)) == n
  {
    assert Text.Pow10(5) == 100000 by {
      assert Text.Pow10(0) == 1;
      assert Text.Pow10(1) == 10;
      assert Text.Pow10(2) == 100;
      assert Text.Pow10(3) == 1000;
      assert Text.Pow10(4) == 10000;
    }
    assert Text.Pow10(6) == 1000000;
    Text.NatToStringLength(n, 6);
    Text.NatToStringRoundTrip(n);
  }

  /** The route. `drawn` is the value of the random draw and `mailSent` whether the mail
      transport reported success; a failed mail is reported as 500 after the record has
      already been written. */
  method Post(table: VerificationTable, signedIn: bool, email: Option<string>, drawn: int, now: int, mailSent: bool)
    returns (reply: Reply<()>)
    requires OtpMin <= drawn < OtpMax
    modifies table
    ensures !signedIn ==> reply == Unauthorized() && table.records == old(table.records)
    ensures signedIn && !EmailAccepted(email) ==>
      reply == Reply(400, Error("Valid email is required")) && table.records == old(table.records)
    ensures signedIn && EmailAccepted(email) ==>
      table.records == old(table.records)[email.value := IssuedRecord(drawn, now)]
    ensures signedIn && EmailAccepted(email) ==>
      reply == if mailSent then Reply(200, Message("OTP sent successfully")) else Reply(500, Error("Failed to send OTP"))
  {
    if !signedIn {
      return Unauthorized();
    }
    if !Text.Truthy(email) || !MatchesEmailPattern(email.value) {
      return Reply(400, Error("Valid email is required"));
    }
    var record := IssuedRecord(drawn, now);
    table.Upsert(email.value, record);
    if !mailSent {
      return Reply(500, Error("Failed to send OTP"));
    }
    reply := Reply(200, Message("OTP sent successfully"));
  }

  /** Issuing a code to an address that is already verified makes it unverified again,
      and leaves every other address's record as it was. */
  lemma ReissueResetsVerification(records: map<string, EmailVerification>, email: string, other: string, drawn: int, now: int)
    requires OtpMin <= drawn < OtpMax
    requires other != email
    ensures !IsVerified(records[email := IssuedRecord(drawn, now)], email)
    ensures IsVerified(records[email := IssuedRecord(drawn, now)], other) == IsVerified(records, other)
  {
  }

  lemma AcceptsPlainAddress()
    ensures MatchesEmailPattern("a@b.co")
  {
    MatchesEmailPatternIsShape("a@b.co");
    assert "a@b.co"[1] == '@' && "a@b.co"[3] == '.';
  }

  lemma RejectsAddressEndingInDot()
    ensures !MatchesEmailPattern("a@b.")
  {
    MatchesEmailPatternIsShape("a@b.");
  }

  lemma RejectsAddressWithSpace()
    ensures !MatchesEmailPattern("a b@c.de")
  {
    assert Text.IsWhitespace("a b@c.de"[1]);
  }
}
