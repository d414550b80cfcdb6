/** The `emailVerification` table: one record per e-mail address, holding the last one-time
    password sent to it, when that password expires and whether the address has been verified. */
module EmailVerifications {
  import opened Records

  /** An address counts as verified when its record exists and carries the flag. */
  predicate IsVerified(records: map<string, EmailVerification>, email: string) {
    email in records && records[email].verified
  }

  class VerificationTable {
    var records: map<string, EmailVerification>

    constructor ()
      ensures records == map[]
    {
      records := map[];
    }

    /** `upsert` keyed by e-mail: the record for `email` becomes `record`, whether or not one
        existed; no other record changes. */
    method Upsert(email: string, record: EmailVerification)
      modifies this
      ensures records == old(records)[email := record]
    {
      records := records[email := record];
    }

    /** `update` keyed by e-mail, setting only the `verified` flag. */
    method MarkVerified(email: string)
      requires email in records
      modifies this
      ensures records == old(records)[email := old(records)[email].(verified := true)]
    {
      records := records[email := records[email].(verified := true)];
    }
  }
}
