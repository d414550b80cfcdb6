/** The customer service: zod validation of customers, the e-mail verification gate on create and
    update, the partial-update rules, and storing an uploaded document. */
module CustomerService {
  import opened Wrappers
  import opened Records
  import opened Errors
  import opened CustomerRepository
  import opened EmailVerifications
  import Text

  // ---------------------------------------------------------------------------------------------
  // Input and validation (`AddressSchema`, `ContactSchema`, `DocumentSchema`, `CustomerSchema`)
  // ---------------------------------------------------------------------------------------------

  /** A customer as submitted for creation; a nullable field that is absent or `null` is `None`. */
  datatype CustomerInput = CustomerInput(
    customerCode: string, customerName: string,
    telephone: Option<string>, email: Option<string>, country: Option<string>,
    city: Option<string>, state: Option<string>, salesPerson: Option<string>,
    addresses: Option<seq<Address>>, contacts: Option<seq<Contact>>, documents: Option<seq<Document>>)

  /** A nullable field of a partial update: left out, sent as `null`, or sent with a value. */
  datatype Field<T> = Absent | Null | Value(value: T)

  /** A customer as submitted to `updateCustomer`: every field may be left out. */
  datatype CustomerPatch = CustomerPatch(
    customerCode: Option<string>, customerName: Option<string>,
    telephone: Field<string>, email: Field<string>, country: Field<string>,
    city: Field<string>, state: Field<string>, salesPerson: Field<string>,
    addresses: Option<seq<Address>>, contacts: Option<seq<Contact>>, documents: Option<seq<Document>>)

  /** `z.string().email().nullable().optional().or(z.string().length(0))`: absent, null, empty,
      or an address zod's e-mail pattern (`isEmail`) accepts. */
  predicate EmailAcceptable(email: Option<string>, isEmail: string -> bool) {
    email.None? || email.value == "" || isEmail(email.value)
  }

  function EmailIssues(email: Option<string>, at: seq<PathPart>, isEmail: string -> bool): seq<Issue> {
    if EmailAcceptable(email, isEmail) then [] else [Issue(at + [Key("email")], "Invalid email")]
  }

  function AddressIssues(a: Address, at: seq<PathPart>): seq<Issue> {
    if |a.address| < 1 then [Issue(at + [Key("address")], "Address is required")] else []
  }

  function ContactIssues(c: Contact, at: seq<PathPart>, isEmail: string -> bool): seq<Issue> {
    (if |c.contactName| < 1 then [Issue(at + [Key("contactName")], "Contact name is required")] else [])
    + EmailIssues(c.email, at, isEmail)
  }

  predicate AddressAcceptable(a: Address) {
    a.address != ""
  }

  predicate ContactAcceptable(c: Contact, isEmail: string -> bool) {
    c.contactName != "" && EmailAcceptable(c.email, isEmail)
  }

  /** The issues of the nested lists, shared by the full and the partial schema. */
  function ListsIssues(addresses: Option<seq<Address>>, contacts: Option<seq<Contact>>, isEmail: string -> bool)
    : seq<Issue>
  {
    (if addresses.Some? then ListIssues(addresses.value, "addresses", 0, AddressIssues) else [])
    + (if contacts.Some?
       then ListIssues(contacts.value, "contacts", 0, (c: Contact, at: seq<PathPart>) => ContactIssues(c, at, isEmail))
       else [])
  }

  predicate ListsAcceptable(addresses: Option<seq<Address>>, contacts: Option<seq<Contact>>, isEmail: string -> bool) {
    && (addresses.Some? ==> forall a :: a in addresses.value ==> AddressAcceptable(a))
    && (contacts.Some? ==> forall c :: c in contacts.value ==> ContactAcceptable(c, isEmail))
  }

  lemma ListsIssuesEmptyIff(addresses: Option<seq<Address>>, contacts: Option<seq<Contact>>, isEmail: string -> bool)
    ensures ListsIssues(addresses, contacts, isEmail) == [] <==> ListsAcceptable(addresses, contacts, isEmail)
  {
    if addresses.Some? {
      ListIssuesEmptyIff(addresses.value, "addresses", AddressIssues, AddressAcceptable);
    }
    if contacts.Some? {
      ListIssuesEmptyIff(contacts.value, "contacts",
        (c: Contact, at: seq<PathPart>) => ContactIssues(c, at, isEmail),
        (c: Contact) => ContactAcceptable(c, isEmail));
    }
  }

  /** Every issue `CustomerSchema` reports, in schema order. */
  function CustomerIssues(c: CustomerInput, isEmail: string -> bool): seq<Issue> {
    (if |c.customerCode| < 1 then [Issue([Key("customerCode")], "Customer Code is required")] else [])
    + (if |c.customerName| < 1 then [Issue([Key("customerName")], "Customer Name is required")] else [])
    + EmailIssues(c.email, [], isEmail)
    + ListsIssues(c.addresses, c.contacts, isEmail)
  }

  /** The acceptance rules: a code, a name, a well-formed or empty e-mail, and every address
      line and contact name filled in. */
  predicate CustomerAcceptable(c: CustomerInput, isEmail: string -> bool) {
    && c.customerCode != "" && c.customerName != ""
    && EmailAcceptable(c.email, isEmail)
    && ListsAcceptable(c.addresses, c.contacts, isEmail)
  }

  lemma CustomerIssuesEmptyIff(c: CustomerInput, isEmail: string -> bool)
    ensures CustomerIssues(c, isEmail) == [] <==> CustomerAcceptable(c, isEmail)
  {
    ListsIssuesEmptyIff(c.addresses, c.contacts, isEmail);
  }

  /** The value of a field under `.partial()`: a field that is present must still pass its rule. */
  function PatchIssues(p: CustomerPatch, isEmail: string -> bool): seq<Issue> {
    (if p.customerCode == Some("") then [Issue([Key("customerCode")], "Customer Code is required")] else [])
    + (if p.customerName == Some("") then [Issue([Key("customerName")], "Customer Name is required")] else [])
    + EmailIssues(if p.email.Value? then Some(p.email.value) else None, [], isEmail)
    + ListsIssues(p.addresses, p.contacts, isEmail)
  }

  predicate PatchAcceptable(p: CustomerPatch, isEmail: string -> bool) {
    && p.customerCode != Some("") && p.customerName != Some("")
    && (p.email.Value? ==> EmailAcceptable(Some(p.email.value), isEmail))
    && ListsAcceptable(p.addresses, p.contacts, isEmail)
  }

  lemma PatchIssuesEmptyIff(p: CustomerPatch, isEmail: string -> bool)
    ensures PatchIssues(p, isEmail) == [] <==> PatchAcceptable(p, isEmail)
  {
    ListsIssuesEmptyIff(p.addresses, p.contacts, isEmail);
  }

  // ---------------------------------------------------------------------------------------------
  // Create
  // ---------------------------------------------------------------------------------------------

  const CreateGateMessage := "Email verification is required."
  const UpdateGateMessage := "Email verification is required for the new email address."

  /** The create gate: a non-empty e-mail needs a verified record. */
  predicate CreateBlocked(email: Option<string>, verifications: map<string, EmailVerification>) {
    Text.Truthy(email) && !IsVerified(verifications, email.value)
  }

  function CreateData(c: CustomerInput): (d: CustomerCreate)
    ensures d.customerCode == c.customerCode && d.customerName == c.customerName && d.email == c.email
    ensures d.telephone == c.telephone && d.country == c.country && d.city == c.city
    ensures d.state == c.state && d.salesPerson == c.salesPerson
    ensures c.addresses.None? ==> d.addresses == []
    ensures c.addresses.Some? ==> d.addresses == c.addresses.value
    ensures d.contacts == (if c.contacts.Some? then c.contacts.value else [])
    ensures d.documents == (if c.documents.Some? then c.documents.value else [])
  {
    CustomerCreate(
      c.customerCode, c.customerName, c.telephone, c.email, c.country, c.city, c.state, c.salesPerson,
      if c.addresses.Some? then c.addresses.value else [],
      if c.contacts.Some? then c.contacts.value else [],
      if c.documents.Some? then c.documents.value else [])
  }

  /** `createCustomer`: validate, check the e-mail gate, then insert. */
  method CreateCustomer(
    table: CustomerTable, verifications: map<string, EmailVerification>, input: CustomerInput,
    isEmail: string -> bool, id: string, now: int) returns (r: Result<Customer, Failure>)
    requires table.Valid() && FindCustomer(table.rows, id).None?
    modifies table
    ensures table.Valid()
    ensures !CustomerAcceptable(input, isEmail) ==>
              r == Err(Invalid(CustomerIssues(input, isEmail))) && table.rows == old(table.rows)
    ensures CustomerAcceptable(input, isEmail) && CreateBlocked(input.email, verifications) ==>
              r == Err(Thrown(None, CreateGateMessage)) && table.rows == old(table.rows)
    ensures CustomerAcceptable(input, isEmail) && !CreateBlocked(input.email, verifications) ==>
              r == Ok(NewCustomer(CreateData(input), id, now)) && table.rows == old(table.rows) + [r.value]
    ensures r.Ok? && Text.Truthy(input.email) ==> IsVerified(verifications, input.email.value)
  {
    CustomerIssuesEmptyIff(input, isEmail);
    var issues := CustomerIssues(input, isEmail);
    if issues != [] {
      return Err(Invalid(issues));
    }
    if Text.Truthy(input.email) {
      if !(input.email.value in verifications) || !verifications[input.email.value].verified {
        return Err(Thrown(None, CreateGateMessage));
      }
    }
    var c := table.CreateCustomer(CreateData(input), id, now);
    r := Ok(c);
  }

  /** A stored new customer carries every submitted field, an absent list stored empty, under
      the given id and creation time, and is not deleted. */
  lemma CreatedCustomerFollowsInput(input: CustomerInput, id: string, now: int)
    ensures var c := NewCustomer(CreateData(input), id, now);
      && c.id == id && c.createdAt == now && c.deletedAt.None?
      && c.customerCode == input.customerCode && c.customerName == input.customerName
      && c.telephone == input.telephone && c.email == input.email && c.country == input.country
      && c.city == input.city && c.state == input.state && c.salesPerson == input.salesPerson
      && c.addresses == (if input.addresses.Some? then input.addresses.value else [])
      && c.contacts == (if input.contacts.Some? then input.contacts.value else [])
      && c.documents == (if input.documents.Some? then input.documents.value else [])
  {
  }

  // ---------------------------------------------------------------------------------------------
  // Update
  // ---------------------------------------------------------------------------------------------

  /** The update gate: a non-empty e-mail that differs from the stored one (or names a customer
      that does not exist) needs a verified record. */
  predicate UpdateBlocked(email: Field<string>, existing: Option<Customer>, verifications: map<string, EmailVerification>) {
    && email.Value? && email.value != ""
    && (existing.None? || existing.value.email != Some(email.value))
    && !IsVerified(verifications, email.value)
  }

  /** How a nullable field of the patch lands on the stored value. */
  function FieldUpdate<T>(f: Field<T>): Option<Option<T>> {
    match f
    case Absent => None
    case Null => Some(None)
    case Value(v) => Some(Some(v))
  }

  /** The update `updateCustomer` builds: code and name only when non-empty, every other scalar
      whenever it is not left out, lists only when present. */
  function BuildCustomerUpdate(p: CustomerPatch): CustomerUpdate {
    CustomerUpdate(
      if Text.Truthy(p.customerCode) then p.customerCode else None,
      if Text.Truthy(p.customerName) then p.customerName else None,
      FieldUpdate(p.telephone), FieldUpdate(p.email), FieldUpdate(p.country),
      FieldUpdate(p.city), FieldUpdate(p.state), FieldUpdate(p.salesPerson),
      p.addresses, p.contacts, p.documents)
  }

  /** A nullable column after the update: kept when the field is left out, cleared by `null`,
      set by a value. */
  predicate FieldApplied(f: Field<string>, before: Option<string>, after: Option<string>) {
    match f
    case Absent => after == before
    case Null => after.None?
    case Value(v) => after == Some(v)
  }

  /** The stored customer after `updateCustomer(id, p)`. */
  function PatchCustomer(c: Customer, p: CustomerPatch): (r: Customer)
    ensures r.id == c.id && r.createdAt == c.createdAt && r.deletedAt == c.deletedAt
    ensures r.customerCode == (if Text.Truthy(p.customerCode) then p.customerCode.value else c.customerCode)
    ensures r.customerName == (if Text.Truthy(p.customerName) then p.customerName.value else c.customerName)
    ensures FieldApplied(p.telephone, c.telephone, r.telephone) && FieldApplied(p.email, c.email, r.email)
    ensures FieldApplied(p.country, c.country, r.country) && FieldApplied(p.city, c.city, r.city)
    ensures FieldApplied(p.state, c.state, r.state) && FieldApplied(p.salesPerson, c.salesPerson, r.salesPerson)
    ensures r.addresses == (if p.addresses.Some? then p.addresses.value else c.addresses)
    ensures r.contacts == (if p.contacts.Some? then p.contacts.value else c.contacts)
    ensures r.documents == (if p.documents.Some? then p.documents.value else c.documents)
  {
    ApplyCustomerUpdate(c, BuildCustomerUpdate(p))
  }

  /** `updateCustomer`: validate the fields present, check the e-mail gate against the stored
      customer, then rewrite the row. */
  method UpdateCustomer(
    table: CustomerTable, verifications: map<string, EmailVerification>, id: string, p: CustomerPatch,
    isEmail: string -> bool) returns (r: Result<Customer, Failure>)
    requires table.Valid()
    modifies table
    ensures table.Valid()
    ensures !PatchAcceptable(p, isEmail) ==>
              r == Err(Invalid(PatchIssues(p, isEmail))) && table.rows == old(table.rows)
    ensures PatchAcceptable(p, isEmail) && UpdateBlocked(p.email, GetCustomerById(old(table.rows), id), verifications) ==>
              r == Err(Thrown(None, UpdateGateMessage)) && table.rows == old(table.rows)
    ensures PatchAcceptable(p, isEmail) && !UpdateBlocked(p.email, GetCustomerById(old(table.rows), id), verifications) ==>
              && (FindCustomer(old(table.rows), id).None? ==> r == Err(RecordNotFound()) && table.rows == old(table.rows))
              && (FindCustomer(old(table.rows), id).Some? ==>
                    var k := FindCustomer(old(table.rows), id).value;
                    r == Ok(PatchCustomer(old(table.rows)[k], p)) && table.rows == old(table.rows)[k := r.value])
  {
    PatchIssuesEmptyIff(p, isEmail);
    var issues := PatchIssues(p, isEmail);
    if issues != [] {
      return Err(Invalid(issues));
    }
    if p.email.Value? && p.email.value != "" {
      var existing := GetCustomerById(table.rows, id);
      if existing.None? || existing.value.email != Some(p.email.value) {
        if !(p.email.value in verifications) || !verifications[p.email.value].verified {
          return Err(Thrown(None, UpdateGateMessage));
        }
      }
    }
    r := table.UpdateCustomer(id, BuildCustomerUpdate(p));
  }

  /** Keeping the stored e-mail never needs a new verification. */
  lemma UnchangedEmailNeedsNoVerification(c: Customer, verifications: map<string, EmailVerification>)
    requires c.email.Some?
    ensures !UpdateBlocked(Value(c.email.value), Some(c), verifications)
  {
  }

  // ---------------------------------------------------------------------------------------------
  // Uploaded documents (`saveFile`)
  // ---------------------------------------------------------------------------------------------

  /** An uploaded file: its name, MIME type, size and bytes. */
  datatype Upload = Upload(name: string, mimeType: string, size: nat, content: seq<bv8>)

  /** What `saveFile` returns. */
  datatype SavedFile = SavedFile(fileName: string, filePath: string, fileType: string, fileSize: nat)

  const AllowedTypes: seq<string> := [
    "application/pdf", "image/jpeg", "image/png", "image/gif",
    "application/msword", "application/vnd.openxmlformats-officedocument.wordprocessingml.document",
    "application/vnd.ms-excel", "application/vnd.openxmlformats-officedocument.spreadsheetml.sheet",
    "text/plain", "application/zip", "application/x-zip-compressed"
  ]

  function RejectionMessage(mimeType: string): string {
    "File type " + (if mimeType == "" then "unknown" else mimeType) + " is not allowed."
  }

  /** `s` without its trailing slashes. */
  function StripTrailingSlashes(s: string): (r: string)
    ensures |r| <= |s| && r == s[..|r|]
    ensures r == [] || r[|r| - 1] != '/'
  {
    if s != [] && s[|s| - 1] == '/' then StripTrailingSlashes(s[..|s| - 1]) else s
  }

  /** The part of `s` after its last slash. */
  function AfterLastSlash(s: string): (r: string)
    ensures '/' !in r
    ensures |r| <= |s| && r == s[|s| - |r|..]
  {
    if s == [] || s[|s| - 1] == '/' then []
    else AfterLastSlash(s[..|s| - 1]) + [s[|s| - 1]]
  }

  /** POSIX `path.basename`: the last path segment, ignoring trailing slashes. */
  function Basename(path: string): (r: string)
    ensures '/' !in r
  {
    AfterLastSlash(StripTrailingSlashes(path))
  }

  /** The characters `/[^a-zA-Z0-9.-]/` does not match. */
  predicate SafeChar(c: char) {
    'a' <= c <= 'z' || 'A' <= c <= 'Z' || '0' <= c <= '9' || c == '.' || c == '-'
  }

  /** How many UTF-16 code units JavaScript stores for `c`: a surrogate pair above the Basic
      Multilingual Plane, one unit otherwise. */
  function CodeUnits(c: char): (n: nat)
    ensures n == 1 || n == 2
    ensures n == 2 <==> c as int > 0xFFFF
  {
    if c as int > 0xFFFF then 2 else 1
  }

  /** JavaScript's `length` of a string: the number of its UTF-16 code units. */
  function Utf16Length(s: string): (n: nat)
    ensures |s| <= n <= 2 * |s|
  {
    if s == [] then 0 else Utf16Length(s[..|s| - 1]) + CodeUnits(s[|s| - 1])
  }

  /** What the pattern writes for one character: a safe character stays, any other becomes
      one "_" per code unit, since a pattern without the `u` flag matches code units. */
  function Replacement(c: char): (r: string)
    ensures SafeChar(c) ==> r == [c]
    ensures !SafeChar(c) ==> |r| == CodeUnits(c) && forall i :: 0 <= i < |r| ==> r[i] == '_'
  {
    if SafeChar(c) then [c] else if CodeUnits(c) == 2 then "__" else "_"
  }

  /** `name.replace(/[^a-zA-Z0-9.-]/g, "_")`. */
  function Sanitize(name: string): (r: string)
    ensures |r| == Utf16Length(name)
    ensures forall i :: 0 <= i < |r| ==> SafeChar(r[i]) || r[i] == '_'
  {
    if name == [] then []
    else Sanitize(name[..|name| - 1]) + Replacement(name[|name| - 1])
  }

  /** Sanitising works character by character: a name split in two is sanitised part by part. */
  lemma {:induction false} SanitizeAppend(a: string, b: string)
    ensures Sanitize(a + b) == Sanitize(a) + Sanitize(b)
    decreases |b|
  {
    if b == [] {
      assert a + b == a;
    } else {
      var b' := b[..|b| - 1];
      var last := b[|b| - 1];
      assert b == b' + [last];
      assert (a + b)[..|a + b| - 1] == a + b';
      assert (a + b)[|a + b| - 1] == last;
      SanitizeAppend(a, b');
      assert Sanitize(a + b) == Sanitize(a + b') + Replacement(last);
      assert Sanitize(b) == Sanitize(b') + Replacement(last);
    }
  }

  /** For a name inside the Basic Multilingual Plane, position i of the result is character i
      of the name when it is safe and "_" otherwise. */
  lemma {:induction false} SanitizeBmp(name: string)
    requires forall i :: 0 <= i < |name| ==> name[i] as int <= 0xFFFF
    ensures |Sanitize(name)| == |name|
    ensures forall i :: 0 <= i < |name| ==> Sanitize(name)[i] == if SafeChar(name[i]) then name[i] else '_'
    decreases |name|
  {
    if name != [] {
      var front := name[..|name| - 1];
      var last := name[|name| - 1];
      SanitizeBmp(front);
      assert Replacement(last) == [if SafeChar(last) then last else '_'];
      forall i | 0 <= i < |name|
        ensures Sanitize(name)[i] == if SafeChar(name[i]) then name[i] else '_'
      {
        if i < |front| {
          assert name[i] == front[i];
        }
      }
    }
  }

  /** A character outside the Basic Multilingual Plane becomes two underscores. */
  lemma SanitizeAstral(c: char, rest: string)
    requires c as int > 0xFFFF
    ensures Sanitize([c] + rest) == "__" + Sanitize(rest)
  {
    SanitizeAppend([c], rest);
    assert [c][..0] == [];
  }

  /** An emoji file name: the emoji is two code units, so two underscores. */
  lemma SanitizeEmojiName()
    ensures Sanitize(['\U{1F600}'] + ".pdf") == "__" + ".pdf"
  {
    var rest := ".pdf";
    assert |rest| == 4 && rest[0] == '.' && rest[1] == 'p' && rest[2] == 'd' && rest[3] == 'f';
    SanitizeKeepsSafeNames(rest);
    SanitizeAstral('\U{1F600}', rest);
  }

  /** A name made only of safe characters and underscores is left as it is. */
  lemma {:induction false} SanitizeKeepsSafeNames(s: string)
    requires forall i :: 0 <= i < |s| ==> SafeChar(s[i]) || s[i] == '_'
    ensures Sanitize(s) == s
    decreases |s|
  {
    if s != [] {
      SanitizeKeepsSafeNames(s[..|s| - 1]);
      assert s == s[..|s| - 1] + [s[|s| - 1]];
    }
  }

  /** Sanitising a sanitised name changes nothing. */
  lemma SanitizeIdempotent(name: string)
    ensures Sanitize(Sanitize(name)) == Sanitize(name)
  {
    SanitizeKeepsSafeNames(Sanitize(name));
  }

  /** The stored file name: the upload time in milliseconds, a hyphen, the sanitised basename. */
  function StoredName(now: nat, name: string): string {
    Text.NatToString(now) + "-" + Sanitize(Basename(name))
  }

  /** The stored name stays inside the upload directory, and its prefix reads back as the time. */
  lemma StoredNameParts(now: nat, name: string)
    ensures '/' !in StoredName(now, name)
    ensures var stamp := Text.NatToString(now);
      && StoredName(now, name)[..|stamp|] == stamp
      && StoredName(now, name)[|stamp|] == '-'
      && Text.DecimalValue(StoredName(now, name)[..|stamp|]) == now
  {
    var stamp := Text.NatToString(now);
    var safe := Sanitize(Basename(name));
    var joined := stamp + "-" + safe;
    assert StoredName(now, name) == joined;
    assert joined[..|stamp|] == stamp;
    assert joined[|stamp|] == '-';
    Text.NatToStringRoundTrip(now);
    NoSlashInJoin(stamp, safe);
  }

  /** Joining a decimal stamp and a sanitised name with a hyphen introduces no slash. */
  lemma NoSlashInJoin(stamp: string, safe: string)
    requires forall i :: 0 <= i < |stamp| ==> Text.IsDigit(stamp[i])
    requires forall i :: 0 <= i < |safe| ==> SafeChar(safe[i]) || safe[i] == '_'
    ensures '/' !in stamp + "-" + safe
  {
    var joined := stamp + "-" + safe;
    forall i | 0 <= i < |joined| ensures joined[i] != '/' {
      if i < |stamp| {
        assert joined[i] == stamp[i];
      } else if i > |stamp| {
        assert joined[i] == safe[i - |stamp| - 1];
      }
    }
  }

  /** The upload directory. */
  class FileStore {
    var files: map<string, seq<bv8>>

    constructor ()
      ensures files == map[]
    {
      files := map[];
    }

    method WriteFile(name: string, content: seq<bv8>)
      modifies this
      ensures files == old(files)[name := content]
    {
      files := files[name := content];
    }
  }

  /** `saveFile`: reject a type outside the allow-list without writing anything; otherwise
      write the bytes under the stored name and describe the file. */
  method SaveFile(store: FileStore, file: Upload, now: nat) returns (r: Result<SavedFile, Failure>)
    modifies store
    ensures file.mimeType !in AllowedTypes ==>
              r == Err(Thrown(None, RejectionMessage(file.mimeType))) && store.files == old(store.files)
    ensures file.mimeType in AllowedTypes ==>
              && r == Ok(SavedFile(Basename(file.name), StoredName(now, file.name), file.mimeType, file.size))
              && store.files == old(store.files)[StoredName(now, file.name) := file.content]
  {
    if file.mimeType !in AllowedTypes {
      return Err(Thrown(None, RejectionMessage(file.mimeType)));
    }
    var safeFileName := Sanitize(Basename(file.name));
    var uniqueName := Text.NatToString(now) + "-" + safeFileName;
    store.WriteFile(uniqueName, file.content);
    r := Ok(SavedFile(Basename(file.name), uniqueName, file.mimeType, file.size));
  }
}
