/** The state logic of the customer form: the e-mail verification flags driven by the
    one-time-code buttons, the submit gate built on them, and the address, contact and
    document lists. The requests themselves are outside the model; each handler takes
    whether its request succeeded. */
module CustomerForm {
  import opened Wrappers
  import opened Records
  import Seqs
  import Text
  import CustomerService

  const VerifyFirstMessage := "Please verify the email address before saving."

  /** The submit handler refuses to send a non-empty address that differs from the one the
      form was opened with and has not been verified. */
  predicate SubmitBlocked(email: string, emailVerified: bool, originalEmail: string) {
    email != "" && !emailVerified && email != originalEmail
  }

  datatype AddressEdit =
    | SetLine(text: string) | SetCity(text: string) | SetState(text: string)
    | SetCountry(text: string) | SetTelephone(text: string)

  datatype ContactEdit =
    | SetContactName(text: string) | SetPosition(text: string)
    | SetContactEmail(text: string) | SetContactPhone(text: string)

  /** An address line typed into one input; the input always holds a string. */
  function EditAddress(a: Address, e: AddressEdit): (r: Address)
    ensures r.address == if e.SetLine? then e.text else a.address
    ensures r.city == if e.SetCity? then Some(e.text) else a.city
    ensures r.state == if e.SetState? then Some(e.text) else a.state
    ensures r.country == if e.SetCountry? then Some(e.text) else a.country
    ensures r.telephone == if e.SetTelephone? then Some(e.text) else a.telephone
  {
    match e
    case SetLine(t) => a.(address := t)
    case SetCity(t) => a.(city := Some(t))
    case SetState(t) => a.(state := Some(t))
    case SetCountry(t) => a.(country := Some(t))
    case SetTelephone(t) => a.(telephone := Some(t))
  }

  function EditContact(c: Contact, e: ContactEdit): (r: Contact)
    ensures r.contactName == if e.SetContactName? then e.text else c.contactName
    ensures r.position == if e.SetPosition? then Some(e.text) else c.position
    ensures r.email == if e.SetContactEmail? then Some(e.text) else c.email
    ensures r.phone == if e.SetContactPhone? then Some(e.text) else c.phone
  {
    match e
    case SetContactName(t) => c.(contactName := t)
    case SetPosition(t) => c.(position := Some(t))
    case SetContactEmail(t) => c.(email := Some(t))
    case SetContactPhone(t) => c.(phone := Some(t))
  }

  /** The document the form records for an uploaded file, with empty notes. */
  function UploadedDocument(file: CustomerService.SavedFile): (d: Document)
    ensures d.fileName == file.fileName && d.filePath == file.filePath
    ensures d.fileType == file.fileType && d.fileSize == file.fileSize
    ensures d.notes == Some("")
  {
    Document(file.fileName, file.filePath, file.fileType, file.fileSize, Some(""))
  }

  class CustomerFormState {
    var email: string
    const originalEmail: string
    var otpSent: bool
    var otp: string
    var emailVerified: bool
    var error: string
    var addresses: seq<Address>
    var contacts: seq<Contact>
    var documents: seq<Document>
    /** The last address the verification endpoint accepted while this form was open. */
    ghost var verifiedEmail: string

    /** A flag that claims verification of an address other than the original one is backed
        by a successful verification of exactly that address. */
    ghost predicate Valid()
      reads this
    {
      emailVerified && email != originalEmail ==> email == verifiedEmail
    }

    /** The form opens with the stored address, if any; it counts as verified only when an
        existing customer is being edited and that address is not empty. */
    constructor (initialEmail: Option<string>, isEditing: bool,
                 addresses: seq<Address>, contacts: seq<Contact>, documents: seq<Document>)
      ensures Valid()
      ensures originalEmail == (if Text.Truthy(initialEmail) then initialEmail.value else "")
      ensures email == originalEmail
      ensures emailVerified <==> isEditing && Text.Truthy(initialEmail)
      ensures !otpSent && otp == "" && error == ""
      ensures this.addresses == addresses && this.contacts == contacts && this.documents == documents
    {
      var original := if Text.Truthy(initialEmail) then initialEmail.value else "";
      originalEmail := original;
      email := original;
      otpSent := false;
      otp := "";
      emailVerified := isEditing && Text.Truthy(initialEmail);
      error := "";
      this.addresses := addresses;
      this.contacts := contacts;
      this.documents := documents;
      verifiedEmail := "";
    }

    /** Typing in the e-mail box. A value other than the original clears both flags; going
        back to a non-empty original restores the verified flag. */
    method ChangeEmail(value: string)
      requires Valid()
      modifies this
      ensures Valid()
      ensures email == value
      ensures value != originalEmail ==> !emailVerified && !otpSent
      ensures value == originalEmail && originalEmail != "" ==> emailVerified && otpSent == old(otpSent)
      ensures value == originalEmail && originalEmail == "" ==>
                emailVerified == old(emailVerified) && otpSent == old(otpSent)
      ensures otp == old(otp) && error == old(error) && verifiedEmail == old(verifiedEmail)
      ensures addresses == old(addresses) && contacts == old(contacts) && documents == old(documents)
    {
      email := value;
      if value != originalEmail {
        emailVerified := false;
        otpSent := false;
      } else if originalEmail != "" {
        emailVerified := true;
      }
    }

    method EnterOtp(value: string)
      modifies this
      ensures otp == value
      ensures email == old(email) && otpSent == old(otpSent) && emailVerified == old(emailVerified)
      ensures error == old(error) && verifiedEmail == old(verifiedEmail)
      ensures addresses == old(addresses) && contacts == old(contacts) && documents == old(documents)
    {
      otp := value;
    }

    /** "Send OTP": nothing happens with an empty address; a successful request marks the
        code as sent, a failed one changes no flag. */
    method SendOtp(succeeded: bool)
      requires Valid()
      modifies this
      ensures Valid()
      ensures otpSent == (old(otpSent) || (old(email) != "" && succeeded))
      ensures email == old(email) && otp == old(otp) && emailVerified == old(emailVerified)
      ensures error == old(error) && verifiedEmail == old(verifiedEmail)
      ensures addresses == old(addresses) && contacts == old(contacts) && documents == old(documents)
    {
      if email == "" {
        return;
      }
      if succeeded {
        otpSent := true;
      }
    }

    /** "Verify": nothing happens unless both the address and the code are filled in; a
        successful request marks the current address verified and hides the code box. The
        request and its response are one step here: the address cannot change in between. */
    method VerifyOtp(succeeded: bool)
      requires Valid()
      modifies this
      ensures Valid()
      ensures old(email) != "" && old(otp) != "" && succeeded ==>
                emailVerified && !otpSent && verifiedEmail == email
      ensures !(old(email) != "" && old(otp) != "" && succeeded) ==>
                emailVerified == old(emailVerified) && otpSent == old(otpSent) && verifiedEmail == old(verifiedEmail)
      ensures email == old(email) && otp == old(otp) && error == old(error)
      ensures addresses == old(addresses) && contacts == old(contacts) && documents == old(documents)
    {
      if email == "" || otp == "" {
        return;
      }
      if succeeded {
        emailVerified := true;
        otpSent := false;
        verifiedEmail := email;
      }
    }

    /** The submit gate. When the form goes on to send, a changed, non-empty address is
        always one that the verification endpoint accepted, as long as each handler, its
        request included, runs as one step. */
    method Submit() returns (proceeds: bool)
      requires Valid()
      modifies this
      ensures Valid()
      ensures proceeds <==> !SubmitBlocked(email, emailVerified, originalEmail)
      ensures error == if proceeds then "" else VerifyFirstMessage
      ensures proceeds && email != "" && email != originalEmail ==> email == verifiedEmail
      ensures email == old(email) && otp == old(otp) && otpSent == old(otpSent)
      ensures emailVerified == old(emailVerified) && verifiedEmail == old(verifiedEmail)
      ensures addresses == old(addresses) && contacts == old(contacts) && documents == old(documents)
    {
      if email != "" && !emailVerified && email != originalEmail {
        error := VerifyFirstMessage;
        return false;
      }
      error := "";
      proceeds := true;
    }

    method AddAddress()
      modifies this
      ensures addresses == old(addresses) + [Address("", None, None, None, None)]
      ensures contacts == old(contacts) && documents == old(documents)
      ensures email == old(email) && emailVerified == old(emailVerified) && otpSent == old(otpSent)
    {
      addresses := addresses + [Address("", None, None, None, None)];
    }

    method AddContact()
      modifies this
      ensures contacts == old(contacts) + [Contact("", None, None, None)]
      ensures addresses == old(addresses) && documents == old(documents)
      ensures email == old(email) && emailVerified == old(emailVerified) && otpSent == old(otpSent)
    {
      contacts := contacts + [Contact("", None, None, None)];
    }

    /** `filter((_, i) => i !== index)`: an index outside the list removes nothing. */
    method RemoveAddress(index: int)
      modifies this
      ensures addresses == Seqs.RemoveAt(old(addresses), index)
      ensures contacts == old(contacts) && documents == old(documents)
      ensures email == old(email) && emailVerified == old(emailVerified) && otpSent == old(otpSent)
    {
      addresses := Seqs.RemoveAt(addresses, index);
    }

    method RemoveContact(index: int)
      modifies this
      ensures contacts == Seqs.RemoveAt(old(contacts), index)
      ensures addresses == old(addresses) && documents == old(documents)
      ensures email == old(email) && emailVerified == old(emailVerified) && otpSent == old(otpSent)
    {
      contacts := Seqs.RemoveAt(contacts, index);
    }

    method RemoveDocument(index: int)
      modifies this
      ensures documents == Seqs.RemoveAt(old(documents), index)
      ensures addresses == old(addresses) && contacts == old(contacts)
      ensures email == old(email) && emailVerified == old(emailVerified) && otpSent == old(otpSent)
    {
      documents := Seqs.RemoveAt(documents, index);
    }

    method UpdateAddress(index: nat, e: AddressEdit)
      requires index < |addresses|
      modifies this
      ensures addresses == old(addresses)[index := EditAddress(old(addresses)[index], e)]
      ensures contacts == old(contacts) && documents == old(documents)
      ensures email == old(email) && emailVerified == old(emailVerified) && otpSent == old(otpSent)
    {
      addresses := addresses[index := EditAddress(addresses[index], e)];
    }

    method UpdateContact(index: nat, e: ContactEdit)
      requires index < |contacts|
      modifies this
      ensures contacts == old(contacts)[index := EditContact(old(contacts)[index], e)]
      ensures addresses == old(addresses) && documents == old(documents)
      ensures email == old(email) && emailVerified == old(emailVerified) && otpSent == old(otpSent)
    {
      contacts := contacts[index := EditContact(contacts[index], e)];
    }

    method UpdateDocumentNotes(index: nat, notes: string)
      requires index < |documents|
      modifies this
      ensures documents == old(documents)[index := old(documents)[index].(notes := Some(notes))]
      ensures addresses == old(addresses) && contacts == old(contacts)
      ensures email == old(email) && emailVerified == old(emailVerified) && otpSent == old(otpSent)
    {
      documents := documents[index := documents[index].(notes := Some(notes))];
    }

    /** A successful upload appends one document and keeps the others as they were. */
    method UploadSucceeded(file: CustomerService.SavedFile)
      modifies this
      ensures documents == old(documents) + [UploadedDocument(file)]
      ensures addresses == old(addresses) && contacts == old(contacts)
      ensures email == old(email) && emailVerified == old(emailVerified) && otpSent == old(otpSent)
    {
      documents := documents + [UploadedDocument(file)];
    }
  }
}
