/** The contact server actions: reading a submitted form, validating it,
    and creating, deleting and listing rows of the contact table. The table
    is the database's; this model keeps it as a sequence of rows. */
module Contacts {
  import opened Js
  import opened ContactSchema
  import opened Queries

  /** A contact row; timestamps are opaque, ordered instants. */
  datatype Contact = Contact(id: string, name: string, phoneNumber: string, relationship: string,
                             createdAt: int, updatedAt: int)

  function CreatedAt(c: Contact): int { c.createdAt }

  /** The test `contact => contact.id !== id`. */
  function OtherThan(id: string): Contact -> bool
  {
    (c: Contact) => c.id != id
  }

  /** A submitted form: each key with its (first) string value. */
  type FormData = map<string, string>

  /** `formData.get(key)?.toString()?.trim() || ""`. */
  function FormField(form: FormData, key: string): string
  {
    if key in form then Trim(form[key]) else ""
  }

  /** The triple the server validates: the trimmed fields, the phone number
      read from the key "phone". */
  function Submitted(form: FormData): ContactFormData
  {
    ContactFormData(FormField(form, "name"), FormField(form, "phone"), FormField(form, "relationship"))
  }

  /** A node of the tree `error.format()` builds: the root's own `_errors`
      array, or a field's object holding its `_errors`. */
  datatype FormatValue = Messages(msgs: seq<string>) | Node(errors: seq<string>)

  /** The entries of the formatted error object, in property order. */
  type FormattedErrors = seq<(string, FormatValue)>

  function FieldEntries(issues: seq<Issue>): FormattedErrors
  {
    seq(|issues|, i requires 0 <= i < |issues| => (FieldKey(issues[i].path), Node([issues[i].message])))
  }

  /** `error.format()` for issues on distinct fields: the root `_errors`
      (empty, since every issue has a path), then one node per issue. */
  function Format(issues: seq<Issue>): FormattedErrors
  {
    [("_errors", Messages([]))] + FieldEntries(issues)
  }

  const ValidationFailedMessage := "Validation failed"

  datatype ParseResult = Parsed(data: ContactFormData) | ValidationFailed(message: string, errors: FormattedErrors)

  /** `parseContactForm`: trims and defaults the three fields and validates
      them; a failure carries "Validation failed" and the formatted issues. */
  function ParseContactForm(form: FormData): (r: ParseResult)
    ensures r.Parsed? <==> Accepts(Submitted(form))
    ensures r.Parsed? ==> r.data == Submitted(form)
    ensures r.ValidationFailed? ==>
      r.message == ValidationFailedMessage && r.errors == Format(Validate(Submitted(form)))
  {
    match SafeParse(Submitted(form))
    case Valid(data) => Parsed(data)
    case Invalid(issues) => ValidationFailed(ValidationFailedMessage, Format(issues))
  }

  /** Every field is trimmed before validation: a name of "  a " is only one
      character long and fails the name rule. */
  lemma NameIsTrimmed(form: FormData)
    requires "name" in form && form["name"] == "  a "
    ensures ParseContactForm(form).ValidationFailed?
    ensures Issue(Name, NameMessage) in Validate(Submitted(form))
  {
    assert form["name"] == "  " + ['a'] + " ";
    TrimSurrounded("  ", 'a', " ");
    var d := Submitted(form);
    assert d.name == ['a'] && JsLength(d.name) == 1;
    NameRule(d);
  }

  /** The phone number is read from the key "phone": a form that supplies
      it only under "phoneNumber" fails the phone rule. */
  lemma PhoneReadFromPhoneKey(form: FormData)
    requires "phone" !in form
    ensures ParseContactForm(form).ValidationFailed?
    ensures Issue(PhoneNumber, PhoneMessage) in Validate(Submitted(form))
  {
    assert Submitted(form).phoneNumber == "";
  }

  /** A successful parse is exactly the trimmed triple; a missing key reads
      as the empty string. */
  lemma ParsedIsTrimmedTriple(form: FormData)
    requires ParseContactForm(form).Parsed?
    ensures var d := ParseContactForm(form).data;
      && d.name == (if "name" in form then Trim(form["name"]) else "")
      && d.phoneNumber == (if "phone" in form then Trim(form["phone"]) else "")
      && d.relationship == (if "relationship" in form then Trim(form["relationship"]) else "")
      && "name" in form && "phone" in form && "relationship" in form
  {
    var d := Submitted(form);
    assert ParseContactForm(form).data == d;
    AcceptedFieldsNonEmpty(d);
    PresentWhenNonEmpty(form, "name");
    PresentWhenNonEmpty(form, "phone");
    PresentWhenNonEmpty(form, "relationship");
  }

  /** A field that reads as non-empty was supplied, and reads as its
      trimmed value. */
  lemma PresentWhenNonEmpty(form: FormData, key: string)
    requires FormField(form, key) != ""
    ensures key in form && FormField(form, key) == Trim(form[key])
  {
  }

  /** The result of a server action. */
  datatype ActionResult = Succeeded | Failed(error: string, validationErrors: Option<FormattedErrors>)

  /** What `createContact` returns for a caught value that is not the
      validation error: an Error's message, or the generic text. */
  function CreateFailure(e: Thrown): ActionResult
  {
    match e
    case ErrorObject(message, _) => Failed(message, None)
    case NonError => Failed("An unexpected error occurred", None)
  }

  /** What `deleteContact` returns for a caught value. */
  function DeleteFailure(e: Thrown): ActionResult
  {
    match e
    case ErrorObject(message, _) => Failed(message, None)
    case NonError => Failed("An unexpected error occurred while deleting the contact", None)
  }

  /** The result of `createContact(form)` when the database's insert throws
      `fault` (or nothing). */
  function CreateResult(form: FormData, fault: Option<Thrown>): ActionResult
  {
    match ParseContactForm(form)
    case ValidationFailed(message, errors) => Failed(message, Some(errors))
    case Parsed(_) => if fault.Some? then CreateFailure(fault.value) else Succeeded
  }

  /** A triple the schema refuses is reported as "Validation failed" with
      its formatted issues. */
  lemma CreateRejected(form: FormData, fault: Option<Thrown>)
    requires !Accepts(Submitted(form))
    ensures CreateResult(form, fault) == Failed(ValidationFailedMessage, Some(Format(Validate(Submitted(form)))))
  {
    assert ParseContactForm(form).ValidationFailed?;
  }

  /** With an accepted triple, the action succeeds exactly when the insert
      does not throw, and a failure then carries no validation errors. */
  lemma CreateAccepted(form: FormData, fault: Option<Thrown>)
    requires Accepts(Submitted(form))
    ensures fault.None? ==> CreateResult(form, fault) == Succeeded
    ensures fault.Some? ==> CreateResult(form, fault) == CreateFailure(fault.value)
    ensures fault.Some? && fault.value.ErrorObject? ==>
      CreateResult(form, fault) == Failed(fault.value.message, None)
    ensures fault == Some(NonError) ==> CreateResult(form, fault) == Failed("An unexpected error occurred", None)
  {
    assert ParseContactForm(form).Parsed?;
  }

  /** createContact's three outcomes: validation failure with the formatted
      errors, a store failure with its message, or success. */
  lemma CreateResultCases(form: FormData, fault: Option<Thrown>)
    ensures !Accepts(Submitted(form)) ==>
      CreateResult(form, fault) == Failed(ValidationFailedMessage, Some(Format(Validate(Submitted(form)))))
    ensures Accepts(Submitted(form)) && fault.None? ==> CreateResult(form, fault) == Succeeded
    ensures Accepts(Submitted(form)) && fault.Some? ==>
      CreateResult(form, fault).Failed? && CreateResult(form, fault).validationErrors.None?
    ensures CreateResult(form, fault).Succeeded? <==> Accepts(Submitted(form)) && fault.None?
  {
    if Accepts(Submitted(form)) {
      CreateAccepted(form, fault);
    } else {
      CreateRejected(form, fault);
    }
  }

  const ContactIdRequired := "Contact ID is required"

  const FetchContactsFailed := "Failed to fetch contacts"

  /** Removing the rows with a given id from a table whose ids are unique
      and which holds that id removes exactly one row. */
  lemma {:induction false} RemoveUniqueId(rows: seq<Contact>, id: string)
    requires forall i, j :: 0 <= i < j < |rows| ==> rows[i].id != rows[j].id
    requires exists c :: c in rows && c.id == id
    ensures |Filter(rows, OtherThan(id))| == |rows| - 1
  {
    var p := OtherThan(id);
    assert Filter(rows, p) == (if p(rows[0]) then [rows[0]] else []) + Filter(rows[1..], p);
    if rows[0].id == id {
      FilterAll(rows[1..], p);
    } else {
      var c :| c in rows && c.id == id;
      assert c in rows[1..];
      RemoveUniqueId(rows[1..], id);
    }
  }

  /** The contact table. */
  class ContactTable {
    var rows: seq<Contact>

    /** Ids are unique. */
    ghost predicate Valid()
      reads this
    {
      forall i, j :: 0 <= i < j < |rows| ==> rows[i].id != rows[j].id
    }

    function Ids(): set<string>
      reads this
    {
      set c | c in rows :: c.id
    }

    constructor (initial: seq<Contact>)
      requires forall i, j :: 0 <= i < j < |initial| ==> initial[i].id != initial[j].id
      ensures Valid() && rows == initial
    {
      rows := initial;
    }

    /** `createContact(form)`. The database assigns `newId` (a fresh id) and
        stamps `now`; `fault` is what its insert throws, if anything. */
    method CreateContact(form: FormData, newId: string, now: int, fault: Option<Thrown>)
      returns (r: ActionResult)
      requires Valid() && newId !in Ids()
      modifies this
      ensures Valid()
      ensures r == CreateResult(form, fault)
      ensures r.Succeeded? ==>
        var d := Submitted(form);
        rows == old(rows) + [Contact(newId, d.name, d.phoneNumber, d.relationship, now, now)]
      ensures !r.Succeeded? ==> rows == old(rows)
    {
      r := CreateResult(form, fault);
      if r.Succeeded? {
        // the parse succeeded and the insert did not throw: the row is stored
        var d := Submitted(form);
        Insert(Contact(newId, d.name, d.phoneNumber, d.relationship, now, now));
      }
    }

    /** The database's insert of a row whose id is fresh. */
    method Insert(c: Contact)
      requires Valid() && c.id !in Ids()
      modifies this
      ensures Valid() && rows == old(rows) + [c]
    {
      assert forall i :: 0 <= i < |rows| ==> rows[i].id in Ids();
      AppendFreshId(rows, c);
      rows := rows + [c];
    }

    /** `deleteContact(contactId)`; `fault` is what the database's delete
        throws for reasons other than a missing row, and `missing` what it
        throws when no row has the id. */
    method DeleteContact(contactId: string, fault: Option<Thrown>, missing: Thrown) returns (r: ActionResult)
      requires Valid()
      modifies this
      ensures Valid()
      ensures contactId == "" ==> r == Failed(ContactIdRequired, None) && rows == old(rows)
      ensures contactId != "" && fault.Some? ==> r == DeleteFailure(fault.value) && rows == old(rows)
      ensures contactId != "" && fault.None? && contactId !in old(Ids()) ==>
        r == DeleteFailure(missing) && rows == old(rows)
      ensures contactId != "" && fault.None? && contactId in old(Ids()) ==>
        r == Succeeded
        && rows == Filter(old(rows), OtherThan(contactId))
        && |rows| == |old(rows)| - 1
        && (forall c :: c in rows <==> c in old(rows) && c.id != contactId)
    {
      if contactId == "" {
        return Failed(ContactIdRequired, None);
      }
      if fault.Some? {
        return DeleteFailure(fault.value);
      }
      if contactId !in Ids() {
        return DeleteFailure(missing);
      }
      var c :| c in rows && c.id == contactId;
      RemoveUniqueId(rows, contactId);
      var kept := Filter(rows, OtherThan(contactId));
      FilterSublist(rows, OtherThan(contactId));
      SublistUnique(kept, rows);
      rows := kept;
      r := Succeeded;
    }

    /** `getAllContacts()`: every row, newest first; `fault` says whether the
        query throws. */
    method GetAllContacts(fault: bool) returns (r: Result<seq<Contact>, string>)
      ensures fault ==> r == Err(FetchContactsFailed)
      ensures !fault ==> r.Ok? && SortedDesc(r.value, CreatedAt) && multiset(r.value) == multiset(rows)
    {
      if fault {
        return Err(FetchContactsFailed);
      }
      r := Ok(SortDesc(rows, CreatedAt));
    }
  }

  lemma AppendFreshId(rows: seq<Contact>, c: Contact)
    requires forall i, j :: 0 <= i < j < |rows| ==> rows[i].id != rows[j].id
    requires forall i :: 0 <= i < |rows| ==> rows[i].id != c.id
    ensures var t := rows + [c]; forall i, j :: 0 <= i < j < |t| ==> t[i].id != t[j].id
  {
  }

  /** A sublist of a table with unique ids has unique ids. */
  lemma {:induction false} SublistUnique(r: seq<Contact>, s: seq<Contact>)
    requires Sublist(r, s)
    requires forall i, j :: 0 <= i < j < |s| ==> s[i].id != s[j].id
    ensures forall i, j :: 0 <= i < j < |r| ==> r[i].id != r[j].id
    ensures forall c :: c in r ==> c in s
    decreases |s|
  {
    if r != [] && s != [] {
      if r[0] == s[0] && Sublist(r[1..], s[1..]) {
        SublistUnique(r[1..], s[1..]);
        assert forall c :: c in r ==> c == r[0] || c in r[1..];
        forall j | 0 < j < |r| ensures r[0].id != r[j].id {
          assert r[j] in r[1..];
          var k :| 0 <= k < |s[1..]| && s[1..][k] == r[j];
          assert s[k + 1] == r[j];
        }
      } else {
        SublistUnique(r, s[1..]);
      }
    }
  }
}
