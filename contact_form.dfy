/** The contact form: the edited triple, the per-field error texts, client
    validation against the contact schema, and submission through the
    create action, including the mapping of the server's formatted
    validation errors back onto the fields. */
module ContactForm {
  import opened Js
  import opened ContactSchema
  import opened Contacts
  import opened Queries

  /** The error texts shown under the fields, keyed by field name. A field
      whose error was cleared has no key. */
  type FormErrors = map<string, string>

  /** The triple with field `f` set to `v`. */
  function WithField(d: ContactFormData, f: Field, v: string): ContactFormData
  {
    match f
    case Name => d.(name := v)
    case PhoneNumber => d.(phoneNumber := v)
    case Relationship => d.(relationship := v)
  }

  /** The error map `validateForm` builds: each issue's message under its
      first path element, a later issue overwriting an earlier one. */
  function IssueErrors(issues: seq<Issue>): FormErrors
  {
    if issues == [] then map[]
    else
      var n := |issues| - 1;
      IssueErrors(issues[..n])[FieldKey(issues[n].path) := issues[n].message]
  }

  lemma FieldKeyInjective(f: Field, g: Field)
    ensures FieldKey(f) == FieldKey(g) <==> f == g
    ensures FieldKey(f) != "_errors"
  {
  }

  /** The map has a key exactly for each reported field. */
  lemma {:induction false} IssueErrorsDomain(issues: seq<Issue>, f: Field)
    ensures FieldKey(f) in IssueErrors(issues) <==> exists i :: 0 <= i < |issues| && issues[i].path == f
  {
    if issues != [] {
      var n := |issues| - 1;
      var p := issues[..n];
      IssueErrorsDomain(p, f);
      FieldKeyInjective(issues[n].path, f);
      if FieldKey(f) in IssueErrors(p) {
        var i :| 0 <= i < n && p[i].path == f;
        assert issues[i].path == f;
      }
      if exists i :: 0 <= i < n && issues[i].path == f {
        var i :| 0 <= i < n && issues[i].path == f;
        assert p[i].path == f;
      }
    }
  }

  /** With issues on distinct fields, each reported field's key holds that
      issue's message. */
  lemma {:induction false} IssueErrorsValue(issues: seq<Issue>, k: int)
    requires forall i, j :: 0 <= i < j < |issues| ==> issues[i].path != issues[j].path
    requires 0 <= k < |issues|
    ensures FieldKey(issues[k].path) in IssueErrors(issues)
    ensures IssueErrors(issues)[FieldKey(issues[k].path)] == issues[k].message
  {
    var n := |issues| - 1;
    if k < n {
      var p := issues[..n];
      assert p[k] == issues[k];
      IssueErrorsValue(p, k);
      FieldKeyInjective(issues[n].path, issues[k].path);
    }
  }

  /** Every key of the map is a field's name. */
  lemma {:induction false} IssueErrorsKeys(issues: seq<Issue>)
    ensures forall k :: k in IssueErrors(issues) ==> k in {"name", "phoneNumber", "relationship"}
  {
    if issues != [] {
      IssueErrorsKeys(issues[..|issues| - 1]);
    }
  }

  /** The client errors for a triple: a key exactly for each failing rule,
      holding that rule's message, and no other key. */
  lemma ValidationErrorsMeaning(d: ContactFormData, f: Field)
    ensures FieldKey(f) in IssueErrors(Validate(d)) <==> !RuleHolds(d, f)
    ensures !RuleHolds(d, f) ==> IssueErrors(Validate(d))[FieldKey(f)] == Message(f)
    ensures forall k :: k in IssueErrors(Validate(d)) ==> k in {"name", "phoneNumber", "relationship"}
  {
    var issues := Validate(d);
    var failing := !RuleHolds(d, f);
    assert failing <==> exists i :: 0 <= i < |issues| && issues[i].path == f by {
      if failing {
        assert Issue(f, Message(f)) in issues;
      }
    }
    ErrorsFor(issues, f, failing, Message(f));
    IssueErrorsKeys(issues);
  }

  /** The same for any issues on distinct fields, `failing` saying whether
      `f` is among them and `message` what its issue carries. */
  lemma ErrorsFor(issues: seq<Issue>, f: Field, failing: bool, message: string)
    requires forall i, j :: 0 <= i < j < |issues| ==> issues[i].path != issues[j].path
    requires forall i :: 0 <= i < |issues| && issues[i].path == f ==> issues[i].message == message
    requires failing <==> exists i :: 0 <= i < |issues| && issues[i].path == f
    ensures FieldKey(f) in IssueErrors(issues) <==> failing
    ensures failing ==> IssueErrors(issues)[FieldKey(f)] == message
  {
    IssueErrorsDomain(issues, f);
    if failing {
      var i :| 0 <= i < |issues| && issues[i].path == f;
      IssueErrorsValue(issues, i);
    }
  }

  /** The error map the submit handler builds from the server's formatted
      errors: the root `_errors` entry is skipped, and a field entry whose
      `_errors` array is non-empty contributes its first message. */
  function ServerErrors(entries: FormattedErrors): FormErrors
  {
    if entries == [] then map[]
    else
      var n := |entries| - 1;
      var m := ServerErrors(entries[..n]);
      var key := entries[n].0;
      if key == "_errors" then m
      else
        match entries[n].1
        case Node(errs) => if errs != [] then m[key := errs[0]] else m
        case Messages(_) => m
  }

  /** The server's errors, read back on the client, are the errors client
      validation reports for the same triple. */
  lemma {:induction false} ServerErrorsOfFormat(issues: seq<Issue>)
    ensures ServerErrors(Format(issues)) == IssueErrors(issues)
  {
    if issues == [] {
      assert Format(issues) == [("_errors", Messages([]))];
      assert Format(issues)[..0] == [];
    } else {
      var n := |issues| - 1;
      var f := Format(issues);
      assert f[..|f| - 1] == Format(issues[..n]);
      assert f[|f| - 1] == (FieldKey(issues[n].path), Node([issues[n].message]));
      FieldKeyInjective(issues[n].path, issues[n].path);
      ServerErrorsOfFormat(issues[..n]);
    }
  }

  /** The submitted form: `phoneNumber` travels under the key "phone". */
  function Payload(d: ContactFormData): (form: FormData)
    ensures "name" in form && "phone" in form && "relationship" in form && "phoneNumber" !in form
  {
    map["name" := d.name, "phone" := d.phoneNumber, "relationship" := d.relationship]
  }

  /** The server reads back the triple it was sent, trimmed. */
  lemma PayloadRoundTrip(d: ContactFormData)
    ensures Submitted(Payload(d)) == ContactFormData(Trim(d.name), Trim(d.phoneNumber), Trim(d.relationship))
    ensures Bare(d.name) && Bare(d.phoneNumber) && Bare(d.relationship) ==> Submitted(Payload(d)) == d
  {
    var p := Payload(d);
    assert p["name"] == d.name && p["phone"] == d.phoneNumber && p["relationship"] == d.relationship;
    assert FormField(p, "name") == Trim(d.name);
    assert FormField(p, "phone") == Trim(d.phoneNumber);
    assert FormField(p, "relationship") == Trim(d.relationship);
    if Bare(d.name) && Bare(d.phoneNumber) && Bare(d.relationship) {
      TrimUntrimmed(d.name);
      TrimUntrimmed(d.phoneNumber);
      TrimUntrimmed(d.relationship);
    }
  }

  /** Client validation does not trim, so a form with the name " a " can
      pass on the client and still fail on the server. */
  lemma ClientAcceptsUntrimmedName(d: ContactFormData)
    requires d.name == " a "
    ensures RuleHolds(d, Name)
    ensures !Accepts(Submitted(Payload(d)))
  {
    assert JsLength(d.name) >= 2;
    assert d.name == " " + ['a'] + " ";
    TrimSurrounded(" ", 'a', " ");
    var t := Trim(d.name);
    assert JsLength(t) == 1;
    var p := Payload(d);
    assert p["name"] == d.name;
    assert FormField(p, "name") == t;
  }

  const FixErrorsMessage := "Please fix the form errors"
  const AddedMessage := "Contact added successfully!"
  const UnexpectedMessage := "An unexpected error occurred"
  const AddFailedMessage := "Failed to add contact"
  const LoadFailedMessage := "Failed to load contacts"

  /** The form's state. */
  class ContactFormState {
    var formData: ContactFormData
    var errors: FormErrors
    var contacts: seq<Contact>

    constructor ()
      ensures formData == ContactFormData("", "", "") && errors == map[] && contacts == []
    {
      formData := ContactFormData("", "", "");
      errors := map[];
      contacts := [];
    }

    /** The mount effect: loads the contacts, or reports that it could not. */
    method LoadContacts(table: ContactTable, fault: bool) returns (toast: Option<Toast>)
      modifies this
      ensures formData == old(formData) && errors == old(errors)
      ensures fault ==> toast == Some(ErrorToast(LoadFailedMessage)) && contacts == old(contacts)
      ensures !fault ==> toast == None && SortedDesc(contacts, CreatedAt) && multiset(contacts) == multiset(table.rows)
    {
      var all := table.GetAllContacts(fault);
      if all.Err? {
        return Some(ErrorToast(LoadFailedMessage));
      }
      contacts := all.value;
      toast := None;
    }

    /** `handleChange` for the input of `field`: sets that field only, and
        clears that field's error if one is shown. */
    method HandleChange(field: Field, value: string)
      modifies this
      ensures Value(formData, field) == value
      ensures forall g :: g != field ==> Value(formData, g) == Value(old(formData), g)
      ensures FieldKey(field) in old(errors) && old(errors)[FieldKey(field)] != "" ==>
        errors == old(errors) - {FieldKey(field)}
      ensures !(FieldKey(field) in old(errors) && old(errors)[FieldKey(field)] != "") ==> errors == old(errors)
      ensures contacts == old(contacts)
    {
      formData := WithField(formData, field, value);
      var key := FieldKey(field);
      if key in errors && errors[key] != "" {
        errors := errors - {key};
      }
    }

    /** `handleRelationshipChange`. */
    method HandleRelationshipChange(value: string)
      modifies this
      ensures formData == old(formData).(relationship := value)
      ensures "relationship" in old(errors) && old(errors)["relationship"] != "" ==>
        errors == old(errors) - {"relationship"}
      ensures !("relationship" in old(errors) && old(errors)["relationship"] != "") ==> errors == old(errors)
      ensures forall k :: k != "relationship" ==> (k in errors <==> k in old(errors))
      ensures contacts == old(contacts)
    {
      HandleChange(Relationship, value);
      assert Value(formData, Name) == Value(old(formData), Name);
      assert Value(formData, PhoneNumber) == Value(old(formData), PhoneNumber);
    }

    /** `validateForm`: checks the triple as it stands (untrimmed). */
    method ValidateForm() returns (valid: bool)
      modifies this
      ensures valid <==> Accepts(formData)
      ensures valid ==> errors == map[]
      ensures !valid ==> errors == IssueErrors(Validate(formData))
      ensures formData == old(formData) && contacts == old(contacts)
    {
      var issues := Validate(formData);
      valid := issues == [];
      var formatted: FormErrors := map[];
      if !valid {
        formatted := FormatIssues(issues);
      }
      errors := formatted;
    }

    /** `submitContact`. `newId` and `now` are what the store assigns,
        `fault` what its insert throws, `callFails` says whether calling the
        action throws, and `refreshFault` whether reloading the list does.
        Returns the notifications raised, in order. */
    method SubmitContact(table: ContactTable, newId: string, now: int, fault: Option<Thrown>,
                         callFails: bool, refreshFault: bool)
      returns (toasts: seq<Toast>)
      requires table.Valid() && newId !in table.Ids()
      modifies this, table
      ensures table.Valid()
      ensures !Accepts(old(formData)) ==>
        toasts == [ErrorToast(FixErrorsMessage)] && errors == IssueErrors(Validate(old(formData)))
        && table.rows == old(table.rows) && formData == old(formData) && contacts == old(contacts)
      ensures Accepts(old(formData)) ==>
        SendOutcome(old(formData), NewRow(old(formData), newId, now), old(table.rows), old(contacts), CreateResult(Payload(old(formData)), fault),
                    callFails, refreshFault, toasts, formData, errors, table.rows, contacts)
    {
      var valid := ValidateForm();
      if !valid {
        return [ErrorToast(FixErrorsMessage)];
      }
      toasts := Send(table, newId, now, fault, callFails, refreshFault);
    }

    /** The part of `submitContact` after the form passed validation (which
        left no errors shown). */
    method Send(table: ContactTable, newId: string, now: int, fault: Option<Thrown>,
                callFails: bool, refreshFault: bool)
      returns (toasts: seq<Toast>)
      requires table.Valid() && newId !in table.Ids() && errors == map[]
      modifies this, table
      ensures table.Valid()
      ensures SendOutcome(old(formData), NewRow(old(formData), newId, now), old(table.rows), old(contacts),
                          CreateResult(Payload(old(formData)), fault),
                          callFails, refreshFault, toasts, formData, errors, table.rows, contacts)
    {
      if callFails {
        return [ErrorToast(UnexpectedMessage)];
      }
      ghost var rows := table.rows;
      var result := table.CreateContact(Payload(formData), newId, now, fault);
      toasts := HandleResult(table, result, rows, NewRow(formData, newId, now), refreshFault);
    }

    /** The branches on the create action's answer `result`; `rows` is the
        table before the insert, which on success stored the row `added`. */
    method HandleResult(table: ContactTable, result: ActionResult, ghost rows: seq<Contact>,
                        ghost added: Contact, refreshFault: bool)
      returns (toasts: seq<Toast>)
      requires errors == map[]
      requires result.Succeeded? ==> table.rows == rows + [added]
      requires !result.Succeeded? ==> table.rows == rows
      modifies this
      ensures SendOutcome(old(formData), added, rows, old(contacts), result, false, refreshFault,
                          toasts, formData, errors, table.rows, contacts)
    {
      if result.Succeeded? {
        toasts := [SuccessToast(AddedMessage)];
        formData := ContactFormData("", "", "");
        var all := table.GetAllContacts(refreshFault);
        if all.Err? {
          toasts := toasts + [ErrorToast(UnexpectedMessage)];
        } else {
          contacts := all.value;
        }
      } else if result.validationErrors.Some? {
        errors := BuildServerErrors(result.validationErrors.value);
        toasts := [ErrorToast(FixErrorsMessage)];
      } else {
        toasts := [ErrorToast(if result.error != "" then result.error else AddFailedMessage)];
      }
    }
  }

  /** The row the store keeps for the submitted triple `d`: the triple as
      the server reads it back from the payload, with the id `newId` and
      both timestamps `now`. */
  function NewRow(d: ContactFormData, newId: string, now: int): Contact
  {
    var s := Submitted(Payload(d));
    Contact(newId, s.name, s.phoneNumber, s.relationship, now, now)
  }

  /** The stored row holds the form's fields trimmed, under the store's id
      and time. */
  lemma NewRowContents(d: ContactFormData, newId: string, now: int)
    ensures NewRow(d, newId, now)
         == Contact(newId, Trim(d.name), Trim(d.phoneNumber), Trim(d.relationship), now, now)
  {
    PayloadRoundTrip(d);
  }

  /** What sending a valid triple `d` leads to, from the table `rows` and the
      list `shown`, when the create action answers `result` (unless calling
      it fails): the notifications, and the new triple, errors, table and
      list. On success the table gains the row `added`. */
  ghost predicate SendOutcome(d: ContactFormData, added: Contact, rows: seq<Contact>, shown: seq<Contact>,
                              result: ActionResult,
                              callFails: bool, refreshFault: bool, toasts: seq<Toast>, d': ContactFormData,
                              errors': FormErrors, rows': seq<Contact>, shown': seq<Contact>)
  {
    if callFails then
      toasts == [ErrorToast(UnexpectedMessage)] && errors' == map[] && rows' == rows && d' == d && shown' == shown
    else if result.Succeeded? then
      && d' == ContactFormData("", "", "") && errors' == map[]
      && rows' == rows + [added]
      && (refreshFault ==> toasts == [SuccessToast(AddedMessage), ErrorToast(UnexpectedMessage)] && shown' == shown)
      && (!refreshFault ==> toasts == [SuccessToast(AddedMessage)]
                            && SortedDesc(shown', CreatedAt) && multiset(shown') == multiset(rows'))
    else if result.validationErrors.Some? then
      toasts == [ErrorToast(FixErrorsMessage)] && errors' == ServerErrors(result.validationErrors.value)
      && d' == d && rows' == rows && shown' == shown
    else
      toasts == [ErrorToast(if result.error != "" then result.error else AddFailedMessage)]
      && errors' == map[] && d' == d && rows' == rows && shown' == shown
  }

  /** The `forEach` over the issues that builds `formattedErrors`. */
  method FormatIssues(issues: seq<Issue>) returns (formatted: FormErrors)
    ensures formatted == IssueErrors(issues)
  {
    formatted := map[];
    var k := 0;
    while k < |issues|
      invariant 0 <= k <= |issues|
      invariant formatted == IssueErrors(issues[..k])
    {
      assert issues[..k + 1][..k] == issues[..k] && issues[..k + 1][k] == issues[k];
      formatted := formatted[FieldKey(issues[k].path) := issues[k].message];
      k := k + 1;
    }
    assert issues[..k] == issues;
  }

  /** The `forEach` over the entries of the server's formatted errors. */
  method BuildServerErrors(entries: FormattedErrors) returns (serverErrors: FormErrors)
    ensures serverErrors == ServerErrors(entries)
  {
    serverErrors := map[];
    var k := 0;
    while k < |entries|
      invariant 0 <= k <= |entries|
      invariant serverErrors == ServerErrors(entries[..k])
    {
      assert entries[..k + 1][..k] == entries[..k];
      var (key, value) := entries[k];
      if key != "_errors" {
        match value {
          case Node(errs) =>
            if errs != [] {
              serverErrors := serverErrors[key := errs[0]];
            }
          case Messages(_) =>
        }
      }
      k := k + 1;
    }
    assert entries[..k] == entries;
  }

  /** A server-side validation failure shows, under each field, the message
      of the rule that field fails on the triple the server read. */
  lemma ServerRejectionShowsRuleMessages(form: FormData, fault: Option<Thrown>, f: Field)
    requires CreateResult(form, fault).Failed? && CreateResult(form, fault).validationErrors.Some?
    ensures var shown := ServerErrors(CreateResult(form, fault).validationErrors.value);
      var sent := Submitted(form);
      && (FieldKey(f) in shown <==> !RuleHolds(sent, f))
      && (!RuleHolds(sent, f) ==> shown[FieldKey(f)] == Message(f))
  {
    var sent := Submitted(form);
    CreateResultCases(form, fault);
    ServerErrorsOfFormat(Validate(sent));
    ValidationErrorsMeaning(sent, f);
  }
}
