/** The contact schema: three independent minimum-length rules, one per
    field, each with its own message. Lengths are JavaScript string lengths. */
module ContactSchema {
  import opened Js

  datatype ContactFormData = ContactFormData(name: string, phoneNumber: string, relationship: string)

  datatype Field = Name | PhoneNumber | Relationship

  /** One validation failure: the field it is about (the first path element)
      and its message. */
  datatype Issue = Issue(path: Field, message: string)

  const NameMessage := "Name must be at least 2 characters"
  const PhoneMessage := "Phone number must be at least 10 digits"
  const RelationshipMessage := "Please select a relationship"

  /** The property name under which a field travels in objects. */
  function FieldKey(f: Field): string
  {
    match f
    case Name => "name"
    case PhoneNumber => "phoneNumber"
    case Relationship => "relationship"
  }

  function MinLength(f: Field): nat
  {
    match f
    case Name => 2
    case PhoneNumber => 10
    case Relationship => 1
  }

  function Message(f: Field): string
  {
    match f
    case Name => NameMessage
    case PhoneNumber => PhoneMessage
    case Relationship => RelationshipMessage
  }

  function Value(d: ContactFormData, f: Field): string
  {
    match f
    case Name => d.name
    case PhoneNumber => d.phoneNumber
    case Relationship => d.relationship
  }

  /** The rule for field `f` holds of `d`. */
  predicate RuleHolds(d: ContactFormData, f: Field)
  {
    JsLength(Value(d, f)) >= MinLength(f)
  }

  /** The schema accepts `d`. */
  predicate Accepts(d: ContactFormData)
  {
    RuleHolds(d, Name) && RuleHolds(d, PhoneNumber) && RuleHolds(d, Relationship)
  }

  /** An accepted triple has no empty field. */
  lemma AcceptedFieldsNonEmpty(d: ContactFormData)
    requires Accepts(d)
    ensures d.name != "" && d.phoneNumber != "" && d.relationship != ""
  {
    assert RuleHolds(d, Name) && RuleHolds(d, PhoneNumber) && RuleHolds(d, Relationship);
  }

  /** Which rules hold, one flag per field. */
  function Holds(f: Field, nameOk: bool, phoneOk: bool, relationshipOk: bool): bool
  {
    match f
    case Name => nameOk
    case PhoneNumber => phoneOk
    case Relationship => relationshipOk
  }

  function FieldIssues(f: Field, ok: bool): (issues: seq<Issue>)
    ensures issues == [] <==> ok
    ensures |issues| <= 1 && forall i :: 0 <= i < |issues| ==> issues[i] == Issue(f, Message(f)) && !ok
  {
    if ok then [] else [Issue(f, Message(f))]
  }

  /** The issues for the given rule outcomes: one per failing rule, in the
      schema's field order. */
  function Collect(nameOk: bool, phoneOk: bool, relationshipOk: bool): (issues: seq<Issue>)
    ensures issues == [] <==> nameOk && phoneOk && relationshipOk
    ensures forall i :: 0 <= i < |issues| ==>
      issues[i].message == Message(issues[i].path) && !Holds(issues[i].path, nameOk, phoneOk, relationshipOk)
    ensures forall f: Field :: !Holds(f, nameOk, phoneOk, relationshipOk) ==> Issue(f, Message(f)) in issues
    ensures forall i, j :: 0 <= i < j < |issues| ==> issues[i].path != issues[j].path
  {
    var a, b, c := FieldIssues(Name, nameOk), FieldIssues(PhoneNumber, phoneOk), FieldIssues(Relationship, relationshipOk);
    PathsDistinct(a, b, c);
    a + b + c
  }

  /** At most one issue per field, in field order, never repeats a field. */
  lemma PathsDistinct(a: seq<Issue>, b: seq<Issue>, c: seq<Issue>)
    requires |a| <= 1 && |b| <= 1 && |c| <= 1
    requires forall x :: x in a ==> x.path == Name
    requires forall x :: x in b ==> x.path == PhoneNumber
    requires forall x :: x in c ==> x.path == Relationship
    ensures forall i, j :: 0 <= i < j < |a + b + c| ==> (a + b + c)[i].path != (a + b + c)[j].path
  {
    var s := a + b + c;
    forall i, j | 0 <= i < j < |s|
      ensures s[i].path != s[j].path
    {
      assert i < |a| + |b| && |a| <= j;
      assert s[i] == (a + b)[i];
      assert s[i].path == (if i < |a| then Name else PhoneNumber);
      assert s[j].path == (if j < |a| + |b| then PhoneNumber else Relationship);
    }
  }

  /** The issues `safeParse` reports, in the schema's field order. */
  function Validate(d: ContactFormData): (issues: seq<Issue>)
    ensures issues == [] <==> Accepts(d)
    ensures forall i :: 0 <= i < |issues| ==>
      issues[i].message == Message(issues[i].path) && !RuleHolds(d, issues[i].path)
    ensures forall f: Field :: !RuleHolds(d, f) ==> Issue(f, Message(f)) in issues
    ensures forall i, j :: 0 <= i < j < |issues| ==> issues[i].path != issues[j].path
  {
    var nameOk, phoneOk, relationshipOk := RuleHolds(d, Name), RuleHolds(d, PhoneNumber), RuleHolds(d, Relationship);
    HoldsAreRules(d, nameOk, phoneOk, relationshipOk);
    Collect(nameOk, phoneOk, relationshipOk)
  }

  lemma HoldsAreRules(d: ContactFormData, nameOk: bool, phoneOk: bool, relationshipOk: bool)
    requires nameOk == RuleHolds(d, Name) && phoneOk == RuleHolds(d, PhoneNumber)
    requires relationshipOk == RuleHolds(d, Relationship)
    ensures forall f: Field :: Holds(f, nameOk, phoneOk, relationshipOk) == RuleHolds(d, f)
    ensures Accepts(d) <==> nameOk && phoneOk && relationshipOk
  {
    forall f: Field
      ensures Holds(f, nameOk, phoneOk, relationshipOk) == RuleHolds(d, f)
    {
      match f
      case Name =>
      case PhoneNumber =>
      case Relationship =>
    }
  }

  datatype ParseOutcome = Valid(data: ContactFormData) | Invalid(issues: seq<Issue>)

  /** `contactSchema.safeParse(d)`. */
  function SafeParse(d: ContactFormData): (r: ParseOutcome)
    ensures r.Valid? <==> Accepts(d)
    ensures r.Valid? ==> r.data == d
    ensures r.Invalid? ==> r.issues != []
  {
    var issues := Validate(d);
    if issues == [] then Valid(d) else Invalid(issues)
  }

  /** The name rule: a name shorter than two characters is reported with
      its message, a longer one is not reported at all. */
  lemma NameRule(d: ContactFormData)
    ensures JsLength(d.name) < 2 <==> Issue(Name, NameMessage) in Validate(d)
    ensures JsLength(d.name) >= 2 ==> forall i :: i in Validate(d) ==> i.path != Name
  {
    if JsLength(d.name) >= 2 {
      assert !(Issue(Name, NameMessage) in Validate(d));
    }
  }

  /** The phone rule's boundary: nine characters fail with the phone
      message, ten pass. */
  lemma PhoneBoundary(d: ContactFormData)
    ensures JsLength(d.phoneNumber) == 9 ==> Issue(PhoneNumber, PhoneMessage) in Validate(d)
    ensures JsLength(d.phoneNumber) == 10 ==> forall i :: i in Validate(d) ==> i.path != PhoneNumber
  {
  }

  /** The relationship rule: only the empty relationship is refused. */
  lemma RelationshipRule(d: ContactFormData)
    ensures d.relationship == "" <==> Issue(Relationship, RelationshipMessage) in Validate(d)
  {
    if d.relationship != "" {
      assert JsLength(d.relationship) >= 1;
    }
  }

  /** The rules are independent: changing one field changes only the issue
      about that field. */
  lemma RulesIndependent(d: ContactFormData, e: ContactFormData, f: Field)
    requires Value(d, f) == Value(e, f)
    ensures (exists i :: i in Validate(d) && i.path == f) <==> (exists i :: i in Validate(e) && i.path == f)
  {
    if !RuleHolds(d, f) {
      assert Issue(f, Message(f)) in Validate(d) && Issue(f, Message(f)) in Validate(e);
    }
  }
}
