/** The contact list view: a search box and a relationship filter over the
    contacts it was given, the relationship choices offered, and deleting a
    contact through the server action. */
module DisplayContacts {
  import opened Js
  import opened Queries
  import opened Contacts

  /** The search test: the lower-cased name contains the lower-cased term,
      or the phone number contains the term as typed. */
  predicate SearchMatches(c: Contact, term: string)
  {
    Contains(ToLower(c.name), ToLower(term)) || Contains(c.phoneNumber, term)
  }

  function SearchFn(term: string): Contact -> bool
  {
    (c: Contact) => SearchMatches(c, term)
  }

  /** The list `handleSearch` shows for a term: all contacts for an empty
      term, otherwise the matching ones. */
  function SearchResults(initial: seq<Contact>, term: string): (r: seq<Contact>)
    ensures term == "" ==> r == initial
    ensures term != "" ==> forall c :: c in r <==> c in initial && SearchMatches(c, term)
    ensures forall c :: multiset(r)[c] == if term == "" || SearchMatches(c, term) then multiset(initial)[c] else 0
    ensures Sublist(r, initial)
  {
    SublistRefl(initial);
    FilterSublist(initial, SearchFn(term));
    forall c ensures multiset(Filter(initial, SearchFn(term)))[c] == if SearchMatches(c, term) then multiset(initial)[c] else 0 {
      FilterMultiset(initial, SearchFn(term), c);
    }
    if term == "" then initial else Filter(initial, SearchFn(term))
  }

  /** Every string contains the empty string. */
  lemma ContainsEmpty(s: string)
    ensures Contains(s, "")
  {
    assert StartsWith(s, "");
  }

  /** The empty-term branch agrees with filtering: every contact matches the
      empty term. */
  lemma {:induction false} EmptySearchMatchesAll(initial: seq<Contact>)
    ensures SearchResults(initial, "") == Filter(initial, SearchFn(""))
  {
    forall i | 0 <= i < |initial| ensures SearchFn("")(initial[i]) {
      ContainsEmpty(initial[i].phoneNumber);
    }
    FilterAll(initial, SearchFn(""));
  }

  /** A name match holds for the term and for its lower-cased form alike. */
  lemma SearchCases(c: Contact, term: string)
    requires Contains(ToLower(c.name), ToLower(term))
    ensures SearchMatches(c, term) && SearchMatches(c, ToLower(term))
  {
    ToLowerIdempotent(term);
  }

  /** Name matching ignores the case of the term: two terms that lower to
      the same text match the same names. */
  lemma NameMatchIgnoresCase(c: Contact, t1: string, t2: string)
    requires ToLower(t1) == ToLower(t2)
    ensures Contains(ToLower(c.name), ToLower(t1)) <==> Contains(ToLower(c.name), ToLower(t2))
  {
  }

  function RelationshipIs(value: string): Contact -> bool
  {
    (c: Contact) => c.relationship == value
  }

  /** The list `handleFilter` shows for a relationship: all contacts for the
      empty choice, otherwise those with exactly that relationship. */
  function FilterResults(initial: seq<Contact>, value: string): (r: seq<Contact>)
    ensures value == "" ==> r == initial
    ensures value != "" ==> forall c :: c in r <==> c in initial && c.relationship == value
    ensures forall c :: multiset(r)[c] == if value == "" || c.relationship == value then multiset(initial)[c] else 0
    ensures Sublist(r, initial)
  {
    SublistRefl(initial);
    FilterSublist(initial, RelationshipIs(value));
    forall c ensures multiset(Filter(initial, RelationshipIs(value)))[c] == if c.relationship == value then multiset(initial)[c] else 0 {
      FilterMultiset(initial, RelationshipIs(value), c);
    }
    if value == "" then initial else Filter(initial, RelationshipIs(value))
  }

  /** The list after a successful delete: every contact but those with the id,
      in their order. */
  function AfterDelete(contacts: seq<Contact>, id: string): (r: seq<Contact>)
    ensures Sublist(r, contacts)
    ensures forall c :: c in r <==> c in contacts && c.id != id
    ensures forall c :: multiset(r)[c] == if c.id != id then multiset(contacts)[c] else 0
  {
    FilterSublist(contacts, OtherThan(id));
    forall c ensures multiset(Filter(contacts, OtherThan(id)))[c] == if c.id != id then multiset(contacts)[c] else 0 {
      FilterMultiset(contacts, OtherThan(id), c);
    }
    Filter(contacts, OtherThan(id))
  }

  /** `initialContacts.map(contact => contact.relationship)`. */
  function Relationships(contacts: seq<Contact>): (r: seq<string>)
    ensures |r| == |contacts|
    ensures forall i :: 0 <= i < |r| ==> r[i] == contacts[i].relationship
  {
    seq(|contacts|, i requires 0 <= i < |contacts| => contacts[i].relationship)
  }

  function NonEmpty(): string -> bool
  {
    s => s != ""
  }

  /** `relationshipOptions`: the distinct non-empty relationships, in the
      order they first occur. */
  function RelationshipOptions(initial: seq<Contact>): (r: seq<string>)
    ensures forall x :: x in r <==> x != "" && x in Relationships(initial)
    ensures NoDuplicates(r)
    ensures forall i, j :: 0 <= i < j < |r| ==>
      Position(Relationships(initial), r[i]) < Position(Relationships(initial), r[j])
  {
    var rels := Relationships(initial);
    var d := Distinct(rels);
    var r := Filter(d, NonEmpty());
    FilterSublist(d, NonEmpty());
    assert forall i :: 0 <= i < |d| ==> d[i] in rels && PositionIn(rels)(d[i]) == FirstIndex(rels, d[i]);
    SublistKeepsIncreasing(r, d, PositionIn(rels));
    r
  }

  /** An offered relationship is one some contact has. */
  lemma OptionsComeFromContacts(initial: seq<Contact>, x: string)
    requires x in RelationshipOptions(initial)
    ensures exists i :: 0 <= i < |initial| && initial[i].relationship == x
  {
    var rels := Relationships(initial);
    var i :| 0 <= i < |rels| && rels[i] == x;
    assert initial[i].relationship == x;
  }

  const DeletedMessage := "Contact deleted successfully!"
  const DeleteFailedMessage := "Failed to delete contact"

  /** The view's state: the contacts it was given, the contacts shown, and
      the two inputs. */
  class ContactList {
    var initialContacts: seq<Contact>
    var contacts: seq<Contact>
    var searchTerm: string
    var filter: string

    constructor (initial: seq<Contact>)
      ensures initialContacts == initial && contacts == initial
      ensures searchTerm == "" && filter == ""
    {
      initialContacts := initial;
      contacts := initial;
      searchTerm := "";
      filter := "";
    }

    /** The effect run when new contacts are passed in: they are shown as
        they are. */
    method InitialContactsChanged(initial: seq<Contact>)
      modifies this
      ensures initialContacts == initial && contacts == initial
      ensures searchTerm == old(searchTerm) && filter == old(filter)
    {
      initialContacts := initial;
      contacts := initial;
    }

    /** `handleSearch`: the result is computed from the given contacts, not
        from what is currently shown. */
    method HandleSearch(value: string)
      modifies this
      ensures searchTerm == value
      ensures contacts == SearchResults(initialContacts, value)
      ensures initialContacts == old(initialContacts) && filter == old(filter)
    {
      searchTerm := value;
      if value != "" {
        contacts := Filter(initialContacts, SearchFn(value));
      } else {
        contacts := initialContacts;
      }
    }

    /** `handleFilter`: likewise computed from the given contacts, so it
        discards any search result. */
    method HandleFilter(value: string)
      modifies this
      ensures filter == value
      ensures contacts == FilterResults(initialContacts, value)
      ensures initialContacts == old(initialContacts) && searchTerm == old(searchTerm)
    {
      filter := value;
      if value != "" {
        contacts := Filter(initialContacts, RelationshipIs(value));
      } else {
        contacts := initialContacts;
      }
    }

    /** `handleDelete(id)`: `confirmed` is the answer to the confirmation
        dialog, `fault` what the store's delete throws, if anything, and
        `missing` what it throws when no row has the id, and `callFails`
        says whether calling the action itself throws, which ends the
        handler with no notification and no change. On success the contact
        leaves the shown list; otherwise the list stays. */
    method HandleDelete(id: string, confirmed: bool, table: ContactTable, fault: Option<Thrown>, missing: Thrown,
                        callFails: bool)
      returns (toast: Option<Toast>)
      requires table.Valid()
      modifies this, table
      ensures table.Valid()
      ensures initialContacts == old(initialContacts)
      ensures searchTerm == old(searchTerm) && filter == old(filter)
      ensures !confirmed ==> toast == None && contacts == old(contacts) && table.rows == old(table.rows)
      ensures confirmed && callFails ==> toast == None && contacts == old(contacts) && table.rows == old(table.rows)
      ensures confirmed && toast == Some(SuccessToast(DeletedMessage)) ==>
        contacts == AfterDelete(old(contacts), id)
        && table.rows == Filter(old(table.rows), OtherThan(id))
      ensures confirmed && !callFails ==> toast.Some?
      ensures confirmed && !callFails && toast != Some(SuccessToast(DeletedMessage)) ==>
        toast == Some(ErrorToast(DeleteFailedMessage)) && contacts == old(contacts) && table.rows == old(table.rows)
      ensures confirmed ==>
        (toast == Some(SuccessToast(DeletedMessage)) <==> !callFails && id != "" && fault.None? && id in old(table.Ids()))
    {
      if !confirmed || callFails {
        return None;
      }
      var result := table.DeleteContact(id, fault, missing);
      if result.Succeeded? {
        contacts := Filter(contacts, OtherThan(id));
        toast := Some(SuccessToast(DeletedMessage));
      } else {
        toast := Some(ErrorToast(DeleteFailedMessage));
      }
    }
  }
}
