// The emergency-contact list of the emergency page
// (frontend/app/emergency/page.tsx): add (the first contact becomes the
// primary one), delete by id, and choose the primary contact. The new
// lists are pure functions; the page's handlers store them in the signed-in
// user and reset the add form.

module EmergencyPage {
  import opened Types
  import opened Decimal
  import Store

  /** The add-contact form. */
  datatype ContactForm = ContactForm(name: string, phone: string, relationship: string)

  const EmptyForm := ContactForm("", "", "Family")

  /** The id a contact added at instant `now` gets. */
  function ContactId(now: nat): string {
    "ec-" + NatToString(now)
  }

  /** The list after handleAddContact, or None when the form is rejected
      for an empty name or phone. */
  function AddContact(contacts: seq<EmergencyContact>, form: ContactForm, now: nat): (r: Option<seq<EmergencyContact>>)
    ensures r.None? <==> form.name == "" || form.phone == ""
    ensures r.Some? ==> |r.value| == |contacts| + 1 && r.value[..|contacts|] == contacts
    ensures r.Some? ==>
      var c := r.value[|contacts|];
      && c.id == ContactId(now) && c.name == form.name && c.phone == form.phone
      && c.relationship == form.relationship
      && (c.isPrimary <==> contacts == [])
  {
    if form.name == "" || form.phone == "" then None
    else Some(contacts + [EmergencyContact(ContactId(now), form.name, form.phone, form.relationship, |contacts| == 0)])
  }

  /** contacts.filter(c => c.id !== id) */
  function DeleteContact(contacts: seq<EmergencyContact>, id: string): (r: seq<EmergencyContact>)
    ensures forall c :: c in r <==> c in contacts && c.id != id
    ensures Subsequence(r, contacts)
    decreases |contacts|
  {
    if contacts == [] then []
    else
      var rest := DeleteContact(contacts[1..], id);
      if contacts[0].id != id then [contacts[0]] + rest else rest
  }

  /** contacts.map(c => ({ ...c, isPrimary: c.id === id })) */
  function SetPrimary(contacts: seq<EmergencyContact>, id: string): (r: seq<EmergencyContact>)
    ensures |r| == |contacts|
    ensures forall i :: 0 <= i < |r| ==> (r[i].isPrimary <==> contacts[i].id == id)
    ensures forall i :: 0 <= i < |r| ==> r[i].(isPrimary := false) == contacts[i].(isPrimary := false)
  {
    seq(|contacts|, i requires 0 <= i < |contacts| => contacts[i].(isPrimary := contacts[i].id == id))
  }

  function PrimaryCount(contacts: seq<EmergencyContact>): nat
    decreases |contacts|
  {
    if contacts == [] then 0
    else PrimaryCount(contacts[..|contacts| - 1]) + (if contacts[|contacts| - 1].isPrimary then 1 else 0)
  }

  predicate UniqueIds(contacts: seq<EmergencyContact>) {
    forall i, j :: 0 <= i < j < |contacts| ==> contacts[i].id != contacts[j].id
  }

  /** Adding never creates a second primary contact. */
  lemma AddKeepsAtMostOnePrimary(contacts: seq<EmergencyContact>, form: ContactForm, now: nat)
    requires PrimaryCount(contacts) <= 1
    ensures var r := AddContact(contacts, form, now);
      r.Some? ==> PrimaryCount(r.value) <= 1 && (contacts == [] ==> PrimaryCount(r.value) == 1)
  {
    var r := AddContact(contacts, form, now);
    if r.Some? {
      assert r.value[..|r.value| - 1] == contacts;
    }
  }

  lemma {:induction false} PrimaryCountZero(contacts: seq<EmergencyContact>)
    requires forall i :: 0 <= i < |contacts| ==> !contacts[i].isPrimary
    ensures PrimaryCount(contacts) == 0
    decreases |contacts|
  {
    if contacts != [] {
      PrimaryCountZero(contacts[..|contacts| - 1]);
    }
  }

  lemma {:induction false} PrimaryCountOne(contacts: seq<EmergencyContact>, k: nat)
    requires k < |contacts| && contacts[k].isPrimary
    requires forall i :: 0 <= i < |contacts| && i != k ==> !contacts[i].isPrimary
    ensures PrimaryCount(contacts) == 1
    decreases |contacts|
  {
    var init := contacts[..|contacts| - 1];
    if k == |contacts| - 1 {
      PrimaryCountZero(init);
    } else {
      PrimaryCountOne(init, k);
    }
  }

  /** With distinct ids, choosing a listed contact makes it the one and
      only primary contact; choosing an unlisted id leaves none. */
  lemma SetPrimaryUnique(contacts: seq<EmergencyContact>, id: string)
    requires UniqueIds(contacts)
    ensures (exists k :: 0 <= k < |contacts| && contacts[k].id == id) ==> PrimaryCount(SetPrimary(contacts, id)) == 1
    ensures (forall k :: 0 <= k < |contacts| ==> contacts[k].id != id) ==> PrimaryCount(SetPrimary(contacts, id)) == 0
  {
    var r := SetPrimary(contacts, id);
    if k :| 0 <= k < |contacts| && contacts[k].id == id {
      PrimaryCountOne(r, k);
    } else {
      PrimaryCountZero(r);
    }
  }

  /** Deleting removes every contact with the id and nothing else: a list
      that lacks the id is left as it is. */
  lemma {:induction false} DeleteAbsentIsIdentity(contacts: seq<EmergencyContact>, id: string)
    requires forall i :: 0 <= i < |contacts| ==> contacts[i].id != id
    ensures DeleteContact(contacts, id) == contacts
    decreases |contacts|
  {
    if contacts != [] {
      DeleteAbsentIsIdentity(contacts[1..], id);
    }
  }

  lemma {:induction false} DeleteAppend(a: seq<EmergencyContact>, b: seq<EmergencyContact>, id: string)
    ensures DeleteContact(a + b, id) == DeleteContact(a, id) + DeleteContact(b, id)
    decreases |a|
  {
    if a != [] {
      assert (a + b)[1..] == a[1..] + b;
      DeleteAppend(a[1..], b, id);
    } else {
      assert a + b == b;
    }
  }

  /** Deleting a contact just added, under a fresh id, restores the list. */
  lemma AddThenDeleteRestores(contacts: seq<EmergencyContact>, form: ContactForm, now: nat)
    requires forall i :: 0 <= i < |contacts| ==> contacts[i].id != ContactId(now)
    requires AddContact(contacts, form, now).Some?
    ensures DeleteContact(AddContact(contacts, form, now).value, ContactId(now)) == contacts
  {
    var added := AddContact(contacts, form, now).value;
    var c := added[|contacts|];
    assert added == contacts + [c];
    DeleteAppend(contacts, [c], ContactId(now));
    DeleteAbsentIsIdentity(contacts, ContactId(now));
  }

  /** Deleting the primary contact does not promote another one. */
  lemma DeletePrimaryLeavesNone(contacts: seq<EmergencyContact>, id: string)
    requires forall i :: 0 <= i < |contacts| && contacts[i].isPrimary ==> contacts[i].id == id
    ensures PrimaryCount(DeleteContact(contacts, id)) == 0
  {
    var r := DeleteContact(contacts, id);
    forall i | 0 <= i < |r| ensures !r[i].isPrimary {
      assert r[i] in contacts;
    }
    PrimaryCountZero(r);
  }

  class EmergencyPage {
    const store: Store.DriverStore
    var form: ContactForm
    var isAddingContact: bool

    constructor (store: Store.DriverStore)
      ensures this.store == store && form == EmptyForm && !isAddingContact
    {
      this.store := store;
      form, isAddingContact := EmptyForm, false;
    }

    /** handleAddContact. A rejected form changes nothing; otherwise the
        user's list gains the contact and the form is cleared and closed. */
    method AddContactHandler(now: nat) returns (added: bool)
      requires store.user.Some?
      modifies this, store
      ensures added <==> AddContact(old(store.user).value.emergencyContacts, old(form), now).Some?
      ensures !added ==> store.State() == old(store.State()) && form == old(form) && isAddingContact == old(isAddingContact)
      ensures added ==>
        && store.State() == old(store.State()).(
             user := Some(old(store.user).value.(
               emergencyContacts := AddContact(old(store.user).value.emergencyContacts, old(form), now).value)),
             isAuthenticated := true)
        && form == EmptyForm && !isAddingContact
    {
      var user := store.user.value;
      var r := AddContact(user.emergencyContacts, form, now);
      if r.None? {
        return false;
      }
      store.SetUser(Some(user.(emergencyContacts := r.value)));
      form, isAddingContact := EmptyForm, false;
      added := true;
    }

    method DeleteContactHandler(id: string)
      requires store.user.Some?
      modifies store
      ensures store.State() == old(store.State()).(
        user := Some(old(store.user).value.(
          emergencyContacts := DeleteContact(old(store.user).value.emergencyContacts, id))),
        isAuthenticated := true)
    {
      var user := store.user.value;
      store.SetUser(Some(user.(emergencyContacts := DeleteContact(user.emergencyContacts, id))));
    }

    method SetPrimaryHandler(id: string)
      requires store.user.Some?
      modifies store
      ensures store.State() == old(store.State()).(
        user := Some(old(store.user).value.(
          emergencyContacts := SetPrimary(old(store.user).value.emergencyContacts, id))),
        isAuthenticated := true)
    {
      var user := store.user.value;
      store.SetUser(Some(user.(emergencyContacts := SetPrimary(user.emergencyContacts, id))));
    }
  }
}
