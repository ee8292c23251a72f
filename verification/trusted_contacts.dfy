/** The trusted-contacts page (src/components/trusted-contacts/TrustedContactsView.tsx):
    a list of contact e-mail addresses, an input for a new one, a guarded
    add and a remove. */
module TrustedContacts {
  import opened Ui

  const EmptyEmailError := "Please enter an email address"
  const InvalidEmailError := "Please enter a valid email address"
  const DuplicateContactError := "This contact is already in your trusted contacts"
  const ContactAdded := "Trusted contact added successfully"
  const ContactRemoved := "Trusted contact removed"

  /** The contact the page starts with. */
  const InitialContact := "emily.johnson@example.com"

  /** The format check: an `@` and a `.` somewhere, in any order. */
  predicate LooksLikeEmail(e: string)
    // the two required characters are distinct, so at least two characters
    ensures LooksLikeEmail(e) ==> |e| >= 2
  {
    '@' in e && '.' in e
  }

  predicate NoDuplicates(s: seq<string>)
  {
    forall i, j :: 0 <= i < j < |s| ==> s[i] != s[j]
  }

  /** The list invariant: distinct entries, each passing the format check. */
  predicate ContactsValid(s: seq<string>)
    // no listed entry is empty, and every listed entry would be refused as a duplicate
    ensures ContactsValid(s) ==> "" !in s
    ensures ContactsValid(s) ==> forall x :: x in s ==> AddCheck(s, x) == Some(DuplicateContactError)
  {
    NoDuplicates(s) && forall i :: 0 <= i < |s| ==> LooksLikeEmail(s[i])
  }

  /** The guards of the add handler, in their order; the first that fails
      gives the error, `None` lets the add through. */
  function AddCheck(contacts: seq<string>, email: string): (r: Option<string>)
    ensures r == None <==> email != "" && LooksLikeEmail(email) && email !in contacts
    ensures email == "" ==> r == Some(EmptyEmailError)
    ensures email != "" && !LooksLikeEmail(email) ==> r == Some(InvalidEmailError)
    ensures email != "" && LooksLikeEmail(email) && email in contacts ==> r == Some(DuplicateContactError)
  {
    if email == "" then Some(EmptyEmailError)
    else if !('@' in email) || !('.' in email) then Some(InvalidEmailError)
    else if email in contacts then Some(DuplicateContactError)
    else None
  }

  /** `contacts.filter(c => c !== x)` */
  function Without(s: seq<string>, x: string): (r: seq<string>)
    ensures |r| <= |s|
  {
    if s == [] then []
    else if s[0] == x then Without(s[1..], x)
    else [s[0]] + Without(s[1..], x)
  }

  class TrustedContactsView {
    var email: string
    var contacts: seq<string>

    ghost predicate Valid()
      reads this
    {
      ContactsValid(contacts)
    }

    /** The initial state: an empty input and one contact. */
    constructor ()
      ensures Valid()
      ensures email == "" && contacts == [InitialContact]
    {
      email := "";
      contacts := [InitialContact];
      InitialValid();
    }

    /** The input's `onChange`. */
    method SetEmail(value: string)
      modifies this
      ensures email == value && contacts == old(contacts)
      ensures old(Valid()) ==> Valid()
    {
      email := value;
    }

    /** `handleAddContact`: on success, appends the input to the list and
        clears the input; on any failed guard, changes nothing. */
    method AddContact() returns (r: Outcome)
      modifies this
      ensures AddCheck(old(contacts), old(email)).Some? ==>
        r == Error(AddCheck(old(contacts), old(email)).value)
        && contacts == old(contacts) && email == old(email)
      ensures AddCheck(old(contacts), old(email)) == None ==>
        r == Success(ContactAdded)
        && contacts == old(contacts) + [old(email)] && email == ""
      ensures old(Valid()) ==> Valid()
    {
      if email == "" {
        return Error(EmptyEmailError);
      }
      if !('@' in email) || !('.' in email) {
        return Error(InvalidEmailError);
      }
      if email in contacts {
        return Error(DuplicateContactError);
      }
      if ContactsValid(contacts) {
        AddKeepsValid(contacts, email);
      }
      contacts := contacts + [email];
      email := "";
      r := Success(ContactAdded);
    }

    /** `handleRemoveContact`: drops every entry equal to `contactEmail`. */
    method RemoveContact(contactEmail: string) returns (r: Outcome)
      modifies this
      ensures contacts == Without(old(contacts), contactEmail)
      ensures email == old(email)
      ensures r == Success(ContactRemoved)
      ensures old(Valid()) ==> Valid()
      // a listed contact goes away alone: the list shrinks by exactly one
      ensures old(Valid()) && contactEmail in old(contacts) ==> |contacts| == |old(contacts)| - 1
    {
      if ContactsValid(contacts) {
        WithoutKeepsValid(contacts, contactEmail);
        if contactEmail in contacts {
          RemovePresentShrinksByOne(contacts, contactEmail);
        }
      }
      contacts := Without(contacts, contactEmail);
      r := Success(ContactRemoved);
    }
  }

  // ---------------------------------------------------------------------------
  // Properties
  // ---------------------------------------------------------------------------

  /** The initial list satisfies the invariant. */
  lemma InitialValid()
    ensures ContactsValid([InitialContact])
  {
    assert InitialContact[5] == '.';
    assert InitialContact[13] == '@';
  }

  /** An add that passes its guards keeps the invariant, puts the new
      address last and leaves the earlier entries where they were. */
  lemma AddKeepsValid(contacts: seq<string>, email: string)
    requires ContactsValid(contacts)
    requires AddCheck(contacts, email) == None
    ensures ContactsValid(contacts + [email])
    ensures |contacts + [email]| == |contacts| + 1
    ensures (contacts + [email])[|contacts|] == email
    ensures (contacts + [email])[..|contacts|] == contacts
  {
    var s := contacts + [email];
    forall i, j | 0 <= i < j < |s| ensures s[i] != s[j] {
      if j == |contacts| {
        assert s[i] == contacts[i];
      }
    }
  }

  /** Exactly the entries different from `x` survive a remove. */
  lemma {:induction false} WithoutMembers(s: seq<string>, x: string, y: string)
    ensures y in Without(s, x) <==> y in s && y != x
  {
    if s != [] {
      WithoutMembers(s[1..], x, y);
      assert s == [s[0]] + s[1..];
    }
  }

  /** Removing distributes over concatenation: the survivors keep their order. */
  lemma {:induction false} WithoutConcat(a: seq<string>, b: seq<string>, x: string)
    ensures Without(a + b, x) == Without(a, x) + Without(b, x)
  {
    if a == [] {
      assert a + b == b;
    } else {
      assert (a + b)[0] == a[0];
      assert (a + b)[1..] == a[1..] + b;
      WithoutConcat(a[1..], b, x);
    }
  }

  /** Removing an address that is not in the list changes nothing. */
  lemma {:induction false} WithoutAbsent(s: seq<string>, x: string)
    requires x !in s
    ensures Without(s, x) == s
  {
    if s != [] {
      assert x !in s[1..];
      WithoutAbsent(s[1..], x);
      assert s == [s[0]] + s[1..];
    }
  }

  /** The list shrinks by exactly the number of entries equal to `x`. */
  lemma {:induction false} WithoutLength(s: seq<string>, x: string)
    ensures |Without(s, x)| == |s| - multiset(s)[x]
  {
    if s != [] {
      WithoutLength(s[1..], x);
      assert s == [s[0]] + s[1..];
      assert multiset(s) == multiset([s[0]]) + multiset(s[1..]);
    }
  }

  /** Without duplicates, removing a present address shrinks the list by one. */
  lemma RemovePresentShrinksByOne(s: seq<string>, x: string)
    requires NoDuplicates(s)
    requires x in s
    ensures |Without(s, x)| == |s| - 1
  {
    var i :| 0 <= i < |s| && s[i] == x;
    assert s == s[..i] + [x] + s[i + 1..];
    assert x !in s[..i];
    assert x !in s[i + 1..];
    WithoutConcat(s[..i] + [x], s[i + 1..], x);
    WithoutConcat(s[..i], [x], x);
    WithoutAbsent(s[..i], x);
    WithoutAbsent(s[i + 1..], x);
  }

  /** A remove keeps the invariant. */
  lemma {:induction false} WithoutKeepsValid(s: seq<string>, x: string)
    requires ContactsValid(s)
    ensures ContactsValid(Without(s, x))
  {
    if s != [] {
      WithoutKeepsValid(s[1..], x);
      if s[0] != x {
        var t := Without(s[1..], x);
        WithoutMembers(s[1..], x, s[0]);
        assert s[0] !in s[1..];
        assert s[0] !in t;
        var r := [s[0]] + t;
        forall i, j | 0 <= i < j < |r| ensures r[i] != r[j] {
          if i == 0 {
            assert r[j] in t;
          }
        }
      }
    }
  }
}
