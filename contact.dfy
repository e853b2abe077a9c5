/** Contacts of a codeplug: DTMF contacts and digital (DMR) contacts, and the
    contact list that holds both in one order while numbering each kind
    separately. */
module Contacts {
  import opened ConfigObject
  import opened ObjectList

  /** The two concrete contact classes; the base class cannot be
      instantiated, so every contact is one of them. */
  datatype ContactKind = DTMFKind | DigitalKind

  /** The call type of a digital contact. */
  datatype CallType = PrivateCall | GroupCall | AllCall

  /** The fields a DTMF or a digital contact adds to name and ring flag. */
  datatype ContactExt =
    | DTMFExt(dtmfNumber: string)
    | DigitalExt(callType: CallType, dmrNumber: uint32)

  /** A character a DTMF number may contain: 0-9, A, B, C, D, * and #. */
  predicate IsDTMFDigit(c: char)
  {
    ('0' <= c <= '9') || c == 'A' || c == 'B' || c == 'C' || c == 'D' || c == '*' || c == '#'
  }

  /** Every character of `s` is a DTMF digit. */
  predicate IsDTMFNumber(s: string)
  {
    forall i :: 0 <= i < |s| ==> IsDTMFDigit(s[i])
  }

  /** Checks a DTMF number character by character. */
  function CheckDTMFNumber(s: string): (ok: bool)
    ensures ok <==> IsDTMFNumber(s)
  {
    if s == [] then true
    else
      var rest := CheckDTMFNumber(s[1..]);
      assert IsDTMFNumber(s) <==> IsDTMFDigit(s[0]) && IsDTMFNumber(s[1..]) by {
        if IsDTMFDigit(s[0]) && IsDTMFNumber(s[1..]) {
          forall i | 0 <= i < |s| ensures IsDTMFDigit(s[i]) {
            if i > 0 { assert s[i] == s[1..][i - 1]; }
          }
        }
      }
      IsDTMFDigit(s[0]) && rest
  }

  /** The DTMF number setter accepts "123*#AB" and refuses "12E3". */
  lemma DTMFNumberExamples()
    ensures CheckDTMFNumber("123*#AB")
    ensures !CheckDTMFNumber("12E3")
  {
  }

  /** A contact of the codeplug. The base class and its two subclasses of the
      C++ source are one class here: `kind` fixes the subclass at
      construction and `ext` holds the subclass's own fields. */
  class Contact {
    const kind: ContactKind
    var name: string
    var ring: bool
    var ext: ContactExt

    ghost predicate Valid()
      reads this
    {
      match ext
      case DTMFExt(number) => kind == DTMFKind && IsDTMFNumber(number)
      case DigitalExt(_, _) => kind == DigitalKind
    }

    /** `is<DTMFContact>()`: the base class cannot be instantiated, so every
        contact that is not digital is a DTMF contact. */
    function IsDTMF(): (r: bool)
      ensures r <==> kind != DigitalKind
    {
      kind == DTMFKind
    }

    /** `is<DigitalContact>()`: every contact that is not DTMF is digital. */
    function IsDigital(): (r: bool)
      ensures r <==> kind != DTMFKind
    {
      kind == DigitalKind
    }

    /** `as<DTMFContact>()`: the contact itself when it is a DTMF contact, else null. */
    function AsDTMF(): (c: Contact?)
      ensures c != null <==> IsDTMF()
      ensures c != null ==> c == this && !c.IsDigital()
    {
      if IsDTMF() then this else null
    }

    /** `as<DigitalContact>()`: the contact itself when it is digital, else null. */
    function AsDigital(): (c: Contact?)
      ensures c != null <==> IsDigital()
      ensures c != null ==> c == this && !c.IsDTMF()
    {
      if IsDigital() then this else null
    }

    /** A DTMF contact with the given name, number and ring flag. */
    constructor DTMF(name: string, number: string, ring: bool := false)
      requires IsDTMFNumber(number)
      ensures Valid() && IsDTMF()
      ensures this.name == name && this.ring == ring && ext == DTMFExt(number)
    {
      kind := DTMFKind;
      this.name, this.ring := name, ring;
      ext := DTMFExt(number);
    }

    /** A digital contact with the given call type, name, DMR number and ring flag. */
    constructor Digital(callType: CallType, name: string, number: uint32, ring: bool := false)
      ensures Valid() && IsDigital()
      ensures this.name == name && this.ring == ring && ext == DigitalExt(callType, number)
    {
      kind := DigitalKind;
      this.name, this.ring := name, ring;
      ext := DigitalExt(callType, number);
    }

    /** Renames the contact; an empty name is refused. */
    method SetName(n: string) returns (ok: bool)
      requires Valid()
      modifies this`name
      ensures Valid()
      ensures ok <==> n != ""
      ensures name == if ok then n else old(name)
    {
      ok := n != "";
      if ok { name := n; }
    }

    /** Enables or disables the ring tone for calls from this contact. */
    method SetRing(enable: bool)
      requires Valid()
      modifies this`ring
      ensures Valid()
      ensures ring == enable
    {
      ring := enable;
    }

    /** Sets the number of a DTMF contact; a string with a character
        outside 0-9, A-D, * and # is refused and the number is kept. */
    method SetDTMFNumber(number: string) returns (ok: bool)
      requires Valid() && IsDTMF()
      modifies this`ext
      ensures Valid()
      ensures ok <==> IsDTMFNumber(number)
      ensures ext == if ok then DTMFExt(number) else old(ext)
    {
      ok := CheckDTMFNumber(number);
      if ok { ext := DTMFExt(number); }
    }

    /** Sets the call type of a digital contact. */
    method SetType(t: CallType)
      requires Valid() && IsDigital()
      modifies this`ext
      ensures Valid()
      ensures ext == old(ext).(callType := t)
    {
      ext := ext.(callType := t);
    }

    /** Sets the DMR number of a digital contact. */
    method SetDigitalNumber(number: uint32) returns (ok: bool)
      requires Valid() && IsDigital()
      modifies this`ext
      ensures Valid()
      ensures ok && ext == old(ext).(dmrNumber := number)
    {
      ext := ext.(dmrNumber := number);
      ok := true;
    }

    /** This is a digital contact with DMR number `number`. */
    predicate HasDigitalNumber(number: uint32)
      reads this
    {
      IsDigital() && ext.DigitalExt? && ext.dmrNumber == number
    }
  }

  /** The contacts of `s` of kind `k`, in the order of `s`. */
  function OfKind(s: seq<Contact>, k: ContactKind): seq<Contact>
  {
    if s == [] then []
    else OfKind(s[..|s| - 1], k) + (if s[|s| - 1].kind == k then [s[|s| - 1]] else [])
  }

  /** Selecting one kind distributes over concatenation. */
  lemma {:induction false} OfKindConcat(a: seq<Contact>, b: seq<Contact>, k: ContactKind)
    ensures OfKind(a + b, k) == OfKind(a, k) + OfKind(b, k)
  {
    if b == [] {
      assert a + b == a;
    } else {
      var last := b[|b| - 1];
      assert (a + b)[..|a + b| - 1] == a + b[..|b| - 1];
      OfKindConcat(a, b[..|b| - 1], k);
    }
  }

  /** Taking one more element of the list extends the selection by that
      element exactly when it is of the selected kind. */
  lemma OfKindPrefixStep(s: seq<Contact>, i: nat, k: ContactKind)
    requires i < |s|
    ensures OfKind(s[..i + 1], k) == OfKind(s[..i], k) + (if s[i].kind == k then [s[i]] else [])
  {
    assert s[..i + 1][..i] == s[..i];
  }

  /** The selection holds exactly the list's contacts of that kind. */
  lemma {:induction false} OfKindMembers(s: seq<Contact>, k: ContactKind)
    ensures forall c :: c in OfKind(s, k) <==> c in s && c.kind == k
  {
    if s != [] {
      var init := s[..|s| - 1];
      OfKindMembers(init, k);
      assert s == init + [s[|s| - 1]];
    }
  }

  /** Every contact is either DTMF or digital, so the two selections
      together are as long as the list. */
  lemma {:induction false} KindCountsAddUp(s: seq<Contact>)
    ensures |OfKind(s, DigitalKind)| + |OfKind(s, DTMFKind)| == |s|
  {
    if s != [] {
      KindCountsAddUp(s[..|s| - 1]);
    }
  }

  /** A selection from a duplicate-free list is duplicate-free, so the
      index of a contact within its kind is unique. */
  lemma {:induction false} OfKindDistinct(s: seq<Contact>, k: ContactKind)
    requires Distinct(s)
    ensures Distinct(OfKind(s, k))
  {
    if s != [] {
      var init := s[..|s| - 1];
      var last := s[|s| - 1];
      assert Distinct(init);
      OfKindDistinct(init, k);
      OfKindMembers(init, k);
      assert last !in init;
    }
  }

  /** Inserting a contact puts it into the selection of its own kind,
      between the selections of the contacts before and after it, and leaves
      the selection of the other kind as it was. */
  lemma OfKindInserted(s: seq<Contact>, c: Contact, i: nat, k: ContactKind)
    requires i <= |s|
    ensures OfKind(Inserted(s, c, i), k) ==
      OfKind(s[..i], k) + (if c.kind == k then [c] else []) + OfKind(s[i..], k)
    ensures c.kind != k ==> OfKind(Inserted(s, c, i), k) == OfKind(s, k)
  {
    assert OfKind([c], k) == (if c.kind == k then [c] else []) by {
      assert [c][..0] == [];
    }
    OfKindConcat(s[..i] + [c], s[i..], k);
    OfKindConcat(s[..i], [c], k);
    OfKindConcat(s[..i], s[i..], k);
    assert s[..i] + s[i..] == s;
  }

  /** The list of contacts of a codeplug: one order of DTMF and digital
      contacts, with the digital and the DTMF contacts each numbered by
      their own index in that order. */
  class ContactList {
    var contacts: seq<Contact>

    ghost predicate Valid()
      reads this, contacts
    {
      && Distinct(contacts)
      && forall i :: 0 <= i < |contacts| ==> contacts[i].Valid()
    }

    /** The digital contacts, in list order. */
    function DigitalContacts(): seq<Contact>
      reads this
    {
      OfKind(contacts, DigitalKind)
    }

    /** The DTMF contacts, in list order. */
    function DTMFContacts(): seq<Contact>
      reads this
    {
      OfKind(contacts, DTMFKind)
    }

    /** An empty contact list. */
    constructor ()
      ensures Valid() && contacts == []
    {
      contacts := [];
    }

    /** `add(obj, row)`: inserts `c` before position `row`, or appends it for
        the default `row = -1`, and returns its index. A contact already in
        the list is refused with -1. Both derived orderings stay the
        selections of the new list: `c` joins its own kind's ordering
        behind every contact of that kind that precedes it. */
    method Add(c: Contact, row: int := -1) returns (idx: int)
      requires Valid() && c.Valid()
      modifies this`contacts
      ensures Valid()
      ensures c in old(contacts) ==> idx == -1 && contacts == old(contacts)
      ensures c !in old(contacts) ==>
        && idx == InsertionIndex(|old(contacts)|, row)
        && contacts == Inserted(old(contacts), c, idx)
        && OfKind(contacts, c.kind) ==
             OfKind(old(contacts)[..idx], c.kind) + [c] + OfKind(old(contacts)[idx..], c.kind)
      ensures c !in old(contacts) && row == -1 ==>
        && idx == |old(contacts)| && contacts == old(contacts) + [c]
        && DigitalContacts() == old(DigitalContacts()) + (if c.IsDigital() then [c] else [])
        && DTMFContacts() == old(DTMFContacts()) + (if c.IsDTMF() then [c] else [])
    {
      if c in contacts {
        return -1;
      }
      idx := InsertionIndex(|contacts|, row);
      InsertedDistinct(contacts, c, idx);
      InsertedAt(contacts, c, idx);
      OfKindInserted(contacts, c, idx, c.kind);
      OfKindInserted(contacts, c, idx, DigitalKind);
      OfKindInserted(contacts, c, idx, DTMFKind);
      assert contacts[..idx] == contacts && contacts[idx..] == [] ==> Inserted(contacts, c, idx) == contacts + [c];
      contacts := Inserted(contacts, c, idx);
    }

    /** `contact(idx)`: the contact at flat index `idx`, null outside the list. */
    function ContactAt(idx: int): (c: Contact?)
      reads this
      ensures c != null <==> 0 <= idx < |contacts|
      ensures c != null ==> c == contacts[idx]
    {
      if 0 <= idx < |contacts| then contacts[idx] else null
    }

    /** The number of contacts of kind `k`, counted over the list. */
    method CountOf(k: ContactKind) returns (n: nat)
      ensures n == |OfKind(contacts, k)|
    {
      n := 0;
      var i := 0;
      while i < |contacts|
        invariant 0 <= i <= |contacts|
        invariant n == |OfKind(contacts[..i], k)|
      {
        OfKindPrefixStep(contacts, i, k);
        if contacts[i].kind == k {
          n := n + 1;
        }
        i := i + 1;
      }
      assert contacts[..i] == contacts;
    }

    /** `digitalCount()`. */
    method DigitalCount() returns (n: nat)
      ensures n == |DigitalContacts()|
      ensures n <= |contacts|
    {
      KindCountsAddUp(contacts);
      n := CountOf(DigitalKind);
    }

    /** `dtmfCount()`. */
    method DTMFCount() returns (n: nat)
      ensures n == |DTMFContacts()|
      ensures n <= |contacts|
    {
      KindCountsAddUp(contacts);
      n := CountOf(DTMFKind);
    }

    /** The contact with index `idx` among the contacts of kind `k`, found by
        walking the list; null when `idx` is not such an index. */
    method NthOfKind(k: ContactKind, idx: int) returns (c: Contact?)
      ensures 0 <= idx < |OfKind(contacts, k)| ==> c == OfKind(contacts, k)[idx]
      ensures !(0 <= idx < |OfKind(contacts, k)|) ==> c == null
    {
      if idx < 0 {
        return null;
      }
      var i, seen := 0, 0;
      while i < |contacts|
        invariant 0 <= i <= |contacts|
        invariant seen == |OfKind(contacts[..i], k)| <= idx
      {
        OfKindPrefixStep(contacts, i, k);
        if contacts[i].kind == k {
          if seen == idx {
            OfKindConcat(contacts[..i + 1], contacts[i + 1..], k);
            assert contacts[..i + 1] + contacts[i + 1..] == contacts;
            return contacts[i];
          }
          seen := seen + 1;
        }
        i := i + 1;
      }
      assert contacts[..i] == contacts;
      return null;
    }

    /** `digitalContact(idx)`: the idx-th digital contact in list order. */
    method DigitalContact(idx: int) returns (c: Contact?)
      ensures 0 <= idx < |DigitalContacts()| ==> c == DigitalContacts()[idx] && c.IsDigital()
      ensures !(0 <= idx < |DigitalContacts()|) ==> c == null
    {
      c := NthOfKind(DigitalKind, idx);
      if c != null {
        OfKindMembers(contacts, DigitalKind);
      }
    }

    /** `dtmfContact(idx)`: the idx-th DTMF contact in list order. */
    method DTMFContact(idx: int) returns (c: Contact?)
      ensures 0 <= idx < |DTMFContacts()| ==> c == DTMFContacts()[idx] && c.IsDTMF()
      ensures !(0 <= idx < |DTMFContacts()|) ==> c == null
    {
      c := NthOfKind(DTMFKind, idx);
      if c != null {
        OfKindMembers(contacts, DTMFKind);
      }
    }

    /** The index of `c` among the contacts of kind `k`, -1 when `c` is not
        such a contact of the list. In a valid list that index is unique, so
        this inverts `NthOfKind`. */
    method IndexOfKind(k: ContactKind, c: Contact) returns (idx: int)
      requires Valid()
      ensures -1 <= idx < |OfKind(contacts, k)|
      ensures idx == -1 <==> c !in OfKind(contacts, k)
      ensures idx >= 0 ==> OfKind(contacts, k)[idx] == c
      ensures forall j :: 0 <= j < |OfKind(contacts, k)| && OfKind(contacts, k)[j] == c ==> j == idx
    {
      OfKindMembers(contacts, k);
      OfKindDistinct(contacts, k);
      if c.kind != k {
        return -1;
      }
      var i, seen := 0, 0;
      while i < |contacts|
        invariant 0 <= i <= |contacts|
        invariant seen == |OfKind(contacts[..i], k)|
        invariant c !in contacts[..i]
      {
        OfKindPrefixStep(contacts, i, k);
        if contacts[i] == c {
          OfKindConcat(contacts[..i + 1], contacts[i + 1..], k);
          assert contacts[..i + 1] + contacts[i + 1..] == contacts;
          return seen;
        }
        if contacts[i].kind == k {
          seen := seen + 1;
        }
        i := i + 1;
      }
      assert contacts[..i] == contacts;
      return -1;
    }

    /** `indexOfDigital(contact)`: the index of a digital contact among the
        digital contacts; -1 when it is not in the list. */
    method IndexOfDigital(c: Contact) returns (idx: int)
      requires Valid() && c.IsDigital()
      ensures -1 <= idx < |DigitalContacts()|
      ensures idx == -1 <==> c !in contacts
      ensures idx >= 0 ==> DigitalContacts()[idx] == c
      ensures forall j :: 0 <= j < |DigitalContacts()| && DigitalContacts()[j] == c ==> j == idx
    {
      OfKindMembers(contacts, DigitalKind);
      idx := IndexOfKind(DigitalKind, c);
    }

    /** `indexOfDTMF(contact)`: the index of a DTMF contact among the DTMF
        contacts; -1 when it is not in the list. */
    method IndexOfDTMF(c: Contact) returns (idx: int)
      requires Valid() && c.IsDTMF()
      ensures -1 <= idx < |DTMFContacts()|
      ensures idx == -1 <==> c !in contacts
      ensures idx >= 0 ==> DTMFContacts()[idx] == c
      ensures forall j :: 0 <= j < |DTMFContacts()| && DTMFContacts()[j] == c ==> j == idx
    {
      OfKindMembers(contacts, DTMFKind);
      idx := IndexOfKind(DTMFKind, c);
    }

    /** `findDigitalContact(number)`: the first digital contact, in list
        order, with DMR number `number`; null when there is none. */
    method FindDigitalContact(number: uint32) returns (c: Contact?)
      ensures c == null <==>
        forall i :: 0 <= i < |contacts| ==> !contacts[i].HasDigitalNumber(number)
      ensures c != null ==> c.IsDigital() && exists i ::
        && 0 <= i < |contacts| && contacts[i] == c
        && c.HasDigitalNumber(number)
        && forall j :: 0 <= j < i ==> !contacts[j].HasDigitalNumber(number)
    {
      var i := 0;
      while i < |contacts|
        invariant 0 <= i <= |contacts|
        invariant forall j :: 0 <= j < i ==> !contacts[j].HasDigitalNumber(number)
      {
        if contacts[i].HasDigitalNumber(number) {
          return contacts[i];
        }
        i := i + 1;
      }
      return null;
    }

    /** `indexOfDigital(digitalContact(i)) == i` for every digital index `i`:
        the reverse lookup inverts the forward one. */
    method DigitalIndexRoundTrip(i: int) returns (c: Contact?, j: int)
      requires Valid()
      requires 0 <= i < |DigitalContacts()|
      ensures c != null && c.IsDigital() && c == DigitalContacts()[i]
      ensures j == i
    {
      c := DigitalContact(i);
      j := IndexOfDigital(c);
    }

    /** `indexOfDTMF(dtmfContact(i)) == i` for every DTMF index `i`. */
    method DTMFIndexRoundTrip(i: int) returns (c: Contact?, j: int)
      requires Valid()
      requires 0 <= i < |DTMFContacts()|
      ensures c != null && c.IsDTMF() && c == DTMFContacts()[i]
      ensures j == i
    {
      c := DTMFContact(i);
      j := IndexOfDTMF(c);
    }
  }

  /** Digital contacts D1, D2 and a DTMF contact F1 in the order D1, F1,
      D2: the digital ordering is [D1, D2] and the DTMF ordering is [F1]. */
  lemma ThreeContactOrders(d1: Contact, f1: Contact, d2: Contact)
    requires d1.IsDigital() && f1.IsDTMF() && d2.IsDigital()
    ensures OfKind([d1, f1, d2], DigitalKind) == [d1, d2]
    ensures OfKind([d1, f1, d2], DTMFKind) == [f1]
  {
    OfKindConcat([d1], [f1], DigitalKind);
    OfKindConcat([d1], [f1], DTMFKind);
    OfKindConcat([d1, f1], [d2], DigitalKind);
    OfKindConcat([d1, f1], [d2], DTMFKind);
    assert [d1] + [f1] == [d1, f1] && [d1, f1] + [d2] == [d1, f1, d2];
    assert [d1][..0] == [] && [f1][..0] == [] && [d2][..0] == [];
  }

  /** The lookups of a list holding digital contacts D1, D2 and a DTMF
      contact F1 in the order D1, F1, D2, where only D2 has DMR number 2:
      two digital contacts and one DTMF contact; the second digital contact
      is D2, D2 has digital index 1, and the search for number 2 finds D2. */
  method ContactListLookups(list: ContactList, d1: Contact, f1: Contact, d2: Contact)
    returns (digital: nat, dtmf: nat, second: Contact?, index: int, found: Contact?)
    requires list.Valid() && list.contacts == [d1, f1, d2]
    requires d1.IsDigital() && f1.IsDTMF() && d2.IsDigital()
    requires d2.HasDigitalNumber(2) && !d1.HasDigitalNumber(2)
    ensures digital == 2 && dtmf == 1
    ensures second == d2 && index == 1 && found == d2
  {
    ThreeContactOrders(d1, f1, d2);
    digital := list.DigitalCount();
    dtmf := list.DTMFCount();
    second := list.DigitalContact(1);
    index := list.IndexOfDigital(d2);
    found := list.FindDigitalContact(2);
    assert !list.contacts[0].HasDigitalNumber(2) && !list.contacts[1].HasDigitalNumber(2);
  }
}
