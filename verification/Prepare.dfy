/**
 * Preparing a placeholder cleanup: what keeps a company out (history, a real person's name, a kept address), and the
 * items that remain, contacts before their company.
 */
module Prepares {
  import opened Base
  import opened BulkJobs

  const CHUNK: nat := 200
  const READ_CAP: nat := 5000

  datatype Company = Company(id: nat, active: bool, placeholder: bool)

  /** A contact; its three address fields are compared in lower case, and "" is none. */
  datatype Contact = Contact(id: nat, company: nat, active: bool, placeholder: bool, e1: string, e2: string, e3: string)

  function Field(c: Contact, f: nat): string { if f == 0 then c.e1 else if f == 1 then c.e2 else c.e3 }

  /** An address of a contact. */
  predicate HasAddress(c: Contact, k: string) { k != "" && (c.e1 == k || c.e2 == k || c.e3 == k) }

  /** The tenant: all contacts, the company of every history row by kind, and the contact of every ticket. */
  datatype Tenant = Tenant(contacts: seq<Contact>, history: seq<seq<nat>>, tickets: seq<nat>)

  /** Addresses a person says to keep, and addresses a person confirmed as junk (keeping wins). */
  datatype Selector = Selector(keep: set<string>, junk: set<string>)

  // ---------------------------------------------------------------- what protects a company

  ghost predicate HasHistory(t: Tenant, id: nat) { exists h | 0 <= h < |t.history| :: id in t.history[h] }

  ghost predicate HasPerson(t: Tenant, id: nat) { exists c | c in t.contacts :: c.company == id && !c.placeholder }

  ghost predicate Ticketed(t: Tenant, k: string) { exists c | c in t.contacts :: HasAddress(c, k) && c.id in t.tickets }

  /** The decision on an address: kept when listed, or when anybody with it has a ticket and it is not junk. */
  ghost predicate KeptAddress(t: Tenant, sel: Selector, k: string) { k in sel.keep || (k !in sel.junk && Ticketed(t, k)) }

  /** An address protects every company it occurs on. */
  ghost predicate HasKeptAddress(t: Tenant, sel: Selector, id: nat) {
    exists c, k | c in t.contacts && c.company == id && HasAddress(c, k) :: KeptAddress(t, sel, k)
  }

  ghost predicate Guarded(t: Tenant, sel: Selector, id: nat) { HasHistory(t, id) || HasPerson(t, id) || HasKeptAddress(t, sel, id) }

  /** Protected as far as the contacts that were read tell. */
  ghost predicate GuardedBy(t: Tenant, sel: Selector, seen: seq<Contact>, id: nat) {
    || HasHistory(t, id)
    || (exists c | c in seen :: c.company == id && !c.placeholder)
    || (exists c, k | c in seen && c.company == id && HasAddress(c, k) :: KeptAddress(t, sel, k))
  }

  lemma AllSeen(t: Tenant, sel: Selector, seen: seq<Contact>, id: nat)
    requires forall c | c in seen :: c in t.contacts
    requires forall c | c in t.contacts && c.company == id :: c in seen
    ensures GuardedBy(t, sel, seen, id) <==> Guarded(t, sel, id)
  {
  }

  // ---------------------------------------------------------------- reading

  function ChunkAt(ids: seq<nat>, i: nat): seq<nat>
    requires i <= |ids|
  {
    if i + CHUNK < |ids| then ids[i..i + CHUNK] else ids[i..]
  }

  function Taken<T>(rows: seq<T>): seq<T> { if |rows| <= READ_CAP then rows else rows[..READ_CAP] }

  /** Contacts of some companies, as one query finds them. */
  function OfCompanies(cs: seq<Contact>, ids: seq<nat>): (r: seq<Contact>)
    ensures forall c :: c in r <==> c in cs && c.company in ids
  {
    if cs == [] then []
    else
      var front := OfCompanies(cs[..|cs| - 1], ids);
      assert cs == cs[..|cs| - 1] + [cs[|cs| - 1]];
      if cs[|cs| - 1].company in ids then front + [cs[|cs| - 1]] else front
  }

  /** What the reads of contacts bring, from company i on: a chunk at a time, each cut at the read cap. */
  function ReadFrom(t: Tenant, ids: seq<nat>, i: nat): seq<Contact>
    requires i <= |ids|
    decreases |ids| - i
  {
    if i == |ids| then []
    else Taken(OfCompanies(t.contacts, ChunkAt(ids, i))) + ReadFrom(t, ids, i + |ChunkAt(ids, i)|)
  }

  /** No chunk of companies has more contacts than one read returns. */
  ghost predicate UnderCap(t: Tenant, ids: seq<nat>) {
    forall i: nat | i <= |ids| :: |OfCompanies(t.contacts, ChunkAt(ids, i))| <= READ_CAP
  }

  lemma {:induction false} ReadTells(t: Tenant, ids: seq<nat>, i: nat)
    requires i <= |ids|
    ensures forall c | c in ReadFrom(t, ids, i) :: c in t.contacts && c.company in ids[i..]
    ensures UnderCap(t, ids) ==> forall c | c in t.contacts && c.company in ids[i..] :: c in ReadFrom(t, ids, i)
    decreases |ids| - i
  {
    if i < |ids| {
      var chunk := ChunkAt(ids, i);
      ReadTells(t, ids, i + |chunk|);
      assert ids[i..] == chunk + ids[i + |chunk|..];
      assert UnderCap(t, ids) ==> Taken(OfCompanies(t.contacts, chunk)) == OfCompanies(t.contacts, chunk);
    }
  }

  lemma ReadTellsAll(t: Tenant, ids: seq<nat>)
    ensures forall c | c in ReadFrom(t, ids, 0) :: c in t.contacts && c.company in ids
    ensures UnderCap(t, ids) ==> forall c | c in t.contacts && c.company in ids :: c in ReadFrom(t, ids, 0)
  {
    ReadTells(t, ids, 0);
    assert ids[0..] == ids;
  }

  lemma ReadMore(t: Tenant, ids: seq<nat>, i: nat, before: seq<Contact>)
    requires i < |ids|
    ensures var chunk := ChunkAt(ids, i);
            |chunk| > 0 && i + |chunk| <= |ids|
            && (before + Taken(OfCompanies(t.contacts, chunk))) + ReadFrom(t, ids, i + |chunk|) == before + ReadFrom(t, ids, i)
  {
  }

  /** The contacts of the selected companies, two hundred companies at a time; nothing checks the read cap here. */
  method ReadContacts(t: Tenant, ids: seq<nat>) returns (contacts: seq<Contact>)
    ensures contacts == ReadFrom(t, ids, 0)
    ensures forall c | c in contacts :: c in t.contacts && c.company in ids
    ensures UnderCap(t, ids) ==> forall c | c in t.contacts && c.company in ids :: c in contacts
  {
    contacts := [];
    var i := 0;
    while i < |ids|
      invariant 0 <= i <= |ids| && contacts + ReadFrom(t, ids, i) == ReadFrom(t, ids, 0)
    {
      var page := Taken(OfCompanies(t.contacts, ChunkAt(ids, i)));
      ReadMore(t, ids, i, contacts);
      contacts, i := contacts + page, i + |ChunkAt(ids, i)|;
    }
    assert contacts + [] == contacts;
    ReadTellsAll(t, ids);
  }

  // ---------------------------------------------------------------- why a company is kept

  type Why = map<nat, seq<string>>

  function Add(why: Why, id: nat, reason: string): (r: Why)
    ensures r.Keys == why.Keys + {id}
  {
    why[id := (if id in why then why[id] else []) + [reason]]
  }

  /** The companies of one kind of history row among some companies. */
  function Hits(rows: seq<nat>, ids: seq<nat>): (r: seq<nat>)
    ensures forall id :: id in r <==> id in rows && id in ids
  {
    if rows == [] then []
    else
      var front := Hits(rows[..|rows| - 1], ids);
      assert rows == rows[..|rows| - 1] + [rows[|rows| - 1]];
      if rows[|rows| - 1] in ids then front + [rows[|rows| - 1]] else front
  }

  method AddAll(before: Why, ids: seq<nat>, reason: string) returns (why: Why)
    ensures why.Keys == before.Keys + set id | id in ids
  {
    why := before;
    var j := 0;
    while j < |ids|
      invariant 0 <= j <= |ids| && why.Keys == before.Keys + set id | id in ids[..j]
    {
      assert ids[..j + 1] == ids[..j] + [ids[j]];
      why := Add(why, ids[j], reason);
      j := j + 1;
    }
    assert ids[..j] == ids;
  }

  /** One kind of history over every chunk; a full read refuses the whole preparation. */
  method CheckKind(rows: seq<nat>, ids: seq<nat>, before: Why) returns (ok: bool, why: Why)
    ensures ok ==> forall id :: id in why <==> id in before || (id in ids && id in rows)
  {
    why, ok := before, true;
    var i := 0;
    while i < |ids|
      invariant 0 <= i <= |ids| && forall id :: id in why <==> id in before || (id in ids[..i] && id in rows)
    {
      var chunk := ChunkAt(ids, i);
      var hits := Hits(rows, chunk);
      if |hits| >= READ_CAP { return false, why; }
      why := AddAll(why, hits, "history");
      assert ids[..i + |chunk|] == ids[..i] + chunk;
      i := i + |chunk|;
    }
    assert ids[..i] == ids;
  }

  /** Every kind of history. */
  method CheckHistory(t: Tenant, ids: seq<nat>) returns (ok: bool, why: Why)
    ensures ok ==> forall id :: id in why <==> id in ids && HasHistory(t, id)
  {
    why, ok := map[], true;
    var h := 0;
    while h < |t.history|
      invariant 0 <= h <= |t.history|
      invariant forall id :: id in why <==> id in ids && exists g | 0 <= g < h :: id in t.history[g]
    {
      ok, why := CheckKind(t.history[h], ids, why);
      if !ok { return; }
      h := h + 1;
    }
  }

  /** A contact who looks like a real person keeps its company. */
  method CheckNames(contacts: seq<Contact>, before: Why) returns (why: Why)
    ensures forall id :: id in why <==> id in before || exists c | c in contacts :: c.company == id && !c.placeholder
  {
    why := before;
    var i := 0;
    while i < |contacts|
      invariant 0 <= i <= |contacts|
      invariant forall id :: id in why <==> id in before || exists c | c in contacts[..i] :: c.company == id && !c.placeholder
    {
      assert contacts[..i + 1] == contacts[..i] + [contacts[i]];
      if !contacts[i].placeholder { why := Add(why, contacts[i].company, "real name"); }
      i := i + 1;
    }
    assert contacts[..i] == contacts;
  }

  // ---------------------------------------------------------------- addresses

  type ByAddress = map<string, set<nat>>

  /** Some contact of a company has the address. */
  ghost predicate Occurs(contacts: seq<Contact>, k: string, id: nat) { exists c | c in contacts :: c.company == id && HasAddress(c, k) }

  ghost predicate Indexed(contacts: seq<Contact>, m: ByAddress) {
    && (forall k, id :: k in m && id in m[k] <==> Occurs(contacts, k, id))
    && (forall k | k in m :: k != "" && m[k] != {})
  }

  function WithAddress(m: ByAddress, k: string, id: nat): ByAddress {
    if k == "" then m else m[k := (if k in m then m[k] else {}) + {id}]
  }

  lemma WithIs(m: ByAddress, k0: string, id0: nat, k: string, id: nat)
    ensures k in WithAddress(m, k0, id0) && id in WithAddress(m, k0, id0)[k] <==> (k in m && id in m[k]) || (k == k0 && id == id0 && k0 != "")
  {
  }

  lemma IndexedStep(contacts: seq<Contact>, m: ByAddress, c: Contact)
    requires Indexed(contacts, m)
    ensures Indexed(contacts + [c], WithAddress(WithAddress(WithAddress(m, c.e1, c.company), c.e2, c.company), c.e3, c.company))
  {
    var m1 := WithAddress(m, c.e1, c.company);
    var m2 := WithAddress(m1, c.e2, c.company);
    var r := WithAddress(m2, c.e3, c.company);
    forall k, id ensures k in r && id in r[k] <==> Occurs(contacts + [c], k, id) {
      WithIs(m, c.e1, c.company, k, id);
      WithIs(m1, c.e2, c.company, k, id);
      WithIs(m2, c.e3, c.company, k, id);
      assert Occurs(contacts + [c], k, id) <==> Occurs(contacts, k, id) || (c.company == id && HasAddress(c, k));
    }
  }

  /** The companies each address occurs on. */
  method CollectAddresses(contacts: seq<Contact>) returns (m: ByAddress)
    ensures Indexed(contacts, m)
  {
    m := map[];
    var i := 0;
    while i < |contacts|
      invariant 0 <= i <= |contacts| && Indexed(contacts[..i], m)
    {
      IndexedStep(contacts[..i], m, contacts[i]);
      assert contacts[..i + 1] == contacts[..i] + [contacts[i]];
      m := WithAddress(WithAddress(WithAddress(m, contacts[i].e1, contacts[i].company), contacts[i].e2, contacts[i].company), contacts[i].e3, contacts[i].company);
      i := i + 1;
    }
    assert contacts[..i] == contacts;
  }

  /** Contacts anywhere in the tenant with one of some addresses in one of the three fields. */
  function ByField(cs: seq<Contact>, f: nat, keys: set<string>): (r: seq<Contact>)
    ensures forall c :: c in r <==> c in cs && Field(c, f) in keys
  {
    if cs == [] then []
    else
      var front := ByField(cs[..|cs| - 1], f, keys);
      assert cs == cs[..|cs| - 1] + [cs[|cs| - 1]];
      if Field(cs[|cs| - 1], f) in keys then front + [cs[|cs| - 1]] else front
  }

  /** Everybody with one of these addresses; a full read refuses the preparation. */
  method ReadSameAddress(t: Tenant, keys: seq<string>) returns (ok: bool, same: seq<Contact>)
    ensures forall c | c in same :: c in t.contacts
    ensures ok ==> forall c, f: nat | c in t.contacts && f < 3 && Field(c, f) in keys :: c in same
  {
    same, ok := [], true;
    var f := 0;
    while f < 3
      invariant 0 <= f <= 3 && forall c | c in same :: c in t.contacts
      invariant forall c, g: nat | c in t.contacts && g < f && Field(c, g) in keys :: c in same
    {
      var more;
      ok, more := ReadField(t, f, keys);
      if !ok { return; }
      same := same + more;
      f := f + 1;
    }
  }

  method ReadField(t: Tenant, f: nat, keys: seq<string>) returns (ok: bool, found: seq<Contact>)
    ensures forall c | c in found :: c in t.contacts
    ensures ok ==> forall c | c in t.contacts && Field(c, f) in keys :: c in found
  {
    found, ok := [], true;
    var i := 0;
    while i < |keys|
      invariant 0 <= i <= |keys| && forall c | c in found :: c in t.contacts
      invariant forall c | c in t.contacts && Field(c, f) in keys[..i] :: c in found
    {
      var chunk := if i + CHUNK < |keys| then keys[i..i + CHUNK] else keys[i..];
      var page := ByField(t.contacts, f, set k | k in chunk);
      if |page| >= READ_CAP { return false, found; }
      found := found + page;
      assert keys[..i + |chunk|] == keys[..i] + chunk;
      i := i + |chunk|;
    }
    assert keys[..i] == keys;
  }

  /** Some of these people, with a ticket of theirs, has the address. */
  ghost predicate TicketedAmong(people: seq<Contact>, tickets: seq<nat>, k: string) {
    exists c | c in people :: c.id in tickets && HasAddress(c, k)
  }

  function Addresses(c: Contact): (s: set<string>)
    ensures forall k :: k in s <==> HasAddress(c, k)
  {
    {c.e1, c.e2, c.e3} - {""}
  }

  /** The addresses of everybody who has a ticket; a full read refuses the preparation. */
  method ReadTickets(t: Tenant, people: seq<Contact>) returns (ok: bool, ticketed: set<string>)
    ensures ok ==> forall k :: k in ticketed <==> TicketedAmong(people, t.tickets, k)
  {
    ticketed, ok := {}, true;
    var i := 0;
    while i < |people|
      invariant 0 <= i <= |people| && forall k :: k in ticketed <==> TicketedAmong(people[..i], t.tickets, k)
    {
      var chunk := if i + CHUNK < |people| then people[i..i + CHUNK] else people[i..];
      var rows := Hits(t.tickets, seq(|chunk|, j requires 0 <= j < |chunk| => chunk[j].id));
      if |rows| >= READ_CAP { return false, ticketed; }
      var found := OfRows(chunk, rows);
      RowsTell(chunk, t.tickets, rows);
      assert people[..i + |chunk|] == people[..i] + chunk;
      forall k ensures k in ticketed + found <==> TicketedAmong(people[..i + |chunk|], t.tickets, k) {
        assert TicketedAmong(people[..i + |chunk|], t.tickets, k) <==> TicketedAmong(people[..i], t.tickets, k) || TicketedAmong(chunk, t.tickets, k);
      }
      ticketed := ticketed + found;
      i := i + |chunk|;
    }
    assert people[..i] == people;
  }

  /** The addresses of the people ticket rows are for. */
  function OfRows(people: seq<Contact>, rows: seq<nat>): (s: set<string>)
    ensures forall k :: k in s <==> TicketedAmong(people, rows, k)
  {
    if people == [] then {}
    else
      var front, c := OfRows(people[..|people| - 1], rows), people[|people| - 1];
      assert people == people[..|people| - 1] + [c];
      if c.id in rows then front + Addresses(c) else front
  }

  lemma RowsTell(people: seq<Contact>, tickets: seq<nat>, rows: seq<nat>)
    requires forall id :: id in rows <==> id in tickets && id in seq(|people|, j requires 0 <= j < |people| => people[j].id)
    ensures forall k :: TicketedAmong(people, rows, k) <==> TicketedAmong(people, tickets, k)
  {
    forall k | TicketedAmong(people, tickets, k) ensures TicketedAmong(people, rows, k) {
      var c :| c in people && c.id in tickets && HasAddress(c, k);
      var j :| 0 <= j < |people| && people[j] == c;
      assert seq(|people|, j requires 0 <= j < |people| => people[j].id)[j] == c.id;
    }
  }

  // ---------------------------------------------------------------- the decision

  predicate Keeps(sel: Selector, ticketed: set<string>, k: string) { k in sel.keep || (k !in sel.junk && k in ticketed) }

  /** A kept address adds its reason to every company it occurs on. */
  method Decide(sel: Selector, m: ByAddress, keys: seq<string>, ticketed: set<string>, before: Why) returns (why: Why)
    requires forall k | k in keys :: k in m
    ensures forall id :: id in why <==> id in before || exists k | k in keys :: Keeps(sel, ticketed, k) && id in m[k]
  {
    why := before;
    var i := 0;
    while i < |keys|
      invariant 0 <= i <= |keys|
      invariant forall id :: id in why <==> id in before || exists k | k in keys[..i] :: Keeps(sel, ticketed, k) && id in m[k]
    {
      assert keys[..i + 1] == keys[..i] + [keys[i]];
      if Keeps(sel, ticketed, keys[i]) { why := AddAll(why, Ascending(m[keys[i]]), keys[i]); }
      i := i + 1;
    }
    assert keys[..i] == keys;
  }

  /** The addresses in some order. */
  method KeysOf(m: ByAddress) returns (keys: seq<string>)
    ensures forall k :: k in keys <==> k in m
  {
    keys := [];
    var todo := m.Keys;
    while todo != {}
      invariant forall k :: k in keys <==> k in m && k !in todo
      invariant todo <= m.Keys
      decreases |todo|
    {
      var k: string :| k in todo;
      keys, todo := keys + [k], todo - {k};
    }
  }

  /** Everything read about the selected companies tells exactly which of them it protects. */
  lemma WhyTells(t: Tenant, sel: Selector, contacts: seq<Contact>, m: ByAddress, same: seq<Contact>, ticketed: set<string>, id: nat)
    requires Indexed(contacts, m)
    requires forall c | c in contacts + same :: c in t.contacts
    requires forall c, f: nat | c in t.contacts && f < 3 && Field(c, f) in m :: c in same
    requires forall k :: k in ticketed <==> TicketedAmong(contacts + same, t.tickets, k)
    ensures (exists c, k | c in contacts && c.company == id && HasAddress(c, k) :: KeptAddress(t, sel, k))
       <==> exists k | k in m :: Keeps(sel, ticketed, k) && id in m[k]
  {
    forall k | k in m ensures Keeps(sel, ticketed, k) <==> KeptAddress(t, sel, k) {
      if Ticketed(t, k) {
        var c :| c in t.contacts && HasAddress(c, k) && c.id in t.tickets;
        assert Field(c, 0) == k || Field(c, 1) == k || Field(c, 2) == k;
        assert c in contacts + same;
      }
    }
    if exists c, k | c in contacts && c.company == id && HasAddress(c, k) :: KeptAddress(t, sel, k) {
      var c, k :| c in contacts && c.company == id && HasAddress(c, k) && KeptAddress(t, sel, k);
      assert Occurs(contacts, k, id);
    }
    if exists k | k in m :: Keeps(sel, ticketed, k) && id in m[k] {
      var k :| k in m && Keeps(sel, ticketed, k) && id in m[k];
      assert Occurs(contacts, k, id);
    }
  }

  /** Why each selected company is kept: exactly those the contacts read protect are, or nothing is prepared. */
  method Protect(t: Tenant, sel: Selector, ids: seq<nat>, contacts: seq<Contact>) returns (ok: bool, why: Why)
    requires forall c | c in contacts :: c in t.contacts && c.company in ids
    ensures ok ==> forall id | id in ids :: id in why <==> GuardedBy(t, sel, contacts, id)
    ensures ok && (forall c | c in t.contacts && c.company in ids :: c in contacts) ==> forall id | id in ids :: id in why <==> Guarded(t, sel, id)
  {
    ok, why := CheckHistory(t, ids);
    if !ok { return; }
    why := CheckNames(contacts, why);
    var m := CollectAddresses(contacts);
    var keys := KeysOf(m);
    var same, ticketed;
    ok, same := ReadSameAddress(t, keys);
    if !ok { return; }
    ok, ticketed := ReadTickets(t, contacts + same);
    if !ok { return; }
    why := Decide(sel, m, keys, ticketed, why);
    forall id | id in ids ensures id in why <==> GuardedBy(t, sel, contacts, id) {
      WhyTells(t, sel, contacts, m, same, ticketed, id);
    }
    if forall c | c in t.contacts && c.company in ids :: c in contacts {
      forall id | id in ids ensures id in why <==> Guarded(t, sel, id) { AllSeen(t, sel, contacts, id); }
    }
  }

  // ---------------------------------------------------------------- the items

  function ContactItem(ct: Contact): Item { Item(Key(Contacts, ct.id), Some(ct.company), Pending, 0) }

  function CompanyItem(c: Company, kept: bool): Item { Item(Key(Companies, c.id), None, if kept then Excluded else Pending, 0) }

  /** A company's active contacts, as items. */
  function ContactItems(id: nat, contacts: seq<Contact>): (r: seq<Item>)
    ensures forall x :: x in r <==> exists ct | ct in contacts :: ct.company == id && ct.active && x == ContactItem(ct)
  {
    if contacts == [] then []
    else
      var front, ct := ContactItems(id, contacts[..|contacts| - 1]), contacts[|contacts| - 1];
      assert contacts == contacts[..|contacts| - 1] + [ct];
      if ct.company == id && ct.active then front + [ContactItem(ct)] else front
  }

  /** The items of one company: kept, or its active contacts and then itself when it is active. */
  function CompanyItems(c: Company, contacts: seq<Contact>, kept: bool, withContacts: bool): seq<Item> {
    if kept then [CompanyItem(c, true)]
    else (if withContacts then ContactItems(c.id, contacts) else []) + if c.active then [CompanyItem(c, false)] else []
  }

  method ItemsOf(c: Company, contacts: seq<Contact>, kept: bool, withContacts: bool) returns (items: seq<Item>)
    ensures items == CompanyItems(c, contacts, kept, withContacts)
  {
    if kept { return [CompanyItem(c, true)]; }
    items := [];
    var i := 0;
    while withContacts && i < |contacts|
      invariant 0 <= i <= |contacts| && items == if withContacts then ContactItems(c.id, contacts[..i]) else []
    {
      assert contacts[..i + 1][..i] == contacts[..i];
      if contacts[i].company == c.id && contacts[i].active { items := items + [ContactItem(contacts[i])]; }
      i := i + 1;
    }
    assert withContacts ==> contacts[..i] == contacts;
    if c.active { items := items + [CompanyItem(c, false)]; }
  }

  /** How the selected companies were counted. */
  datatype Stats = Stats(excluded: nat, written: nat, inactive: nat)

  predicate Among(companies: seq<Company>, id: nat) { exists c | c in companies :: c.id == id }

  /** Kept companies appear only as excluded; everything to be written belongs to a company that is not kept. */
  predicate ItemOk(companies: seq<Company>, why: set<nat>, x: Item) {
    && x.attempts == 0
    && match x.key.entity
       case Companies => Among(companies, x.key.record) && x.status == if x.key.record in why then Excluded else Pending
       case Contacts => x.status == Pending && x.parent.Some? && Among(companies, x.parent.value) && x.parent.value !in why
  }

  ghost predicate ItemsOk(companies: seq<Company>, why: set<nat>, items: seq<Item>) { forall x | x in items :: ItemOk(companies, why, x) }

  predicate Listed(items: seq<Item>, id: nat) { exists x | x in items :: x.key == Key(Companies, id) }

  /** A company's own items: contacts of its own first, then at most the company. */
  lemma OwnItems(c: Company, contacts: seq<Contact>, why: set<nat>, withContacts: bool)
    ensures var more := CompanyItems(c, contacts, c.id in why, withContacts);
            && (forall k | 0 <= k < |more| && more[k].key.entity == Contacts :: more[k].parent == Some(c.id))
            && (forall k | 0 <= k < |more| && more[k].key.entity == Companies :: k == |more| - 1 && more[k].key.record == c.id)
  {
    var all := ContactItems(c.id, contacts);
    forall k | 0 <= k < |all| ensures all[k].key.entity == Contacts && all[k].parent == Some(c.id) { assert all[k] in all; }
  }

  /** They keep the order: earlier companies have no contacts among them, and earlier contacts another company. */
  lemma OrderStep(companies: seq<Company>, contacts: seq<Contact>, why: set<nat>, items: seq<Item>, c: Company, withContacts: bool)
    requires ItemsOk(companies, why, items) && ContactsFirst(items) && !Among(companies, c.id)
    ensures ContactsFirst(items + CompanyItems(c, contacts, c.id in why, withContacts))
  {
    var more := CompanyItems(c, contacts, c.id in why, withContacts);
    OwnItems(c, contacts, why, withContacts);
    forall k | 0 <= k < |items| ensures ItemOk(companies, why, items[k]) { assert items[k] in items; }
  }

  lemma ListedStep(companies: seq<Company>, contacts: seq<Contact>, why: set<nat>, items: seq<Item>, c: Company, withContacts: bool)
    requires ItemsOk(companies, why, items) && !Among(companies, c.id)
    requires forall d | d in companies :: Listed(items, d.id) <==> d.id in why || d.active
    ensures var all := items + CompanyItems(c, contacts, c.id in why, withContacts);
            && ItemsOk(companies + [c], why, all)
            && forall d | d in companies + [c] :: Listed(all, d.id) <==> d.id in why || d.active
  {
  }

  /** A contact's item is there for exactly the active contacts of companies that are not kept. */
  predicate Clears(companies: seq<Company>, why: set<nat>, ct: Contact, x: Item) {
    ct.active && Among(companies, ct.company) && ct.company !in why && x == ContactItem(ct)
  }

  ghost predicate ContactsListed(companies: seq<Company>, contacts: seq<Contact>, why: set<nat>, items: seq<Item>, withContacts: bool) {
    forall x :: x in items && x.key.entity == Contacts <==> withContacts && exists ct | ct in contacts :: Clears(companies, why, ct, x)
  }

  lemma ContactsStep(companies: seq<Company>, contacts: seq<Contact>, why: set<nat>, items: seq<Item>, c: Company, withContacts: bool)
    requires ContactsListed(companies, contacts, why, items, withContacts)
    ensures ContactsListed(companies + [c], contacts, why, items + CompanyItems(c, contacts, c.id in why, withContacts), withContacts)
  {
    var more := CompanyItems(c, contacts, c.id in why, withContacts);
    forall id: nat ensures Among(companies + [c], id) <==> Among(companies, id) || id == c.id {
      if Among(companies, id) { var d :| d in companies && d.id == id; assert d in companies + [c]; }
      assert c in companies + [c];
    }
    forall x ensures x in more && x.key.entity == Contacts <==>
                     withContacts && c.id !in why && exists ct | ct in contacts :: ct.company == c.id && ct.active && x == ContactItem(ct) {
      assert x in ContactItems(c.id, contacts) <==> exists ct | ct in contacts :: ct.company == c.id && ct.active && x == ContactItem(ct);
    }
    forall x ensures x in items + more && x.key.entity == Contacts <==> withContacts && exists ct | ct in contacts :: Clears(companies + [c], why, ct, x) {
      assert (exists ct | ct in contacts :: Clears(companies + [c], why, ct, x)) <==>
             || (exists ct | ct in contacts :: Clears(companies, why, ct, x))
             || (c.id !in why && exists ct | ct in contacts :: ct.company == c.id && ct.active && x == ContactItem(ct));
    }
  }

  /** Some companies done: their items are in order, right, and complete. */
  ghost predicate Built(companies: seq<Company>, contacts: seq<Contact>, why: set<nat>, items: seq<Item>, withContacts: bool) {
    && ItemsOk(companies, why, items) && ContactsFirst(items) && ContactsListed(companies, contacts, why, items, withContacts)
    && forall c | c in companies :: Listed(items, c.id) <==> c.id in why || c.active
  }

  lemma BuildStep(companies: seq<Company>, contacts: seq<Contact>, why: set<nat>, items: seq<Item>, c: Company, withContacts: bool)
    requires Built(companies, contacts, why, items, withContacts) && !Among(companies, c.id)
    ensures Built(companies + [c], contacts, why, items + CompanyItems(c, contacts, c.id in why, withContacts), withContacts)
  {
    OrderStep(companies, contacts, why, items, c, withContacts);
    ListedStep(companies, contacts, why, items, c, withContacts);
    ContactsStep(companies, contacts, why, items, c, withContacts);
  }

  /** What becomes of a selected company. */
  datatype Fate = Kept | ToWrite | AlreadyInactive

  function FateOf(c: Company, why: set<nat>): Fate { if c.id in why then Kept else if c.active then ToWrite else AlreadyInactive }

  function Fated(companies: seq<Company>, why: set<nat>, f: Fate): set<Company> { set c | c in companies && FateOf(c, why) == f }

  function Counted(stats: Stats, c: Company, kept: bool): Stats {
    if kept then stats.(excluded := stats.excluded + 1)
    else if c.active then stats.(written := stats.written + 1) else stats.(inactive := stats.inactive + 1)
  }

  lemma FatedStep(companies: seq<Company>, why: set<nat>, c: Company, f: Fate)
    requires c !in companies
    ensures |Fated(companies + [c], why, f)| == |Fated(companies, why, f)| + if FateOf(c, why) == f then 1 else 0
  {
    var was := Fated(companies, why, f);
    assert c !in was;
    forall d ensures d in companies + [c] <==> d in companies || d == c {}
    assert Fated(companies + [c], why, f) == was + if FateOf(c, why) == f then {c} else {};
  }

  function CountOf(s: Stats, f: Fate): nat {
    match f
    case Kept => s.excluded
    case ToWrite => s.written
    case AlreadyInactive => s.inactive
  }

  function AllItems(companies: seq<Company>, contacts: seq<Contact>, why: set<nat>, withContacts: bool): seq<Item> {
    if companies == [] then []
    else
      var c := companies[|companies| - 1];
      AllItems(companies[..|companies| - 1], contacts, why, withContacts) + CompanyItems(c, contacts, c.id in why, withContacts)
  }

  function AllCounted(companies: seq<Company>, why: set<nat>): Stats {
    if companies == [] then Stats(0, 0, 0)
    else
      var c := companies[|companies| - 1];
      Counted(AllCounted(companies[..|companies| - 1], why), c, c.id in why)
  }

  predicate ById(companies: seq<Company>) { forall i, j | 0 <= i < j < |companies| :: companies[i].id < companies[j].id }

  lemma {:induction false} AllBuilt(companies: seq<Company>, contacts: seq<Contact>, why: set<nat>, withContacts: bool)
    requires ById(companies)
    ensures Built(companies, contacts, why, AllItems(companies, contacts, why, withContacts), withContacts)
    decreases |companies|
  {
    if companies != [] {
      var front, c := companies[..|companies| - 1], companies[|companies| - 1];
      AllBuilt(front, contacts, why, withContacts);
      BuildStep(front, contacts, why, AllItems(front, contacts, why, withContacts), c, withContacts);
      assert companies == front + [c];
    }
  }

  lemma {:induction false} CountIs(companies: seq<Company>, why: set<nat>, f: Fate)
    requires ById(companies)
    ensures CountOf(AllCounted(companies, why), f) == |Fated(companies, why, f)|
    decreases |companies|
  {
    if companies != [] {
      var front, c := companies[..|companies| - 1], companies[|companies| - 1];
      CountIs(front, why, f);
      FatedStep(front, why, c, f);
      assert companies == front + [c];
    }
  }

  lemma {:induction false} EachOnce(companies: seq<Company>, why: set<nat>)
    ensures var s := AllCounted(companies, why); s.excluded + s.written + s.inactive == |companies|
    decreases |companies|
  {
    if companies != [] { EachOnce(companies[..|companies| - 1], why); }
  }

  /** The items of companies in ascending id order: each company counted once, its contacts before it. */
  method BuildItems(companies: seq<Company>, contacts: seq<Contact>, why: set<nat>, withContacts: bool) returns (items: seq<Item>, stats: Stats)
    requires ById(companies)
    ensures Built(companies, contacts, why, items, withContacts)
    ensures forall f: Fate :: CountOf(stats, f) == |Fated(companies, why, f)|
    ensures stats.excluded + stats.written + stats.inactive == |companies|
  {
    items, stats := [], Stats(0, 0, 0);
    var i := 0;
    while i < |companies|
      invariant 0 <= i <= |companies|
      invariant items == AllItems(companies[..i], contacts, why, withContacts) && stats == AllCounted(companies[..i], why)
    {
      var more := ItemsOf(companies[i], contacts, companies[i].id in why, withContacts);
      assert companies[..i + 1][..i] == companies[..i];
      items, stats := items + more, Counted(stats, companies[i], companies[i].id in why);
      i := i + 1;
    }
    assert companies[..i] == companies;
    AllBuilt(companies, contacts, why, withContacts);
    forall f: Fate ensures CountOf(stats, f) == |Fated(companies, why, f)| { CountIs(companies, why, f); }
    EachOnce(companies, why);
  }

  /** Exactly the right things are to be written, by the contacts seen: nothing of a protected company, everything active of the others. */
  ghost predicate Cleans(t: Tenant, sel: Selector, seen: seq<Contact>, companies: seq<Company>, items: seq<Item>, withContacts: bool) {
    && (forall x | x in items && x.key.entity == Companies ::
          Among(companies, x.key.record) && x.status == if GuardedBy(t, sel, seen, x.key.record) then Excluded else Pending)
    && (forall c | c in companies :: Listed(items, c.id) <==> GuardedBy(t, sel, seen, c.id) || c.active)
    && (forall x | x in items && x.key.entity == Contacts :: x.status == Pending && exists ct | ct in seen :: ClearsOf(t, sel, seen, companies, ct, x))
    && (withContacts ==> forall ct | ct in seen && ClearsOf(t, sel, seen, companies, ct, ContactItem(ct)) :: ContactItem(ct) in items)
  }

  ghost predicate ClearsOf(t: Tenant, sel: Selector, seen: seq<Contact>, companies: seq<Company>, ct: Contact, x: Item) {
    ct.active && Among(companies, ct.company) && !GuardedBy(t, sel, seen, ct.company) && x == ContactItem(ct)
  }

  ghost function ProtectedOf(t: Tenant, sel: Selector, seen: seq<Contact>, companies: seq<Company>): set<Company> {
    set c | c in companies && GuardedBy(t, sel, seen, c.id)
  }

  lemma BuiltCleans(t: Tenant, sel: Selector, companies: seq<Company>, seen: seq<Contact>, why: set<nat>, items: seq<Item>, withContacts: bool)
    requires Built(companies, seen, why, items, withContacts)
    requires forall id | Among(companies, id) :: id in why <==> GuardedBy(t, sel, seen, id)
    ensures Cleans(t, sel, seen, companies, items, withContacts)
  {
    forall x | x in items ensures ItemOk(companies, why, x) {}
    forall x | x in items && x.key.entity == Contacts ensures exists ct | ct in seen :: ClearsOf(t, sel, seen, companies, ct, x) {
      var ct :| ct in seen && Clears(companies, why, ct, x);
      assert ClearsOf(t, sel, seen, companies, ct, x);
    }
    if withContacts {
      forall ct | ct in seen && ClearsOf(t, sel, seen, companies, ct, ContactItem(ct)) ensures ContactItem(ct) in items {
        assert Clears(companies, why, ct, ContactItem(ct));
      }
    }
    forall c | c in companies ensures Among(companies, c.id) {}
  }

  /** While no read of contacts is cut, the contacts seen are all there are. */
  ghost predicate SeenAll(t: Tenant, seen: seq<Contact>, companies: seq<Company>) {
    && (forall c | c in seen :: c in t.contacts && Among(companies, c.company))
    && (forall c | c in t.contacts && Among(companies, c.company) :: c in seen)
  }

  /** Then what is seen as protected is exactly what is. */
  lemma SeenTells(t: Tenant, sel: Selector, seen: seq<Contact>, companies: seq<Company>, id: nat)
    requires SeenAll(t, seen, companies) && Among(companies, id)
    ensures GuardedBy(t, sel, seen, id) <==> Guarded(t, sel, id)
  {
    AllSeen(t, sel, seen, id);
  }

  /**
   * The whole preparation: nothing when a selected company is no placeholder or a checked read came back full; else
   * items that leave every company alone that the contacts seen protect, and count each selected company once. While
   * no read of contacts is cut, the contacts seen are all there are.
   */
  method Prepare(t: Tenant, sel: Selector, companies: seq<Company>, withContacts: bool) returns (ok: bool, items: seq<Item>, stats: Stats)
    requires ById(companies)
    ensures ok ==> forall c | c in companies :: c.placeholder
    ensures ok ==> ContactsFirst(items) && stats.excluded + stats.written + stats.inactive == |companies|
    ensures ok ==> var seen := ReadFrom(t, Ids(companies), 0);
                   && Cleans(t, sel, seen, companies, items, withContacts) && stats.excluded == |ProtectedOf(t, sel, seen, companies)|
                   && (UnderCap(t, Ids(companies)) ==> SeenAll(t, seen, companies))
    ensures forall x | x in items :: x.status == Pending || x.status == Excluded
  {
    items, stats := [], Stats(0, 0, 0);
    ok := forall c | c in companies :: c.placeholder;
    if !ok { return; }
    var ids := Ids(companies);
    var contacts := ReadContacts(t, ids);
    var why;
    ok, why := Protect(t, sel, ids, contacts);
    if !ok { return; }
    items, stats := BuildItems(companies, contacts, why.Keys, withContacts);
    forall x | x in items ensures ItemOk(companies, why.Keys, x) && (x.status == Pending || x.status == Excluded) {}
    AmongIds(companies);
    assert Fated(companies, why.Keys, Kept) == ProtectedOf(t, sel, contacts, companies);
    assert stats.excluded == CountOf(stats, Kept);
    BuiltCleans(t, sel, companies, contacts, why.Keys, items, withContacts);
  }

  lemma AmongIds(companies: seq<Company>)
    ensures forall id :: id in Ids(companies) <==> Among(companies, id)
    ensures forall c | c in companies :: Among(companies, c.id)
  {
    var ids := Ids(companies);
    forall id | Among(companies, id) ensures id in ids {
      var k :| 0 <= k < |companies| && companies[k].id == id;
      assert ids[k] == id;
    }
    forall id | id in ids ensures Among(companies, id) {
      var k :| 0 <= k < |ids| && ids[k] == id;
      assert companies[k] in companies;
    }
  }

  // ---------------------------------------------------------------- when a read of contacts is cut

  /** The contacts of one company that a read returns are placeholders without an address, and a real person is beyond the cap. */
  ghost predicate HidesPerson(t: Tenant, id: nat) {
    var all := OfCompanies(t.contacts, [id]);
    && |all| > READ_CAP && !HasHistory(t, id)
    && (forall i | 0 <= i < READ_CAP :: all[i].placeholder && all[i].e1 == all[i].e2 == all[i].e3 == "")
    && exists i | READ_CAP <= i < |all| :: !all[i].placeholder
  }

  /** Such a company is protected, and any preparation of it lists it to be written all the same. */
  lemma CapHidesAPerson(t: Tenant, sel: Selector, c: Company, items: seq<Item>, withContacts: bool)
    requires HidesPerson(t, c.id) && c.active && Cleans(t, sel, ReadFrom(t, Ids([c]), 0), [c], items, withContacts)
    ensures Guarded(t, sel, c.id) && exists x | x in items :: x.key == Key(Companies, c.id) && x.status == Pending
  {
    var ids, all := Ids([c]), OfCompanies(t.contacts, [c.id]);
    assert ids == [c.id] && ChunkAt(ids, 0) == ids;
    var seen := ReadFrom(t, ids, 0);
    assert seen == Taken(all) + ReadFrom(t, ids, 1);
    assert seen == all[..READ_CAP];
    forall p | p in seen ensures p.placeholder && forall k :: !HasAddress(p, k) {
      var i :| 0 <= i < |seen| && seen[i] == p;
      assert p == all[i];
    }
    var i :| READ_CAP <= i < |all| && !all[i].placeholder;
    assert all[i] in all;
    assert c in [c];
    var x :| x in items && x.key == Key(Companies, c.id);
  }

  function Ids(companies: seq<Company>): (ids: seq<nat>)
    ensures |ids| == |companies| && forall i | 0 <= i < |ids| :: ids[i] == companies[i].id
  {
    seq(|companies|, i requires 0 <= i < |companies| => companies[i].id)
  }
}
