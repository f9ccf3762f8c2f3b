/** An order as a change plan: company, users, contract, services, delivery tickets and charges, each row pointing back. */
module OrderPlans {
  import opened Base
  import opened ChangePlans

  datatype Customer = Existing(id: int) | NewCompany(name: string)

  /**
   * A quoted line and what its offering says: how it is delivered, what it bills, and the fields of its own it puts on
   * the contract and on a charge, over what the order says.
   */
  datatype Line = Line(recurring: bool, quantity: nat, price: nat, service: int, billingCode: int, delivered: bool, contract: Fields, charge: Fields)

  datatype Order = Order(customer: Customer, contacts: seq<string>, lines: seq<Line>, contract: Option<int>, start: int)

  /** The entity whose id belongs in a field. */
  function EntityFor(field: string): string {
    if field == "companyID" then "Companies"
    else if field == "contactID" then "Contacts"
    else if field == "contractID" then "Contracts"
    else "Tickets"
  }

  function NewRow(entity: string, after: Fields, refs: map<string, int>, blocked: bool): Row {
    Row(Create, entity, None, None, Some(after), blocked, [], refs, Pending, NO_RESULT)
  }

  /** Row i may refer to row number n for a field: an earlier row creating that very entity. */
  predicate RefOk(rows: seq<Row>, i: nat, field: string, n: int) {
    1 <= n <= i && n <= |rows| && rows[n - 1].action == Create && rows[n - 1].entity == EntityFor(field)
  }

  /** A field is given, or filled from an earlier row. */
  predicate Has(r: Row, field: string) { field in After(r) || field in r.refs }

  /** What each kind of row cannot be created without. */
  predicate Linked(r: Row) {
    && (r.entity == "Contacts" || r.entity == "Contracts" || r.entity == "Tickets" ==> Has(r, "companyID"))
    && (r.entity == "ContractServiceAdjustments" ==> Has(r, "contractID"))
    && (r.entity == "TicketCharges" ==> "ticketID" in r.refs)
  }

  /** A row that creates something new, with what it cannot be created without. */
  predicate Creates(r: Row) { r.action == Create && r.deps == [] && r.before.None? && r.result == NO_RESULT && Linked(r) }

  ghost predicate RowOk(rows: seq<Row>, i: nat) {
    && i < |rows| && Creates(rows[i])
    && forall f | f in rows[i].refs :: RefOk(rows, i, f, rows[i].refs[f])
  }

  /** Every reference of an order plan points at an earlier row that creates the right thing, and nothing dangles. */
  ghost predicate Sound(rows: seq<Row>) {
    forall i: nat | i < |rows| :: RowOk(rows, i)
  }

  predicate Truthy(v: Value) { v != Null && v != Flag(false) && v != Num(0) }

  /** So many units at a price, when the company is billed for them. */
  function Product(quantity: Value, price: Value, billable: Value): int {
    if Truthy(billable) && quantity.Num? && price.Num? then quantity.n * price.n else 0
  }

  /** What a row bills. */
  function Amount(r: Row): int {
    var a := After(r);
    if r.entity == "ContractServiceAdjustments" then Product(Get(a, "unitChange"), Get(a, "adjustedUnitPrice"), Flag(true))
    else if r.entity == "TicketCharges" then Product(Get(a, "unitQuantity"), Get(a, "unitPrice"), Get(a, "isBillableToCompany"))
    else 0
  }

  function Billed(rows: seq<Row>): int {
    if rows == [] then 0 else Billed(rows[..|rows| - 1]) + Amount(rows[|rows| - 1])
  }

  /** The quote: the recurring lines, and what they come to. */
  function RecurringOf(lines: seq<Line>): (r: seq<Line>)
    ensures forall l | l in r :: l.recurring
  {
    if lines == [] then []
    else RecurringOf(lines[..|lines| - 1]) + if lines[|lines| - 1].recurring then [lines[|lines| - 1]] else []
  }

  function Total(lines: seq<Line>): int {
    if lines == [] then 0 else Total(lines[..|lines| - 1]) + lines[|lines| - 1].quantity * lines[|lines| - 1].price
  }

  /** One-time lines that have a delivery ticket to be charged on. */
  function Charged(lines: seq<Line>): seq<Line> {
    if lines == [] then []
    else
      var l := lines[|lines| - 1];
      if !l.recurring && l.delivered then Charged(lines[..|lines| - 1]) + [l] else Charged(lines[..|lines| - 1])
  }

  /** What the offering puts in a field of its charge, or else what the order says. */
  function Effective(l: Line, field: string, quoted: Value): Value { if field in l.charge then Get(l.charge, field) else quoted }

  /** What a line's charge bills: the offering's own quantity, price and billing over the quoted ones. */
  function Charge(l: Line): int {
    Product(Effective(l, "unitQuantity", Num(l.quantity)), Effective(l, "unitPrice", Num(l.price)), Effective(l, "isBillableToCompany", Flag(true)))
  }

  function Charges(lines: seq<Line>): int {
    if lines == [] then 0 else Charges(lines[..|lines| - 1]) + Charge(lines[|lines| - 1])
  }

  /** The offering leaves quantity, price and billing of the charge to the order. */
  predicate AsQuoted(l: Line) { "unitQuantity" !in l.charge && "unitPrice" !in l.charge && "isBillableToCompany" !in l.charge }

  /** Then charges bill what was quoted. */
  lemma {:induction false} ChargesAsQuoted(lines: seq<Line>)
    requires forall l | l in lines :: AsQuoted(l)
    ensures Charges(lines) == Total(lines)
    decreases |lines|
  {
    if lines != [] {
      assert AsQuoted(lines[|lines| - 1]);
      ChargesAsQuoted(lines[..|lines| - 1]);
    }
  }

  lemma TotalSnoc(lines: seq<Line>, l: Line)
    ensures Total(lines + [l]) == Total(lines) + l.quantity * l.price
    ensures Charges(lines + [l]) == Charges(lines) + Charge(l)
  {
    assert (lines + [l])[..|lines|] == lines;
  }

  lemma RowOkMore(rows: seq<Row>, r: Row, i: nat)
    requires RowOk(rows, i)
    ensures RowOk(rows + [r], i)
  {
    forall f | f in rows[i].refs ensures RefOk(rows + [r], i, f, rows[i].refs[f]) { assert RefOk(rows, i, f, rows[i].refs[f]); }
  }

  lemma RowOkLast(rows: seq<Row>, r: Row)
    requires Creates(r) && forall f | f in r.refs :: RefOk(rows, |rows|, f, r.refs[f])
    ensures RowOk(rows + [r], |rows|)
  {
    forall f | f in r.refs ensures RefOk(rows + [r], |rows|, f, r.refs[f]) { assert RefOk(rows, |rows|, f, r.refs[f]); }
  }

  lemma Pushed(rows: seq<Row>, r: Row)
    requires Sound(rows) && Creates(r)
    requires forall f | f in r.refs :: RefOk(rows, |rows|, f, r.refs[f])
    ensures Sound(rows + [r]) && Billed(rows + [r]) == Billed(rows) + Amount(r)
  {
    assert (rows + [r])[..|rows|] == rows;
    forall i: nat | i < |rows| + 1 ensures RowOk(rows + [r], i) {
      if i < |rows| { RowOkMore(rows, r, i); } else { RowOkLast(rows, r); }
    }
  }

  /** The fixed company id, or a reference to the row that creates it. */
  function CompanyFields(o: Order): Fields {
    if o.customer.Existing? then map["companyID" := Num(o.customer.id)] else map[]
  }

  function CompanyRefs(o: Order): map<string, int> { if o.customer.Existing? then map[] else map["companyID" := 1] }

  /** The first row of a new customer's plan creates the company. */
  predicate Started(o: Order, rows: seq<Row>) {
    o.customer.NewCompany? ==> |rows| > 0 && rows[0].action == Create && rows[0].entity == "Companies"
  }

  /** One more row. */
  method Add(rows: seq<Row>, r: Row) returns (more: seq<Row>)
    requires Sound(rows) && Creates(r)
    requires forall f | f in r.refs :: RefOk(rows, |rows|, f, r.refs[f])
    ensures more == rows + [r] && Sound(more) && Billed(more) == Billed(rows) + Amount(r)
  {
    Pushed(rows, r);
    more := rows + [r];
  }

  /** A new customer's company and the primary contact, as references. */
  function PartyRefs(o: Order, primary: Option<int>): map<string, int> {
    CompanyRefs(o) + if primary.Some? then map["contactID" := primary.value] else map[]
  }

  ghost predicate Party(o: Order, rows: seq<Row>, primary: Option<int>) {
    Sound(rows) && Started(o, rows) && (primary.Some? ==> RefOk(rows, |rows|, "contactID", primary.value))
  }

  lemma PartyOk(o: Order, rows: seq<Row>, primary: Option<int>)
    requires Party(o, rows, primary)
    ensures forall f | f in PartyRefs(o, primary) :: RefOk(rows, |rows|, f, PartyRefs(o, primary)[f])
  {
  }

  /** A user's row; the first one is the company's primary contact. */
  function ContactRow(o: Order, i: nat): Row
    requires i < |o.contacts|
  {
    NewRow("Contacts", CompanyFields(o) + (if i == 0 then map["primaryContact" := Flag(true)] else map[]) + map["emailAddress" := Text(o.contacts[i])], CompanyRefs(o), false)
  }

  /** Rows before the first contact's: the company's, when it is new. */
  function Ahead(o: Order): nat { if o.customer.NewCompany? then 1 else 0 }

  /** The company, when it is new, then the first n users. */
  ghost predicate People(o: Order, rows: seq<Row>, n: nat) {
    && n <= |o.contacts| && |rows| == n + Ahead(o)
    && (o.customer.NewCompany? ==> rows[0].entity == "Companies" && After(rows[0]) == map["companyName" := Text(o.customer.name)])
    && forall i: nat | i < n :: rows[i + Ahead(o)] == ContactRow(o, i)
  }

  lemma PrimaryOk(o: Order, rows: seq<Row>, n: nat)
    requires People(o, rows, n) && n > 0
    ensures RefOk(rows, |rows|, "contactID", Ahead(o) + 1)
  {
    assert rows[0 + Ahead(o)] == ContactRow(o, 0);
  }

  /** The company, when it is new. */
  method AddCompany(o: Order) returns (rows: seq<Row>)
    ensures Party(o, rows, None) && People(o, rows, 0) && Billed(rows) == 0
  {
    rows := [];
    if o.customer.NewCompany? {
      rows := Add(rows, NewRow("Companies", map["companyName" := Text(o.customer.name)], map[], false));
    }
  }

  /** One user of the customer's company. */
  method AddContact(o: Order, before: seq<Row>, i: nat) returns (rows: seq<Row>)
    requires i < |o.contacts| && Party(o, before, None) && People(o, before, i)
    ensures Party(o, rows, None) && People(o, rows, i + 1) && Billed(rows) == Billed(before)
  {
    PartyOk(o, before, None);
    assert PartyRefs(o, None) == CompanyRefs(o);
    rows := Add(before, ContactRow(o, i));
  }

  /** The company, when it is new, then its users; the first one is the primary contact. */
  method AddPeople(o: Order) returns (rows: seq<Row>, primary: Option<int>)
    ensures Party(o, rows, primary) && People(o, rows, |o.contacts|) && Billed(rows) == 0
    ensures primary == if o.contacts == [] then None else Some(Ahead(o) + 1)
  {
    primary := None;
    rows := AddCompany(o);
    var i := 0;
    while i < |o.contacts|
      invariant 0 <= i <= |o.contacts| && Party(o, rows, None) && People(o, rows, i) && Billed(rows) == 0
      invariant primary == if i == 0 then None else Some(Ahead(o) + 1)
    {
      rows := AddContact(o, rows, i);
      if i == 0 { primary := Some(|rows|); }
      i := i + 1;
    }
    if i > 0 { PrimaryOk(o, rows, i); }
  }

  /** The contract, with the offering's own fields over the order's; it waits for a category when none is given. */
  function ContractRow(o: Order, primary: Option<int>, first: Line): Row {
    var after := CompanyFields(o)["startDate" := Day(o.start)] + first.contract;
    NewRow("Contracts", after, PartyRefs(o, primary), "contractCategory" !in after || after["contractCategory"] == Null)
  }

  /** A recurring contract, when the order has recurring lines and names no contract. */
  method AddContract(o: Order, before: seq<Row>, primary: Option<int>) returns (rows: seq<Row>, contract: Option<int>)
    requires Party(o, before, primary)
    ensures Party(o, rows, primary) && Billed(rows) == Billed(before)
    ensures contract.Some? <==> RecurringOf(o.lines) != [] && o.contract.None?
    ensures contract.Some? ==> RefOk(rows, |rows|, "contractID", contract.value)
  {
    rows, contract := before, None;
    var recurring := RecurringOf(o.lines);
    if recurring != [] && o.contract.None? {
      PartyOk(o, rows, primary);
      rows := Add(rows, ContractRow(o, primary, recurring[0]));
      contract := Some(|rows|);
    }
  }

  function ServiceRow(o: Order, l: Line, contract: Option<int>): Row
    requires contract.Some? || o.contract.Some?
  {
    var fixed: Fields := if contract.None? then map["contractID" := Num(o.contract.value)] else map[];
    NewRow("ContractServiceAdjustments",
           fixed + map["serviceID" := Num(l.service), "unitChange" := Num(l.quantity), "adjustedUnitPrice" := Num(l.price), "effectiveDate" := Day(o.start)],
           if contract.Some? then map["contractID" := contract.value] else map[], false)
  }

  lemma ServiceBills(o: Order, l: Line, contract: Option<int>)
    requires contract.Some? || o.contract.Some?
    ensures Linked(ServiceRow(o, l, contract)) && Amount(ServiceRow(o, l, contract)) == l.quantity * l.price
  {
    var a := After(ServiceRow(o, l, contract));
    assert a["unitChange"] == Num(l.quantity) && a["adjustedUnitPrice"] == Num(l.price);
  }

  /** The contract recurring lines go on: the order's own, or an earlier row's. */
  ghost predicate OnContract(o: Order, rows: seq<Row>, contract: Option<int>) {
    if contract.Some? then RefOk(rows, |rows|, "contractID", contract.value) else o.contract.Some?
  }

  method AddService(o: Order, before: seq<Row>, primary: Option<int>, contract: Option<int>, l: Line) returns (rows: seq<Row>)
    requires Party(o, before, primary) && OnContract(o, before, contract)
    ensures Party(o, rows, primary) && OnContract(o, rows, contract)
    ensures Billed(rows) == Billed(before) + l.quantity * l.price
  {
    ServiceBills(o, l, contract);
    rows := Add(before, ServiceRow(o, l, contract));
  }

  /** A service row per recurring line, on the order's contract. */
  method AddServices(o: Order, before: seq<Row>, primary: Option<int>) returns (rows: seq<Row>)
    requires Party(o, before, primary)
    ensures Party(o, rows, primary) && Billed(rows) == Billed(before) + Total(RecurringOf(o.lines))
  {
    var recurring := RecurringOf(o.lines);
    var contract;
    rows, contract := AddContract(o, before, primary);
    var i := 0;
    while i < |recurring|
      invariant 0 <= i <= |recurring| && Party(o, rows, primary)
      invariant Billed(rows) == Billed(before) + Total(recurring[..i])
      invariant recurring != [] ==> OnContract(o, rows, contract)
    {
      assert recurring[..i + 1] == recurring[..i] + [recurring[i]];
      TotalSnoc(recurring[..i], recurring[i]);
      rows := AddService(o, rows, primary, contract, recurring[i]);
      i := i + 1;
    }
    assert recurring[..i] == recurring;
  }

  function TicketRow(o: Order, primary: Option<int>): Row {
    NewRow("Tickets", CompanyFields(o)["status" := Num(1)], PartyRefs(o, primary), false)
  }

  function ChargeRow(l: Line, ticket: int): Row {
    NewRow("TicketCharges",
           map["billingCodeID" := Num(l.billingCode), "unitQuantity" := Num(l.quantity), "unitPrice" := Num(l.price), "isBillableToCompany" := Flag(true)] + l.charge,
           map["ticketID" := ticket], false)
  }

  lemma ChargeBills(l: Line, ticket: int)
    ensures Linked(ChargeRow(l, ticket)) && Amount(ChargeRow(l, ticket)) == Charge(l)
  {
    var a := After(ChargeRow(l, ticket));
    forall f, quoted | f in a && (f !in l.charge ==> a[f] == quoted) && Norm(quoted) == quoted ensures Get(a, f) == Effective(l, f, quoted) {}
  }

  /** A charge bills what was quoted if and only if its effective quantity, price and billing come to that. */
  lemma ChargeExactly(l: Line, ticket: int)
    ensures var r, quoted := ChargeRow(l, ticket), l.quantity * l.price;
            var q, p := Effective(l, "unitQuantity", Num(l.quantity)), Effective(l, "unitPrice", Num(l.price));
            var counted := Truthy(Effective(l, "isBillableToCompany", Flag(true))) && q.Num? && p.Num?;
            Amount(r) == quoted <==> if counted then q.n * p.n == quoted else quoted == 0
  {
    ChargeBills(l, ticket);
  }

  lemma MulLess(q: nat, a: int, b: int)
    requires q > 0 && a < b
    ensures q * a < q * b
  {
  }

  /** It need not: an offering with a unit price of its own bills that one, whatever the quote shows. */
  lemma OwnPriceBills(l: Line, price: int, ticket: int)
    requires l.charge == map["unitPrice" := Num(price)]
    ensures Amount(ChargeRow(l, ticket)) == l.quantity * price
    ensures l.quantity > 0 && price != l.price ==> Amount(ChargeRow(l, ticket)) != l.quantity * l.price
  {
    ChargeBills(l, ticket);
    if l.quantity > 0 && price < l.price { MulLess(l.quantity, price, l.price); }
    if l.quantity > 0 && price > l.price { MulLess(l.quantity, l.price, price); }
  }

  /** One line's delivery: its ticket, and its charge when it is one-time. */
  method AddTicket(o: Order, before: seq<Row>, primary: Option<int>, l: Line) returns (rows: seq<Row>)
    requires Party(o, before, primary)
    ensures Party(o, rows, primary) && Billed(rows) == Billed(before) + if l.recurring then 0 else Charge(l)
  {
    PartyOk(o, before, primary);
    rows := Add(before, TicketRow(o, primary));
    if !l.recurring {
      ChargeBills(l, |rows|);
      rows := Add(rows, ChargeRow(l, |rows|));
    }
  }

  /** The next line, if it is delivered. */
  method DeliverLine(o: Order, before: seq<Row>, primary: Option<int>, i: nat) returns (rows: seq<Row>)
    requires Party(o, before, primary) && i < |o.lines|
    ensures Party(o, rows, primary)
    ensures Billed(rows) == Billed(before) - Charges(Charged(o.lines[..i])) + Charges(Charged(o.lines[..i + 1]))
  {
    rows := before;
    assert o.lines[..i + 1][..i] == o.lines[..i];
    TotalSnoc(Charged(o.lines[..i]), o.lines[i]);
    if o.lines[i].delivered {
      rows := AddTicket(o, rows, primary, o.lines[i]);
    }
  }

  /** A ticket per delivered line; a one-time line is charged on its ticket. */
  method AddDelivery(o: Order, before: seq<Row>, primary: Option<int>) returns (rows: seq<Row>)
    requires Party(o, before, primary)
    ensures Party(o, rows, primary) && Billed(rows) == Billed(before) + Charges(Charged(o.lines))
  {
    rows := before;
    var i := 0;
    while i < |o.lines|
      invariant 0 <= i <= |o.lines| && Party(o, rows, primary)
      invariant Billed(rows) == Billed(before) + Charges(Charged(o.lines[..i]))
    {
      rows := DeliverLine(o, rows, primary, i);
      i := i + 1;
    }
    assert o.lines[..i] == o.lines;
  }

  lemma {:induction false} ChargedAre(lines: seq<Line>)
    ensures forall l | l in Charged(lines) :: l in lines && !l.recurring && l.delivered
    decreases |lines|
  {
    if lines != [] { ChargedAre(lines[..|lines| - 1]); }
  }

  /**
   * The plan of an order: every reference points back at the right row, and it bills the quoted recurring lines and
   * what the delivered one-time lines charge, which is what was quoted when no offering overrides it.
   */
  method BuildOrderPlan(o: Order) returns (rows: seq<Row>)
    ensures Sound(rows) && Backward(rows)
    ensures Billed(rows) == Total(RecurringOf(o.lines)) + Charges(Charged(o.lines))
    ensures (forall l | l in o.lines && !l.recurring && l.delivered :: AsQuoted(l)) ==>
              Billed(rows) == Total(RecurringOf(o.lines)) + Total(Charged(o.lines))
  {
    var primary;
    rows, primary := AddPeople(o);
    rows := AddServices(o, rows, primary);
    rows := AddDelivery(o, rows, primary);
    SoundIsBackward(rows);
    ChargedAre(o.lines);
    if forall l | l in o.lines && !l.recurring && l.delivered :: AsQuoted(l) { ChargesAsQuoted(Charged(o.lines)); }
  }

  lemma SoundIsBackward(rows: seq<Row>)
    requires Sound(rows)
    ensures Backward(rows)
  {
    forall i: nat, d | i < |rows| && d in DependsOn(rows[i]) ensures 1 <= d <= i {
      assert RowOk(rows, i);
      var f :| f in rows[i].refs && rows[i].refs[f] == d;
      assert RefOk(rows, i, f, d);
    }
  }

  /** Autotask takes the row: nothing like it is there, it is created, and it reads back (or takes effect) as planned. */
  predicate Taken(r: Row, x: Replies, id: Option<int>) {
    && (x.snapshot.Some? ==> x.snapshot.value.Ok?) && x.existing == Ok(None) && x.create.Ok? && id == NonZero(Some(x.create.value))
    && if x.readBack == None || x.readBack == Some(Ok(None)) then x.back.Ok? && x.back.value.Some? && Reads(x.back.value.value, After(r))
       else x.readBack.value.Ok? && var seen := x.readBack.value.value.value; seen.Seen? ==> Reads(seen.record, seen.want)
  }

  lemma {:induction false} TakenSucceeds(r: Row, x: Replies, id: Option<int>, i: nat)
    requires r.action == Create && r.before.None? && r.result == NO_RESULT && Taken(r, x, id)
    ensures Succeeds(r, RunRow(i, r, x), id)
  {
  }

  lemma {:induction false} ExpectedSucceeds(r: Row, ids: seq<Option<int>>, x: Replies, id: Option<int>, i: nat)
    requires Creates(r) && Taken(Expected(r, ids), x, id)
    ensures Succeeds(r.(status := Approved), RunRow(i, Expected(r.(status := Approved), ids), x), id)
  {
    var a := Expected(r.(status := Approved), ids);
    assert a == Expected(r, ids).(status := Approved);
    assert Taken(a, x, id);
    TakenSucceeds(a, x, id, i);
  }

  /** Row i of an order plan is not blocked and will stand for an id, unless it is a contract adjustment. */
  predicate Standing(rows: seq<Row>, ids: seq<Option<int>>, i: nat) {
    i < |rows| == |ids| && !rows[i].blocked && (rows[i].entity != "ContractServiceAdjustments" ==> ids[i].Some?)
  }

  lemma {:induction false} OrderRowSupplied(rows: seq<Row>, ids: seq<Option<int>>, i: nat)
    requires RowOk(rows, i) && |ids| == |rows| && forall j: nat | j < i :: RowOk(rows, j) && Standing(rows, ids, j)
    ensures Supplied(Approve(rows), ids, i)
  {
    var approved := Approve(rows);
    forall d | d in DependsOn(approved[i]) ensures 1 <= d <= i && Runnable(approved[d - 1]) && ids[d - 1].Some? {
      var f :| f in rows[i].refs && rows[i].refs[f] == d;
      assert RefOk(rows, i, f, d) && Standing(rows, ids, d - 1);
    }
    forall f | f in approved[i].refs ensures IdThen(ids, approved[i].refs[f]).Some? { assert approved[i].refs[f] in DependsOn(approved[i]); }
  }

  lemma {:induction false} OrderRowGoesWell(rows: seq<Row>, approved: seq<Row>, io: IO, ids: seq<Option<int>>, i: nat)
    requires i < |rows| == |approved| == |io| == |ids| && Creates(rows[i]) && approved[i] == rows[i].(status := Approved) && !rows[i].blocked
    requires Supplied(approved, ids, i) && Taken(Expected(rows[i], ids), io[i], ids[i])
    ensures GoesWell(approved, io, ids, i)
  {
    ExpectedSucceeds(rows[i], ids, io[i], ids[i], i);
  }

  /**
   * An order plan nothing of which is blocked, approved, is one the executor finishes when Autotask takes its rows and
   * answers an id for each but the contract adjustments, which it creates without one.
   */
  lemma {:induction false} OrderRunsSmoothly(rows: seq<Row>, io: IO, ids: seq<Option<int>>)
    requires Sound(rows) && |io| == |rows| == |ids|
    requires forall i: nat | i < |rows| :: Standing(rows, ids, i) && Taken(Expected(rows[i], ids), io[i], ids[i])
    ensures Smooth(Approve(rows), io, ids)
  {
    forall i: nat | i < |rows| ensures GoesWell(Approve(rows), io, ids, i) {
      assert RowOk(rows, i) && Standing(rows, ids, i);
      OrderRowSupplied(rows, ids, i);
      OrderRowGoesWell(rows, Approve(rows), io, ids, i);
    }
  }
}
