/**
 * Reads: which queries a windowed mirror may answer, the paginated walk over Autotask, and why an answer from the
 * mirror is the answer the walk would have given.
 */
module MirrorReads {
  import opened Base
  import opened Like
  import opened ShadowSql

  // ---------------------------------------------------------------- the history window

  /** How an entity is windowed: tickets (recent or open), or by one date field. */
  datatype Windowed = Tickets | Dated(field: string)

  function Plain(op: string, field: string, v: Value): Filter { Filter(op, Some(field), v, [], false) }

  /** The rows worth mirroring when history starts on `day`. */
  function Window(w: Windowed, day: string): Filter {
    match w
    case Dated(field) => Plain("gte", field, One(JStr(day)))
    case Tickets =>
      Filter("or", None, Absent,
             [Plain("gte", "lastActivityDate", One(JStr(day))), Plain("gte", "createDate", One(JStr(day))), Plain("noteq", "status", One(JNum("5")))],
             false)
  }

  function DateFields(w: Windowed): seq<string> {
    if w.Dated? then [w.field] else ["lastActivityDate", "createDate"]
  }

  /** JavaScript's Number of a text (None for NaN): blanks around a numeral, or nothing at all. */
  function Trimmed(s: string): string
    decreases |s|
  {
    if s != [] && s[0] == ' ' then Trimmed(s[1..])
    else if s != [] && s[|s| - 1] == ' ' then Trimmed(s[..|s| - 1])
    else s
  }

  function NumberOfText(s: string): Option<real> {
    var t := Trimmed(s);
    if t == "" then Some(0.0) else if IsNumeral(t) then Some(Number(t)) else None
  }

  function NumberOf(v: Value): Option<real> {
    match v
    case Absent => None
    case One(JNull) => Some(0.0)
    case One(JBool(b)) => Some(if b then 1.0 else 0.0)
    case One(JNum(n)) => Some(Number(n))
    case One(JStr(s)) => NumberOfText(s)
    case Many(vs) => NumberOfText(Joined(vs))
  }

  function Prefix10(s: string): string { if |s| <= 10 then s else s[..10] }

  function OrEmpty(v: Value): string { if v == Absent || v == One(JNull) then "" else Spell(v) }

  predicate BoundsDate(f: Filter, fields: seq<string>, day: string) {
    (f.op == "gte" || f.op == "gt") && f.field.Some? && f.field.value in fields && !Before(Prefix10(OrEmpty(f.value)), day)
  }

  predicate KeepsOpen(f: Filter) {
    && f.field == Some("status")
    && (|| (f.op == "noteq" && NumberOf(f.value) == Some(5.0))
        || (f.op == "eq" && f.value != Absent && f.value != One(JNull) && NumberOf(f.value) != Some(5.0))
        || (f.op == "in" && f.value.Many? && f.value.vs != [] && forall i | 0 <= i < |f.value.vs| :: NumberOf(One(f.value.vs[i])) != Some(5.0)))
  }

  /** One filter that is taken to keep a query inside the window. */
  predicate Bounds(w: Windowed, f: Filter, day: string) {
    BoundsDate(f, DateFields(w), day) || (w.Tickets? && KeepsOpen(f))
  }

  predicate WindowCovers(w: Windowed, fs: seq<Filter>, day: string) {
    exists i | 0 <= i < |fs| :: Bounds(w, fs[i], day)
  }

  /** A row as Autotask sends it: dates are texts that are no numbers, a status is a number written plainly. */
  predicate Usual(w: Windowed, r: Record) {
    && (forall d | d in DateFields(w) && FieldText(r, d).Some? :: !IsNumeral(FieldText(r, d).value))
    && ("status" in r.data ==> r.data["status"].JNull? || (r.data["status"].JNum? && (Number(r.data["status"].lit) == 5.0 ==> r.data["status"].lit == "5")))
  }

  predicate RealWindow(w: Windowed) { w.Dated? ==> ValidField(w.field) && w.field != "status" }

  /** The bound is on a real field, and "not complete" is written as Autotask writes it. */
  predicate PlainBound(f: Filter) {
    !f.udf && (f.op == "noteq" ==> f.value.One? && (f.value.v.JNum? || f.value.v == JStr("5")))
  }

  lemma Ops()
    ensures OpOf("gte") == Some(Order(Gte)) && OpOf("gt") == Some(Order(Gt)) && OpOf("noteq") == Some(NotEq)
    ensures OpOf("eq") == Some(Eq) && OpOf("in") == Some(In)
    ensures Lower("or") == "or"
    ensures forall op | op in ["gte", "gt", "noteq", "eq", "in"] :: Lower(op) != "and" && Lower(op) != "or"
  {
    assert Lower("gte") == "gte";
    assert Lower("gt") == "gt";
    assert Lower("noteq") == "noteq";
    assert Lower("eq") == "eq";
    assert Lower("in") == "in";
    assert Lower("or") == "or";
  }

  // ---------------------------------------------------------------- text order

  lemma {:induction false} BeforeTransitive(a: string, b: string, c: string)
    requires !Before(b, a) && !Before(c, b)
    ensures !Before(c, a)
    decreases |a|
  {
    if a != [] && c != [] && b != [] && a[0] == b[0] == c[0] {
      BeforeTransitive(a[1..], b[1..], c[1..]);
    }
  }

  lemma {:induction false} PrefixNotAfter(s: string, n: nat)
    requires n <= |s|
    ensures !Before(s, s[..n])
    decreases n
  {
    if n > 0 {
      assert s[..n][1..] == s[1..][..n - 1];
      PrefixNotAfter(s[1..], n - 1);
    }
  }

  lemma {:induction false} BeforeItself(s: string)
    ensures !Before(s, s)
    decreases |s|
  {
    if s != [] { BeforeItself(s[1..]); }
  }

  lemma {:induction false} BeforeLonger(s: string, c: char)
    ensures Before(s, s + [c]) && !Before(s + [c], s)
    decreases |s|
  {
    if s != [] {
      assert (s + [c])[1..] == s[1..] + [c];
      BeforeLonger(s[1..], c);
    }
  }

  // ---------------------------------------------------------------- a covered query stays in the window

  predicate OnOrAfter(r: Record, d: string, day: string) {
    FieldText(r, d).Some? && !Before(FieldText(r, d).value, day)
  }

  predicate Complete(r: Record) {
    "status" in r.data && r.data["status"].JNum? && Number(r.data["status"].lit) == 5.0
  }

  lemma GteMeans(d: string, day: string, r: Record)
    requires ValidField(d)
    ensures WellFormed(Plain("gte", d, One(JStr(day))))
    ensures Matches(Plain("gte", d, One(JStr(day))), r) <==> OnOrAfter(r, d, day)
  {
    Ops();
  }

  lemma OpenMeans(r: Record)
    ensures WellFormed(Plain("noteq", "status", One(JNum("5"))))
    ensures Matches(Plain("noteq", "status", One(JNum("5"))), r) <==> !Complete(r)
  {
    Ops();
    FiveIs();
  }

  /** The window, without filters: recent by one of its dates, or (tickets) not complete. */
  lemma WindowMeans(w: Windowed, day: string, r: Record)
    requires RealWindow(w)
    ensures WellFormed(Window(w, day))
    ensures Matches(Window(w, day), r) <==> (exists d | d in DateFields(w) :: OnOrAfter(r, d, day)) || (w.Tickets? && !Complete(r))
  {
    if w.Dated? {
      assert w.field in DateFields(w);
      GteMeans(w.field, day, r);
    } else {
      var ds := DateFields(w);
      assert ds[0] == "lastActivityDate" && ds[1] == "createDate" && ds[0] in ds && ds[1] in ds;
      GteMeans(ds[0], day, r);
      GteMeans(ds[1], day, r);
      OpenMeans(r);
      OrMeans(Window(w, day), r);
    }
  }

  lemma OrGroup(f: Filter, r: Record)
    requires f.op == "or" && forall i | 0 <= i < |f.items| :: WellFormed(f.items[i])
    ensures WellFormed(f)
    ensures Matches(f, r) <==> exists i | 0 <= i < |f.items| :: Matches(f.items[i], r)
  {
    assert Lower(f.op) == "or";
  }

  lemma OrMeans(f: Filter, r: Record)
    requires f.op == "or" && |f.items| == 3 && WellFormed(f.items[0]) && WellFormed(f.items[1]) && WellFormed(f.items[2])
    ensures WellFormed(f)
    ensures Matches(f, r) <==> Matches(f.items[0], r) || Matches(f.items[1], r) || Matches(f.items[2], r)
  {
    OrGroup(f, r);
    if Matches(f, r) {
      var i :| 0 <= i < |f.items| && Matches(f.items[i], r);
      assert i == 0 || i == 1 || i == 2;
    }
  }

  lemma FiveIs()
    ensures IsNumeral("5") && Number("5") == 5.0
  {
    assert IsUnsigned("5") && Unsigned("5") == 5.0 by { assert NatOf("5") == 5; }
  }

  lemma DateBound(w: Windowed, f: Filter, day: string, r: Record)
    requires WellFormed(f) && BoundsDate(f, DateFields(w), day) && !f.udf && Usual(w, r) && Matches(f, r)
    ensures OnOrAfter(r, f.field.value, day)
  {
    Ops();
    var d := f.field.value;
    var v := f.value;
    assert FieldText(r, d).Some? && InOrder(OpOf(f.op).value.cmp, FieldText(r, d).value, v);
    var t := FieldText(r, d).value;
    assert !(v.One? && v.v.JNum?);
    if v == Absent || v == One(JNull) {
      assert day == "";
    } else {
      var x := Spell(v);
      assert !Before(t, x) by {
        if f.op == "gt" { BeforeIrreflexive(x, t); }
      }
      PrefixNotAfter(x, |Prefix10(x)|);
      assert x[..|Prefix10(x)|] == Prefix10(x);
      BeforeTransitive(day, Prefix10(x), x);
      BeforeTransitive(day, x, t);
    }
  }

  lemma {:induction false} BeforeIrreflexive(a: string, b: string)
    requires Before(a, b)
    ensures !Before(b, a)
    decreases |a|
  {
    if a != [] && a[0] == b[0] { BeforeIrreflexive(a[1..], b[1..]); }
  }

  /** A numeral is spelled one way in either case, and JavaScript reads it as the number it is. */
  lemma NumeralText(lit: Numeral, s: string)
    requires Lower(lit) == Lower(s)
    ensures s == lit && NumberOfText(s) == Some(Number(lit))
  {
    NumeralChars(lit);
    forall i | 0 <= i < |s| ensures s[i] == lit[i] {
      assert Lower(lit)[i] == Lower(s)[i];
      assert !Letter(lit[i]);
    }
    assert Trimmed(lit) == lit;
  }

  lemma NumeralChars(lit: Numeral)
    ensures forall i | 0 <= i < |lit| :: !Letter(lit[i]) && lit[i] != ' '
  {
    var u := if lit[0] == '-' then lit[1..] else lit;
    var p := Point(u);
    PointAt(u);
    forall i | 0 <= i < |u| ensures !Letter(u[i]) && u[i] != ' ' {
      if i < p { assert u[i] == u[..p][i]; }
      if i > p { assert u[i] == u[p + 1..][i - p - 1]; }
    }
  }

  lemma {:induction false} PointAt(u: string)
    ensures Point(u) < |u| ==> u[Point(u)] == '.'
    decreases |u|
  {
    if u != [] && u[0] != '.' { PointAt(u[1..]); }
  }

  lemma StatusEq(v: Value, r: Record)
    requires Complete(r) && v != Absent && v != One(JNull) && Equals(r, "status", v)
    ensures NumberOf(v) == Some(5.0)
  {
    if v.One? && v.v.JStr? { NumeralText(r.data["status"].lit, v.v.s); }
  }

  lemma StatusIn(vs: seq<Scalar>, r: Record)
    requires Complete(r) && Lower(r.data["status"].lit) in Texts(Many(vs))
    ensures exists i :: 0 <= i < |vs| && NumberOf(One(vs[i])) == Some(5.0)
  {
    var lit := r.data["status"].lit;
    var i :| 0 <= i < |vs| && Lower(Spelled(vs[i])) == Lower(lit);
    NumeralText(lit, Spelled(vs[i]));
    NumeralChars(lit);
    assert !vs[i].JNull? by { assert Letter("null"[0]); }
    assert !vs[i].JBool? by { assert Letter("true"[0]) && Letter("false"[0]); }
  }

  lemma StatusText(r: Record)
    requires Complete(r)
    ensures FieldText(r, "status") == Some(r.data["status"].lit)
  {
  }

  lemma StatusLeaf(f: Filter, r: Record)
    requires WellFormed(f) && f.op in ["noteq", "eq", "in"] && f.field == Some("status") && !f.udf
    ensures f.op == "noteq" ==> (Matches(f, r) <==> !Equals(r, "status", f.value))
    ensures f.op == "eq" ==> (Matches(f, r) <==> Equals(r, "status", f.value))
    ensures f.op == "in" ==> (Matches(f, r) <==> TextMatches(In, FieldText(r, "status"), f.value))
  {
    Ops();
  }

  lemma StatusBound(f: Filter, r: Record)
    requires WellFormed(f) && KeepsOpen(f) && PlainBound(f) && Usual(Tickets, r) && Matches(f, r)
    ensures !Complete(r)
  {
    StatusLeaf(f, r);
    if Complete(r) {
      StatusText(r);
      if f.op == "noteq" {
        StatusNoteq(f.value, r);
      } else if f.op == "eq" {
        StatusEq(f.value, r);
      } else {
        StatusIn(f.value.vs, r);
      }
    }
  }

  lemma StatusNoteq(v: Value, r: Record)
    requires Complete(r) && Usual(Tickets, r) && NumberOf(v) == Some(5.0) && v.One? && (v.v.JNum? || v.v == JStr("5"))
    ensures Equals(r, "status", v)
  {
  }

  /** A filter taken to bound a query really does, when it is a plain bound. */
  lemma BoundKeeps(w: Windowed, f: Filter, day: string, r: Record)
    requires RealWindow(w) && WellFormed(f) && Bounds(w, f, day) && PlainBound(f) && Usual(w, r) && Matches(f, r)
    ensures WellFormed(Window(w, day)) && Matches(Window(w, day), r)
  {
    WindowMeans(w, day, r);
    if BoundsDate(f, DateFields(w), day) {
      DateBound(w, f, day, r);
    } else {
      StatusBound(f, r);
    }
  }

  // ---------------------------------------------------------------- and only then

  /** A numeral above another. */
  function Above(lit: Numeral): string { if lit[0] == '-' then "1" else "1" + lit }

  lemma {:induction false} LeadingOne(d: string)
    requires forall i | 0 <= i < |d| :: '0' <= d[i] <= '9'
    ensures NatOf("1" + d) > NatOf(d)
    decreases |d|
  {
    if d != [] {
      var front := d[..|d| - 1];
      LeadingOne(front);
      assert ("1" + d)[..|d|] == "1" + front;
    }
  }

  lemma AboveUnsigned(u: string)
    requires IsUnsigned(u)
    ensures IsUnsigned("1" + u) && Unsigned("1" + u) > Unsigned(u)
  {
    var p := Point(u);
    var a := "1" + u;
    assert a[1..] == u;
    assert Point(a) == 1 + p;
    assert a[..1 + p] == "1" + u[..p];
    LeadingOne(u[..p]);
    if p < |u| { assert a[1 + p + 1..] == u[p + 1..]; }
  }

  lemma AboveIs(lit: Numeral)
    ensures IsNumeral(Above(lit)) && Number(Above(lit)) > Number(lit)
  {
    if lit[0] == '-' {
      assert IsUnsigned("1") && Unsigned("1") == 1.0 by { assert NatOf("1") == 1; }
      assert Unsigned(lit[1..]) >= 0.0;
    } else {
      AboveUnsigned(lit);
    }
  }

  /** A complete ticket (or an undated row) outside every window, with one user-defined field. */
  function Outsider(udf: map<string, string>): Record { Record(map["status" := JNum("5")], udf) }

  lemma OutsiderIs(w: Windowed, day: string, udf: map<string, string>)
    requires RealWindow(w)
    ensures Usual(w, Outsider(udf)) && WellFormed(Window(w, day)) && !Matches(Window(w, day), Outsider(udf))
  {
    var r := Outsider(udf);
    FiveIs();
    forall d | d in DateFields(w) ensures FieldText(r, d).None? {
      if w.Tickets? {
        var ds := DateFields(w);
        assert d == ds[0] || d == ds[1];
        assert |d| > 6;
      }
      assert |"status"| == 6;
    }
    WindowMeans(w, day, r);
  }

  /** What a user-defined field must hold to match a bound on it. */
  function UdfEscape(f: Filter): map<string, string> {
    if f.field.None? || f.op == "noteq" then map[]
    else if f.op == "gte" || f.op == "gt" then
      map[f.field.value := if f.value.One? && f.value.v.JNum? then Above(f.value.v.lit) else Spell(f.value) + "a"]
    else if f.op == "in" && f.value.Many? && f.value.vs != [] then map[f.field.value := Spelled(f.value.vs[0])]
    else map[f.field.value := Spell(f.value)]
  }

  lemma UdfEscapes(w: Windowed, f: Filter, day: string)
    requires WellFormed(f) && Bounds(w, f, day) && f.udf
    ensures Matches(f, Outsider(UdfEscape(f)))
  {
    Ops();
    var r := Outsider(UdfEscape(f));
    if BoundsDate(f, DateFields(w), day) {
      if f.value.One? && f.value.v.JNum? {
        AboveIs(f.value.v.lit);
      } else {
        BeforeLonger(Spell(f.value), 'a');
      }
    } else if f.op == "in" {
      assert Texts(f.value)[0] == Lower(Spelled(f.value.vs[0]));
    }
  }

  lemma NoteqEscapes(f: Filter)
    requires WellFormed(f) && KeepsOpen(f) && !f.udf && f.op == "noteq" && !PlainBound(f)
    ensures Matches(f, Outsider(map[]))
  {
  }

  /**
   * A single filter that windowCovers takes as a bound really keeps a query inside the window exactly when it is
   * plain: on a field of the row (not a user-defined field of the same name), and with "status is not 5" asked with
   * the number 5 or the text "5".
   */
  lemma BoundExactly(w: Windowed, f: Filter, day: string)
    requires RealWindow(w) && WellFormed(f) && Bounds(w, f, day)
    ensures WellFormed(Window(w, day))
    ensures PlainBound(f) <==> forall r | Usual(w, r) && Matches(f, r) :: Matches(Window(w, day), r)
  {
    OutsiderIs(w, day, map[]);
    if PlainBound(f) {
      forall r | Usual(w, r) && Matches(f, r) ensures Matches(Window(w, day), r) { BoundKeeps(w, f, day, r); }
    } else if f.udf {
      UdfEscapes(w, f, day);
      OutsiderIs(w, day, UdfEscape(f));
    } else {
      NoteqEscapes(f);
    }
  }

  // ---------------------------------------------------------------- reading

  const PAGE_MAX: nat := 500
  const STORE_MAX: nat := 5000

  datatype Item = Item(id: nat, row: Record)

  type Rows = map<nat, Record>

  function Matching(rows: Rows, fs: seq<Filter>): set<nat>
    requires AllWell(fs)
  {
    set id | id in rows && MatchesAll(fs, rows[id])
  }

  function Items(rows: Rows, ids: seq<nat>): (r: seq<Item>)
    requires forall id | id in ids :: id in rows
    ensures |r| == |ids| && forall i | 0 <= i < |ids| :: r[i] == Item(ids[i], rows[ids[i]])
  {
    seq(|ids|, i requires 0 <= i < |ids| => Item(ids[i], rows[ids[i]]))
  }

  /** The matching rows in ascending id order. */
  function Listed(rows: Rows, fs: seq<Filter>): seq<Item>
    requires AllWell(fs)
  {
    Items(rows, Ascending(Matching(rows, fs)))
  }

  function Cut<T>(s: seq<T>, n: nat): seq<T> { if |s| <= n then s else s[..n] }

  /** Every row of the window is mirrored, and what is mirrored is what Autotask has. */
  ghost predicate Current(window: Option<(Windowed, string)>, remote: Rows, mirror: Rows) {
    && (forall id | id in mirror :: id in remote && mirror[id] == remote[id])
    && (forall id | id in remote && id !in mirror ::
          && window.Some? && WellFormed(Window(window.value.0, window.value.1))
          && !Matches(Window(window.value.0, window.value.1), remote[id]))
  }

  /** When the window check accepts a query, one of the filters it accepted is a plain bound. */
  ghost predicate PlainlyBound(window: Option<(Windowed, string)>, fs: seq<Filter>) {
    window.Some? && WindowCovers(window.value.0, fs, window.value.1) ==>
      exists i | 0 <= i < |fs| :: Bounds(window.value.0, fs[i], window.value.1) && PlainBound(fs[i])
  }

  ghost predicate UsualRows(window: Option<(Windowed, string)>, remote: Rows) {
    window.Some? ==> RealWindow(window.value.0) && forall id | id in remote :: Usual(window.value.0, remote[id])
  }

  /** A covered query finds the same rows in the mirror and in Autotask. */
  lemma SameListing(window: Option<(Windowed, string)>, remote: Rows, mirror: Rows, fs: seq<Filter>)
    requires AllWell(fs) && Current(window, remote, mirror) && UsualRows(window, remote)
    requires window.Some? ==> exists i | 0 <= i < |fs| :: Bounds(window.value.0, fs[i], window.value.1) && PlainBound(fs[i])
    ensures Listed(mirror, fs) == Listed(remote, fs)
  {
    forall id | id in Matching(remote, fs) ensures id in Matching(mirror, fs) {
      if id !in mirror {
        var i :| 0 <= i < |fs| && Bounds(window.value.0, fs[i], window.value.1) && PlainBound(fs[i]);
        BoundKeeps(window.value.0, fs[i], window.value.1, remote[id]);
        assert false;
      }
    }
    assert Matching(mirror, fs) == Matching(remote, fs);
    var ids := Ascending(Matching(remote, fs));
    forall i | 0 <= i < |ids| ensures ids[i] in mirror && ids[i] in remote && mirror[ids[i]] == remote[ids[i]] {
      assert ids[i] in ids;
    }
    assert Items(mirror, ids) == Items(remote, ids);
  }

  /** Live mirrored rows by SQL, in id order; nothing when a filter has no SQL or the database refuses a cast. */
  method StoreQuery(entity: string, mirror: Rows, fs: seq<Filter>, limit: nat) returns (r: Option<seq<Item>>)
    ensures r.Some? <==> AllWell(fs) && forall id | id in mirror :: forall i | 0 <= i < |fs| :: CastSafe(fs[i], mirror[id])
    ensures r.Some? ==> r.value == Cut(Listed(mirror, fs), if limit == 0 then 100 else if limit < STORE_MAX then limit else STORE_MAX)
  {
    var b := new SqlBuilder();
    var _ := b.Bind(PText(entity));
    ghost var ps := b.params;
    var ok, c := b.WhereClause(fs);
    WhereTaken(fs, ps);
    if !ok { return None; }
    forall id | id in mirror
      ensures Safe(c, b.params)
      ensures Eval(c, b.params, mirror[id]) == Error <==> exists i | 0 <= i < |fs| :: !CastSafe(fs[i], mirror[id])
      ensures Eval(c, b.params, mirror[id]) != Error ==> (Eval(c, b.params, mirror[id]) == T <==> MatchesAll(fs, mirror[id]))
    {
      WhereMeaning(fs, ps, c, b.params, mirror[id]);
    }
    if exists id | id in mirror :: Eval(c, b.params, mirror[id]) == Error { return None; }
    var found := set id | id in mirror && Eval(c, b.params, mirror[id]) == T;
    assert found == Matching(mirror, fs);
    var rows := Items(mirror, Ascending(found));
    r := Some(Cut(rows, if limit == 0 then 100 else if limit < STORE_MAX then limit else STORE_MAX));
  }

  lemma WhereTaken(fs: seq<Filter>, ps: seq<Param>)
    ensures Where(fs, ps).Compiled? <==> AllWell(fs)
  {
    CompilesAll(fs, ps);
  }

  /** An answer from the mirror, or nothing: go to Autotask. */
  method ShadowRead(entity: string, available: bool, window: Option<(Windowed, string)>, mirror: Rows, fs: seq<Filter>, limit: nat)
    returns (r: Option<seq<Item>>)
    requires 1 <= limit <= STORE_MAX
    ensures r.Some? ==> available && AllWell(fs) && r.value == Cut(Listed(mirror, fs), limit)
    ensures r.Some? && window.Some? ==> WindowCovers(window.value.0, fs, window.value.1)
  {
    if !available { return None; }
    if window.Some? && !WindowCovers(window.value.0, fs, window.value.1) { return None; }
    r := StoreQuery(entity, mirror, fs, limit);
  }

  /** Autotask's answer to one request of a paginated walk. */
  datatype Page = Page(items: seq<Item>, next: Option<nat>)

  function Serve(all: seq<Item>, from: nat, size: nat): Page
    requires from <= |all|
  {
    var to := if from + size < |all| then from + size else |all|;
    Page(all[from..to], if to < |all| then Some(to) else None)
  }

  /** The walk over nextPageUrl, until it ends or the cap is reached. */
  method Walk(all: seq<Item>, cap: nat) returns (items: seq<Item>)
    requires cap >= 1
    ensures items == Cut(all, cap)
  {
    var size := if cap < PAGE_MAX then cap else PAGE_MAX;
    var page := Serve(all, 0, size);
    items := page.items;
    while page.next.Some? && |items| < cap
      invariant |items| <= |all| && items == all[..|items|]
      invariant page.next == if |items| < |all| then Some(|items|) else None
      decreases |all| - |items|
    {
      page := Serve(all, page.next.value, size);
      items := items + page.items;
    }
    items := Cut(items, cap);
  }

  /**
   * A query with a row cap: from the mirror when it can answer, else the walk. Either way the first `cap` matching
   * rows by id, as Autotask has them.
   */
  method Query(entity: string, remote: Rows, mirror: Rows, available: bool, window: Option<(Windowed, string)>, fs: seq<Filter>, cap: nat)
    returns (items: seq<Item>)
    requires cap >= 1 && AllWell(fs)
    requires available ==> Current(window, remote, mirror) && UsualRows(window, remote)
    ensures !available || PlainlyBound(window, fs) ==> items == Cut(Listed(remote, fs), cap)
    ensures items == Cut(Listed(remote, fs), cap) || items == Cut(Listed(mirror, fs), cap)
  {
    if cap <= STORE_MAX {
      var rows := ShadowRead(entity, available, window, mirror, fs, cap);
      if rows.Some? {
        if PlainlyBound(window, fs) { SameListing(window, remote, mirror, fs); }
        return rows.value;
      }
    }
    items := Walk(Listed(remote, fs), cap);
  }

  /** The page size a raw query asks for, clamped to what Autotask takes. */
  function RawLimit(asked: Option<int>): (n: nat)
    ensures 1 <= n <= PAGE_MAX
  {
    var n := if asked.Some? && asked.value != 0 then asked.value else PAGE_MAX;
    if n < 1 then 1 else if n > PAGE_MAX then PAGE_MAX else n
  }

  lemma RawServed(window: Option<(Windowed, string)>, remote: Rows, mirror: Rows, fs: seq<Filter>, limit: nat, rows: seq<Item>)
    requires AllWell(fs) && Current(window, remote, mirror) && UsualRows(window, remote)
    requires window.Some? ==> exists i | 0 <= i < |fs| :: Bounds(window.value.0, fs[i], window.value.1) && PlainBound(fs[i])
    requires rows == Listed(mirror, fs) && |rows| <= limit
    ensures Serve(Listed(remote, fs), 0, limit) == Page(rows, None)
  {
    SameListing(window, remote, mirror, fs);
  }

  /** The mirror's answer to a raw query: only its whole result, one extra row having been asked for. */
  method RawFromMirror(entity: string, mirror: Rows, available: bool, window: Option<(Windowed, string)>, fs: seq<Filter>, limit: nat)
    returns (rows: Option<seq<Item>>)
    requires AllWell(fs) && 1 <= limit <= PAGE_MAX
    ensures rows.Some? ==> available && |rows.value| <= limit && rows.value == Listed(mirror, fs)
    ensures rows.Some? && window.Some? ==> WindowCovers(window.value.0, fs, window.value.1)
  {
    rows := ShadowRead(entity, available, window, mirror, fs, limit + 1);
    if rows.Some? && |rows.value| > limit { rows := None; }
  }

  /**
   * A raw query: one page and whether more follow. The mirror answers only when it holds the whole result, so a
   * caller that follows nextPageUrl still gets Autotask's own link.
   */
  method RawQuery(entity: string, remote: Rows, mirror: Rows, available: bool, window: Option<(Windowed, string)>, fs: seq<Filter>, asked: Option<int>)
    returns (page: Page, served: bool)
    requires AllWell(fs)
    requires available ==> Current(window, remote, mirror) && UsualRows(window, remote)
    ensures !available || PlainlyBound(window, fs) ==> page == Serve(Listed(remote, fs), 0, RawLimit(asked))
    ensures served ==> page.next.None? && page.items == Listed(mirror, fs)
    ensures !served ==> page == Serve(Listed(remote, fs), 0, RawLimit(asked))
  {
    var rows := RawFromMirror(entity, mirror, available, window, fs, RawLimit(asked));
    served := rows.Some?;
    if served {
      if PlainlyBound(window, fs) { RawServed(window, remote, mirror, fs, RawLimit(asked), rows.value); }
      page := Page(rows.value, None);
    } else {
      page := Serve(Listed(remote, fs), 0, RawLimit(asked));
    }
  }
}
