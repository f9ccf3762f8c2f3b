/**
 * Autotask filters compiled to SQL over the mirror: a condition with numbered placeholders, read in three-valued
 * logic, against what the filter itself says of a row.
 */
module ShadowSql {
  import opened Base
  import opened Like

  // ---------------------------------------------------------------- values

  predicate Digits(s: string) { s != [] && forall i | 0 <= i < |s| :: '0' <= s[i] <= '9' }

  /** Where the decimal point is (the end of the text when there is none). */
  function Point(u: string): (i: nat)
    ensures i <= |u|
  {
    if u == [] || u[0] == '.' then 0 else 1 + Point(u[1..])
  }

  /** [0-9]+(\.[0-9]+)? */
  predicate IsUnsigned(u: string) {
    Digits(u[..Point(u)]) && (Point(u) < |u| ==> Digits(u[Point(u) + 1..]))
  }

  /** -?[0-9]+(\.[0-9]+)? */
  predicate IsNumeral(s: string) {
    if s != [] && s[0] == '-' then IsUnsigned(s[1..]) else IsUnsigned(s)
  }

  type Numeral = s: string | IsNumeral(s) witness "0"

  function NatOf(s: string): nat
    requires forall i | 0 <= i < |s| :: '0' <= s[i] <= '9'
  {
    if s == [] then 0 else 10 * NatOf(s[..|s| - 1]) + (s[|s| - 1] - '0') as int
  }

  function TenTo(n: nat): (r: nat)
    ensures r > 0
  {
    if n == 0 then 1 else 10 * TenTo(n - 1)
  }

  function Unsigned(u: string): real
    requires IsUnsigned(u)
  {
    var i := Point(u);
    if i == |u| then NatOf(u[..i]) as real
    else NatOf(u[..i]) as real + NatOf(u[i + 1..]) as real / TenTo(|u| - i - 1) as real
  }

  function Number(s: Numeral): real {
    if s[0] == '-' then -Unsigned(s[1..]) else Unsigned(s)
  }

  /** What a JSON field can hold; a number is its own text. */
  datatype Scalar = JNull | JBool(b: bool) | JNum(lit: Numeral) | JStr(s: string)

  /** What a filter can ask for: nothing (the property is missing), one value, or a list. */
  datatype Value = Absent | One(v: Scalar) | Many(vs: seq<Scalar>)

  /** A mirrored row: its JSON fields, and its user-defined fields by name. */
  datatype Record = Record(data: map<string, Scalar>, udf: map<string, string>)

  /** A value as text, as JavaScript spells it. */
  function Spelled(v: Scalar): string {
    match v
    case JNull => "null"
    case JBool(b) => if b then "true" else "false"
    case JNum(lit) => lit
    case JStr(s) => s
  }

  function Joined(vs: seq<Scalar>): string {
    if vs == [] then ""
    else (if vs[0].JNull? then "" else Spelled(vs[0])) + (if |vs| == 1 then "" else "," + Joined(vs[1..]))
  }

  function Spell(v: Value): string {
    match v
    case Absent => "undefined"
    case One(s) => Spelled(s)
    case Many(vs) => Joined(vs)
  }

  /** The lower-cased texts of a list (anything else counts as an empty list). */
  function Texts(v: Value): seq<string> {
    if v.Many? then seq(|v.vs|, i requires 0 <= i < |v.vs| => Lower(Spelled(v.vs[i]))) else []
  }

  /** A field's text; a missing field and a null have none. */
  function FieldText(r: Record, field: string): Option<string> {
    if field in r.data && !r.data[field].JNull? then Some(Spelled(r.data[field])) else None
  }

  function UdfValue(r: Record, name: string): Option<string> {
    if name in r.udf then Some(r.udf[name]) else None
  }

  // ---------------------------------------------------------------- filters

  datatype Filter = Filter(op: string, field: Option<string>, value: Value, items: seq<Filter>, udf: bool)

  datatype Op = Eq | NotEq | Order(cmp: Cmp) | Begins | Ends | Contains | Exists | Missing | In | NotIn

  datatype Cmp = Gt | Gte | Lt | Lte

  function OpOf(op: string): Option<Op> {
    var o := Lower(op);
    if o == "eq" then Some(Eq)
    else if o == "noteq" then Some(NotEq)
    else if o == "gt" then Some(Order(Gt))
    else if o == "gte" then Some(Order(Gte))
    else if o == "lt" then Some(Order(Lt))
    else if o == "lte" then Some(Order(Lte))
    else if o == "beginswith" then Some(Begins)
    else if o == "endswith" then Some(Ends)
    else if o == "contains" then Some(Contains)
    else if o == "exist" || o == "isnotnull" then Some(Exists)
    else if o == "notexist" || o == "isnull" then Some(Missing)
    else if o == "in" then Some(In)
    else if o == "notin" then Some(NotIn)
    else None
  }

  predicate IsGroup(f: Filter) { Lower(f.op) == "and" || Lower(f.op) == "or" }

  predicate Letter(c: char) { 'a' <= c <= 'z' || 'A' <= c <= 'Z' }

  predicate Alnum(c: char) { Letter(c) || '0' <= c <= '9' }

  /** [A-Za-z][A-Za-z0-9]{0,63} */
  predicate ValidField(s: string) {
    1 <= |s| <= 64 && Letter(s[0]) && forall c | c in s :: Alnum(c)
  }

  /** [A-Za-z0-9][A-Za-z0-9 _\-.#/()&]{0,99} */
  predicate ValidUdf(s: string) {
    1 <= |s| <= 100 && Alnum(s[0]) && forall c | c in s :: Alnum(c) || c in " _-.#/()&"
  }

  function UdfName(f: Filter): string { if f.field.Some? then f.field.value else "undefined" }

  /** A filter the compiler takes: known operators on well-formed names, all the way down. */
  predicate WellFormed(f: Filter)
    decreases f
  {
    if IsGroup(f) then forall i | 0 <= i < |f.items| :: WellFormed(f.items[i])
    else if f.udf then ValidUdf(UdfName(f)) && OpOf(f.op).Some?
    else f.field.Some? && ValidField(f.field.value) && OpOf(f.op).Some?
  }

  // ---------------------------------------------------------------- what a filter says of a row

  /** Text order, character by character. */
  predicate Before(a: string, b: string) {
    b != [] && (a == [] || a[0] < b[0] || (a[0] == b[0] && Before(a[1..], b[1..])))
  }

  predicate TextOrder(cmp: Cmp, a: string, b: string) {
    match cmp
    case Gt => Before(b, a)
    case Gte => !Before(a, b)
    case Lt => Before(a, b)
    case Lte => !Before(b, a)
  }

  predicate NumberOrder(cmp: Cmp, a: real, b: real) {
    match cmp
    case Gt => a > b
    case Gte => a >= b
    case Lt => a < b
    case Lte => a <= b
  }

  predicate SameText(a: string, b: string) { Lower(a) == Lower(b) }

  /** Equality: text in any case, numbers by value; a filter without a value asks nothing. */
  predicate Equals(r: Record, field: string, v: Value) {
    match v
    case Absent => true
    case Many(_) => false
    case One(JNull) => FieldText(r, field).None?
    case One(JStr(s)) => FieldText(r, field).Some? && SameText(FieldText(r, field).value, s)
    case One(JBool(b)) => field in r.data && r.data[field] == JBool(b)
    case One(JNum(n)) => field in r.data && r.data[field].JNum? && Number(r.data[field].lit) == Number(n)
  }

  predicate UdfEquals(r: Record, name: string, v: Value) {
    if v == One(JNull) then UdfValue(r, name).None?
    else UdfValue(r, name).Some? && SameText(UdfValue(r, name).value, Spell(v))
  }

  /** Order: by number when asked with a number (a text that is no number is never in order), else as text. */
  predicate InOrder(cmp: Cmp, t: string, v: Value) {
    if v.One? && v.v.JNum? then IsNumeral(t) && NumberOrder(cmp, Number(t), Number(v.v.lit))
    else TextOrder(cmp, t, Spell(v))
  }

  /** The other operators look at the text alone; a row without one only matches the negations. */
  predicate TextMatches(op: Op, t: Option<string>, v: Value)
    requires !op.Eq? && !op.NotEq?
  {
    match op
    case Order(cmp) => t.Some? && InOrder(cmp, t.value, v)
    case Begins => t.Some? && StartsWith(t.value, Spell(v))
    case Ends => t.Some? && EndsWith(t.value, Spell(v))
    case Contains => t.Some? && HasInside(t.value, Spell(v))
    case Exists => t.Some?
    case Missing => t.None?
    case In => t.Some? && Lower(t.value) in Texts(v)
    case NotIn => !(t.Some? && Lower(t.value) in Texts(v))
  }

  predicate Matches(f: Filter, r: Record)
    requires WellFormed(f)
    decreases f
  {
    if Lower(f.op) == "and" then forall i | 0 <= i < |f.items| :: Matches(f.items[i], r)
    else if Lower(f.op) == "or" then exists i | 0 <= i < |f.items| :: Matches(f.items[i], r)
    else
      var op := OpOf(f.op).value;
      if f.udf then
        if op.Eq? then UdfEquals(r, UdfName(f), f.value)
        else if op.NotEq? then !UdfEquals(r, UdfName(f), f.value)
        else TextMatches(op, UdfValue(r, UdfName(f)), f.value)
      else
        if op.Eq? then Equals(r, f.field.value, f.value)
        else if op.NotEq? then !Equals(r, f.field.value, f.value)
        else TextMatches(op, FieldText(r, f.field.value), f.value)
  }

  predicate MatchesAll(fs: seq<Filter>, r: Record)
    requires forall i | 0 <= i < |fs| :: WellFormed(fs[i])
  {
    forall i | 0 <= i < |fs| :: Matches(fs[i], r)
  }

  /** No field compared with a number holds text that is no number (the database would refuse the cast). */
  predicate CastSafe(f: Filter, r: Record)
    requires WellFormed(f)
    decreases f
  {
    if IsGroup(f) then forall i | 0 <= i < |f.items| :: CastSafe(f.items[i], r)
    else
      !f.udf && OpOf(f.op).value.Order? && f.value.One? && f.value.v.JNum? ==>
        FieldText(r, f.field.value).Some? ==> IsNumeral(FieldText(r, f.field.value).value)
  }

  // ---------------------------------------------------------------- SQL

  /** A bound value. */
  datatype Param = PText(s: string) | PNumber(n: Numeral) | PList(items: seq<string>) | PJson(field: string, value: Value)

  /** A text: a column's field, or a user-defined field whose name is a placeholder. */
  datatype Term = Field(name: string) | Udf(nameAt: nat)

  datatype Cond =
    | True
    | False
    | IsNull(t: Term)
    | LowerEq(t: Term, at: nat)                     // lower(t) = lower($at)
    | LowerNe(t: Term, at: nat)
    | TextCmp(cmp: Cmp, t: Term, at: nat)           // t > $at
    | CastCmp(cmp: Cmp, t: Term, at: nat)           // (t)::numeric > $at
    | CaseCmp(cmp: Cmp, t: Term, at: nat)           // (CASE WHEN t looks like a number THEN (t)::numeric END) > $at
    | ILike(t: Term, at: nat)
    | LowerAny(t: Term, at: nat)                    // lower(t) = ANY($at)
    | Holds(at: nat)                                // data @> $at
    | Not(c: Cond)
    | And(cs: seq<Cond>)
    | Or(cs: seq<Cond>)

  datatype Truth = T | F | N | Error

  /** Placeholder n is the n-th bound value. */
  predicate Bound(at: nat, ps: seq<Param>) { 1 <= at <= |ps| }

  predicate TermOk(t: Term, ps: seq<Param>) {
    match t
    case Field(name) => ValidField(name)
    case Udf(at) => Bound(at, ps) && ps[at - 1].PText?
  }

  /** Every placeholder is bound to a value of its type, and every name in the SQL text itself is a plain field name. */
  predicate Safe(c: Cond, ps: seq<Param>)
    decreases c
  {
    match c
    case True => true
    case False => true
    case IsNull(t) => TermOk(t, ps)
    case LowerEq(t, at) => TermOk(t, ps) && Bound(at, ps) && ps[at - 1].PText?
    case LowerNe(t, at) => TermOk(t, ps) && Bound(at, ps) && ps[at - 1].PText?
    case TextCmp(_, t, at) => TermOk(t, ps) && Bound(at, ps) && ps[at - 1].PText?
    case CastCmp(_, t, at) => TermOk(t, ps) && Bound(at, ps) && ps[at - 1].PNumber?
    case CaseCmp(_, t, at) => TermOk(t, ps) && Bound(at, ps) && ps[at - 1].PNumber?
    case ILike(t, at) => TermOk(t, ps) && Bound(at, ps) && ps[at - 1].PText?
    case LowerAny(t, at) => TermOk(t, ps) && Bound(at, ps) && ps[at - 1].PList?
    case Holds(at) => Bound(at, ps) && ps[at - 1].PJson?
    case Not(d) => Safe(d, ps)
    case And(cs) => forall i | 0 <= i < |cs| :: Safe(cs[i], ps)
    case Or(cs) => forall i | 0 <= i < |cs| :: Safe(cs[i], ps)
  }

  function TermText(t: Term, ps: seq<Param>, r: Record): Option<string>
    requires TermOk(t, ps)
  {
    match t
    case Field(name) => FieldText(r, name)
    case Udf(at) => UdfValue(r, ps[at - 1].s)
  }

  function TruthOf(b: bool): Truth { if b then T else F }

  /** JSON containment of one field (an empty object is contained in everything). */
  predicate JsonHolds(r: Record, field: string, v: Value) {
    match v
    case Absent => true
    case Many(_) => false
    case One(JNull) => field in r.data && r.data[field].JNull?
    case One(JNum(n)) => field in r.data && r.data[field].JNum? && Number(r.data[field].lit) == Number(n)
    case One(s) => field in r.data && r.data[field] == s
  }

  function Negation(t: Truth): Truth {
    match t case T => F case F => T case N => N case Error => Error
  }

  /** Some part of a group yields `t`. */
  predicate Any(cs: seq<Cond>, ps: seq<Param>, r: Record, t: Truth)
    requires forall i | 0 <= i < |cs| :: Safe(cs[i], ps)
    decreases cs, 0
  {
    exists i | 0 <= i < |cs| :: Eval(cs[i], ps, r) == t
  }

  function Eval(c: Cond, ps: seq<Param>, r: Record): Truth
    requires Safe(c, ps)
    decreases c
  {
    match c
    case True => T
    case False => F
    case IsNull(t) => TruthOf(TermText(t, ps, r).None?)
    case LowerEq(t, at) => (var x := TermText(t, ps, r); if x.None? then N else TruthOf(Lower(x.value) == Lower(ps[at - 1].s)))
    case LowerNe(t, at) => (var x := TermText(t, ps, r); if x.None? then N else TruthOf(Lower(x.value) != Lower(ps[at - 1].s)))
    case TextCmp(cmp, t, at) => (var x := TermText(t, ps, r); if x.None? then N else TruthOf(TextOrder(cmp, x.value, ps[at - 1].s)))
    case CastCmp(cmp, t, at) =>
      var x := TermText(t, ps, r);
      if x.None? then N else if !IsNumeral(x.value) then Error else TruthOf(NumberOrder(cmp, Number(x.value), Number(ps[at - 1].n)))
    case CaseCmp(cmp, t, at) =>
      var x := TermText(t, ps, r);
      if x.None? || !IsNumeral(x.value) then N else TruthOf(NumberOrder(cmp, Number(x.value), Number(ps[at - 1].n)))
    case ILike(t, at) => (var x := TermText(t, ps, r); if x.None? then N else TruthOf(Accepts(ps[at - 1].s, x.value)))
    case LowerAny(t, at) =>
      var x := TermText(t, ps, r);
      if x.None? then (if ps[at - 1].items == [] then F else N) else TruthOf(Lower(x.value) in ps[at - 1].items)
    case Holds(at) => TruthOf(JsonHolds(r, ps[at - 1].field, ps[at - 1].value))
    case Not(d) => Negation(Eval(d, ps, r))
    case And(cs) => if Any(cs, ps, r, Error) then Error else if Any(cs, ps, r, F) then F else if Any(cs, ps, r, N) then N else T
    case Or(cs) => if Any(cs, ps, r, Error) then Error else if Any(cs, ps, r, T) then T else if Any(cs, ps, r, N) then N else F
  }

  /** Binding more values later never changes what a condition means. */
  lemma {:induction false} LaterParams(c: Cond, ps: seq<Param>, qs: seq<Param>, r: Record)
    requires Safe(c, ps) && ps <= qs
    ensures Safe(c, qs) && Eval(c, qs, r) == Eval(c, ps, r)
    decreases c
  {
    match c
    case Not(d) => LaterParams(d, ps, qs, r);
    case And(cs) => LaterParamsAll(cs, ps, qs, r);
    case Or(cs) => LaterParamsAll(cs, ps, qs, r);
    case _ =>
  }

  lemma {:induction false} LaterParamsAll(cs: seq<Cond>, ps: seq<Param>, qs: seq<Param>, r: Record)
    requires (forall i | 0 <= i < |cs| :: Safe(cs[i], ps)) && ps <= qs
    ensures forall i | 0 <= i < |cs| :: Safe(cs[i], qs)
    ensures forall i | 0 <= i < |cs| :: Eval(cs[i], qs, r) == Eval(cs[i], ps, r)
    decreases cs
  {
    forall i | 0 <= i < |cs| ensures Safe(cs[i], qs) && Eval(cs[i], qs, r) == Eval(cs[i], ps, r) {
      LaterParams(cs[i], ps, qs, r);
    }
  }

  // ---------------------------------------------------------------- the compiler

  datatype Compiled = Compiled(cond: Cond, params: seq<Param>) | Rejected

  datatype CompiledAll = CompiledAll(conds: seq<Cond>, params: seq<Param>) | RejectedAll

  /** One operator on a text; `ps` already holds the name when the text is a user-defined field. */
  function TextCond(op: Op, t: Term, v: Value, ps: seq<Param>): (Cond, seq<Param>)
    requires !op.Eq? && !op.NotEq?
  {
    var at := |ps| + 1;
    match op
    case Order(cmp) =>
      if v.One? && v.v.JNum? then (if t.Udf? then CaseCmp(cmp, t, at) else CastCmp(cmp, t, at), ps + [PNumber(v.v.lit)])
      else (TextCmp(cmp, t, at), ps + [PText(Spell(v))])
    case Begins => (ILike(t, at), ps + [PText(Escape(Spell(v)) + "%")])
    case Ends => (ILike(t, at), ps + [PText("%" + Escape(Spell(v)))])
    case Contains => (ILike(t, at), ps + [PText("%" + Escape(Spell(v)) + "%")])
    case Exists => (Not(IsNull(t)), ps)
    case Missing => (IsNull(t), ps)
    case In => (LowerAny(t, at), ps + [PList(Texts(v))])
    case NotIn => (Or([IsNull(t), Not(LowerAny(t, at))]), ps + [PList(Texts(v))])
  }

  function FieldCond(op: Op, field: string, v: Value, ps: seq<Param>): (Cond, seq<Param>) {
    var t, at := Field(field), |ps| + 1;
    if op.Eq? then
      if v == One(JNull) then (IsNull(t), ps)
      else if v.One? && v.v.JStr? then (LowerEq(t, at), ps + [PText(v.v.s)])
      else (Holds(at), ps + [PJson(field, v)])
    else if op.NotEq? then
      if v == One(JNull) then (Not(IsNull(t)), ps)
      else if v.One? && v.v.JStr? then (Or([IsNull(t), LowerNe(t, at)]), ps + [PText(v.v.s)])
      else (Not(Holds(at)), ps + [PJson(field, v)])
    else TextCond(op, t, v, ps)
  }

  function UdfCond(op: Op, name: string, v: Value, ps: seq<Param>): (Cond, seq<Param>) {
    var t, named := Udf(|ps| + 1), ps + [PText(name)];
    var at := |named| + 1;
    if op.Eq? then
      if v == One(JNull) then (IsNull(t), named) else (LowerEq(t, at), named + [PText(Spell(v))])
    else if op.NotEq? then
      if v == One(JNull) then (Not(IsNull(t)), named) else (Or([IsNull(t), LowerNe(t, at)]), named + [PText(Spell(v))])
    else TextCond(op, t, v, named)
  }

  function Compile(f: Filter, ps: seq<Param>): Compiled
    decreases f
  {
    if IsGroup(f) then
      match CompileAll(f.items, ps)
      case RejectedAll => Rejected
      case CompiledAll(conds, qs) =>
        if Lower(f.op) == "and" then Compiled(if conds == [] then True else And(conds), qs)
        else Compiled(if conds == [] then False else Or(conds), qs)
    else if f.udf then
      if !ValidUdf(UdfName(f)) || OpOf(f.op).None? then Rejected
      else var (c, qs) := UdfCond(OpOf(f.op).value, UdfName(f), f.value, ps); Compiled(c, qs)
    else if f.field.None? || !ValidField(f.field.value) || OpOf(f.op).None? then Rejected
    else var (c, qs) := FieldCond(OpOf(f.op).value, f.field.value, f.value, ps); Compiled(c, qs)
  }

  function CompileAll(fs: seq<Filter>, ps: seq<Param>): CompiledAll
    decreases fs
  {
    if fs == [] then CompiledAll([], ps)
    else
      match CompileAll(fs[..|fs| - 1], ps)
      case RejectedAll => RejectedAll
      case CompiledAll(conds, qs) =>
        match Compile(fs[|fs| - 1], qs)
        case Rejected => RejectedAll
        case Compiled(c, rs) => CompiledAll(conds + [c], rs)
  }

  /** A list of top-level filters is AND-ed. */
  function Where(fs: seq<Filter>, ps: seq<Param>): Compiled {
    match CompileAll(fs, ps)
    case RejectedAll => Rejected
    case CompiledAll(conds, qs) => Compiled(if conds == [] then True else And(conds), qs)
  }

  class SqlBuilder {
    var params: seq<Param>

    constructor ()
      ensures params == []
    {
      params := [];
    }

    method Bind(p: Param) returns (at: nat)
      modifies this
      ensures params == old(params) + [p] && at == |params|
    {
      params := params + [p];
      at := |params|;
    }

    method TextToSql(op: Op, t: Term, v: Value) returns (c: Cond)
      requires !op.Eq? && !op.NotEq?
      modifies this
      ensures (c, params) == TextCond(op, t, v, old(params))
    {
      var at;
      match op
      case Order(cmp) =>
        if v.One? && v.v.JNum? {
          at := Bind(PNumber(v.v.lit));
          c := if t.Udf? then CaseCmp(cmp, t, at) else CastCmp(cmp, t, at);
        } else {
          at := Bind(PText(Spell(v)));
          c := TextCmp(cmp, t, at);
        }
      case Begins => at := Bind(PText(Escape(Spell(v)) + "%")); c := ILike(t, at);
      case Ends => at := Bind(PText("%" + Escape(Spell(v)))); c := ILike(t, at);
      case Contains => at := Bind(PText("%" + Escape(Spell(v)) + "%")); c := ILike(t, at);
      case Exists => c := Not(IsNull(t));
      case Missing => c := IsNull(t);
      case In => at := Bind(PList(Texts(v))); c := LowerAny(t, at);
      case NotIn => at := Bind(PList(Texts(v))); c := Or([IsNull(t), Not(LowerAny(t, at))]);
    }

    method FieldToSql(op: Op, field: string, v: Value) returns (c: Cond)
      modifies this
      ensures (c, params) == FieldCond(op, field, v, old(params))
    {
      var t := Field(field);
      var at;
      if !op.Eq? && !op.NotEq? {
        c := TextToSql(op, t, v);
      } else if v == One(JNull) {
        c := if op.Eq? then IsNull(t) else Not(IsNull(t));
      } else if v.One? && v.v.JStr? {
        at := Bind(PText(v.v.s));
        c := if op.Eq? then LowerEq(t, at) else Or([IsNull(t), LowerNe(t, at)]);
      } else {
        at := Bind(PJson(field, v));
        c := if op.Eq? then Holds(at) else Not(Holds(at));
      }
    }

    method UdfToSql(op: Op, name: string, v: Value) returns (c: Cond)
      modifies this
      ensures (c, params) == UdfCond(op, name, v, old(params))
    {
      var at := Bind(PText(name));
      var t := Udf(at);
      if !op.Eq? && !op.NotEq? {
        c := TextToSql(op, t, v);
      } else if v == One(JNull) {
        c := if op.Eq? then IsNull(t) else Not(IsNull(t));
      } else {
        at := Bind(PText(Spell(v)));
        c := if op.Eq? then LowerEq(t, at) else Or([IsNull(t), LowerNe(t, at)]);
      }
    }

    /** One filter to a condition; a bad name or operator anywhere in it rejects the whole filter. */
    method FilterToSql(f: Filter) returns (ok: bool, c: Cond)
      modifies this
      ensures ok <==> Compile(f, old(params)).Compiled?
      ensures ok ==> Compile(f, old(params)) == Compiled(c, params)
      decreases f, 1
    {
      c := True;
      if IsGroup(f) {
        var parts;
        ok, parts := PartsToSql(f.items);
        if Lower(f.op) == "and" {
          c := if parts == [] then True else And(parts);
        } else {
          c := if parts == [] then False else Or(parts);
        }
      } else if OpOf(f.op).None? {
        ok := false;
      } else if f.udf {
        ok := ValidUdf(UdfName(f));
        if ok { c := UdfToSql(OpOf(f.op).value, UdfName(f), f.value); }
      } else {
        ok := f.field.Some? && ValidField(f.field.value);
        if ok { c := FieldToSql(OpOf(f.op).value, f.field.value, f.value); }
      }
    }

    /** The parts of a list, in order, sharing one list of bound values. */
    method PartsToSql(fs: seq<Filter>) returns (ok: bool, parts: seq<Cond>)
      modifies this
      ensures ok <==> CompileAll(fs, old(params)).CompiledAll?
      ensures ok ==> CompileAll(fs, old(params)) == CompiledAll(parts, params)
      decreases fs, 0
    {
      parts := [];
      var i := 0;
      while i < |fs|
        invariant 0 <= i <= |fs|
        invariant CompileAll(fs[..i], old(params)) == CompiledAll(parts, params)
      {
        var done, c := FilterToSql(fs[i]);
        assert fs[..i + 1][..i] == fs[..i];
        if !done {
          RejectedPrefix(fs, old(params), i + 1);
          return false, [];
        }
        parts := parts + [c];
        i := i + 1;
      }
      assert fs[..i] == fs;
      ok := true;
    }

    method WhereClause(fs: seq<Filter>) returns (ok: bool, c: Cond)
      modifies this
      ensures ok <==> Where(fs, old(params)).Compiled?
      ensures ok ==> Where(fs, old(params)) == Compiled(c, params)
    {
      var parts;
      ok, parts := PartsToSql(fs);
      c := if parts == [] then True else And(parts);
    }
  }

  lemma {:induction false} RejectedPrefix(fs: seq<Filter>, ps: seq<Param>, n: nat)
    requires n <= |fs| && CompileAll(fs[..n], ps).RejectedAll?
    ensures CompileAll(fs, ps).RejectedAll?
    decreases |fs|
  {
    if n == |fs| {
      assert fs[..n] == fs;
    } else {
      assert fs[..|fs| - 1][..n] == fs[..n];
      RejectedPrefix(fs[..|fs| - 1], ps, n);
    }
  }

  // ---------------------------------------------------------------- the SQL means the filter

  ghost predicate AllWell(fs: seq<Filter>) { forall i | 0 <= i < |fs| :: WellFormed(fs[i]) }

  lemma {:induction false} Compiles(f: Filter, ps: seq<Param>)
    ensures Compile(f, ps).Compiled? <==> WellFormed(f)
    decreases f
  {
    if IsGroup(f) { CompilesAll(f.items, ps); }
  }

  lemma AllWellSnoc(fs: seq<Filter>)
    requires fs != []
    ensures AllWell(fs) <==> AllWell(fs[..|fs| - 1]) && WellFormed(fs[|fs| - 1])
  {
  }

  lemma {:induction false} CompilesAll(fs: seq<Filter>, ps: seq<Param>)
    ensures CompileAll(fs, ps).CompiledAll? <==> AllWell(fs)
    decreases fs
  {
    if fs != [] {
      var n := |fs| - 1;
      AllWellSnoc(fs);
      CompilesAll(fs[..n], ps);
      if CompileAll(fs[..n], ps).CompiledAll? { Compiles(fs[n], CompileAll(fs[..n], ps).params); }
    }
  }

  /** What a condition yields for a row, against a verdict. */
  predicate Agrees(t: Truth, safe: bool, matches: bool) {
    (t == Error <==> !safe) && (safe ==> (t == T <==> matches))
  }

  predicate TextSafe(op: Op, t: Term, x: Option<string>, v: Value) {
    op.Order? && v.One? && v.v.JNum? && t.Field? ==> x.Some? ==> IsNumeral(x.value)
  }

  /** begins, ends with, contains: the pattern accepts what the filter asks for. */
  lemma LikeLeaf(op: Op, t: string, v: Value)
    requires op.Begins? || op.Ends? || op.Contains?
    ensures Accepts(if op.Begins? then Escape(Spell(v)) + "%" else if op.Ends? then "%" + Escape(Spell(v)) else "%" + Escape(Spell(v)) + "%", t)
            <==> TextMatches(op, Some(t), v)
  {
    if op.Begins? { LikeStart(Spell(v), t); }
    if op.Ends? { LikeEnd(Spell(v), t); }
    if op.Contains? { LikeInside(Spell(v), t); }
  }

  lemma NotInLeaf(t: Term, v: Value, ps: seq<Param>, r: Record)
    requires TermOk(t, ps)
    ensures var (c, qs) := TextCond(NotIn, t, v, ps);
            && ps <= qs && Safe(c, qs)
            && Agrees(Eval(c, qs, r), true, TextMatches(NotIn, TermText(t, ps, r), v))
  {
    var qs := ps + [PList(Texts(v))];
    assert TermText(t, qs, r) == TermText(t, ps, r);
    NullOr(t, Not(LowerAny(t, |qs|)), qs, r);
  }

  lemma OrderLeaf(op: Op, t: Term, v: Value, ps: seq<Param>, r: Record)
    requires op.Order? && TermOk(t, ps)
    ensures var (c, qs) := TextCond(op, t, v, ps);
            && ps <= qs && Safe(c, qs)
            && Agrees(Eval(c, qs, r), TextSafe(op, t, TermText(t, ps, r), v), TextMatches(op, TermText(t, ps, r), v))
  {
    assert TermText(t, TextCond(op, t, v, ps).1, r) == TermText(t, ps, r);
  }

  lemma PatternLeaf(op: Op, t: Term, v: Value, ps: seq<Param>, r: Record)
    requires (op.Begins? || op.Ends? || op.Contains?) && TermOk(t, ps)
    ensures var (c, qs) := TextCond(op, t, v, ps);
            && ps <= qs && Safe(c, qs)
            && Agrees(Eval(c, qs, r), true, TextMatches(op, TermText(t, ps, r), v))
  {
    var x := TermText(t, ps, r);
    assert TermText(t, TextCond(op, t, v, ps).1, r) == x;
    if x.Some? { LikeLeaf(op, x.value, v); }
  }

  lemma TextLeaf(op: Op, t: Term, v: Value, ps: seq<Param>, r: Record)
    requires !op.Eq? && !op.NotEq? && TermOk(t, ps)
    ensures var (c, qs) := TextCond(op, t, v, ps);
            && ps <= qs && Safe(c, qs)
            && Agrees(Eval(c, qs, r), TextSafe(op, t, TermText(t, ps, r), v), TextMatches(op, TermText(t, ps, r), v))
  {
    match op
    case Order(_) => OrderLeaf(op, t, v, ps, r);
    case NotIn => NotInLeaf(t, v, ps, r);
    case In => assert TermText(t, TextCond(op, t, v, ps).1, r) == TermText(t, ps, r);
    case Exists =>
    case Missing =>
    case _ => PatternLeaf(op, t, v, ps, r);
  }

  /** (t IS NULL OR rest) */
  lemma NullOr(t: Term, rest: Cond, ps: seq<Param>, r: Record)
    requires TermOk(t, ps) && Safe(rest, ps)
    ensures var c := Or([IsNull(t), rest]);
            && Safe(c, ps)
            && Eval(c, ps, r) == if Eval(rest, ps, r) == Error then Error else if TermText(t, ps, r).None? then T else Eval(rest, ps, r)
  {
    var cs := [IsNull(t), rest];
    assert cs[0] == IsNull(t) && cs[1] == rest;
    assert forall x :: Any(cs, ps, r, x) <==> TruthOf(TermText(t, ps, r).None?) == x || Eval(rest, ps, r) == x;
  }

  lemma FieldLeaf(op: Op, field: string, v: Value, ps: seq<Param>, r: Record)
    requires ValidField(field)
    ensures var (c, qs) := FieldCond(op, field, v, ps);
            var x := FieldText(r, field);
            && ps <= qs && Safe(c, qs)
            && Agrees(Eval(c, qs, r), TextSafe(op, Field(field), x, v),
                      if op.Eq? then Equals(r, field, v) else if op.NotEq? then !Equals(r, field, v) else TextMatches(op, x, v))
  {
    var t := Field(field);
    if !op.Eq? && !op.NotEq? {
      TextLeaf(op, t, v, ps, r);
    } else if v.One? && v.v.JStr? {
      var qs := ps + [PText(v.v.s)];
      NullOr(t, LowerNe(t, |qs|), qs, r);
    }
  }

  lemma UdfLeaf(op: Op, name: string, v: Value, ps: seq<Param>, r: Record)
    ensures var (c, qs) := UdfCond(op, name, v, ps);
            var x := UdfValue(r, name);
            && ps <= qs && Safe(c, qs)
            && Agrees(Eval(c, qs, r), true,
                      if op.Eq? then UdfEquals(r, name, v) else if op.NotEq? then !UdfEquals(r, name, v) else TextMatches(op, x, v))
  {
    var t, named := Udf(|ps| + 1), ps + [PText(name)];
    if !op.Eq? && !op.NotEq? {
      TextLeaf(op, t, v, named, r);
    } else if v != One(JNull) {
      var qs := named + [PText(Spell(v))];
      assert TermText(t, qs, r) == UdfValue(r, name);
      NullOr(t, LowerNe(t, |qs|), qs, r);
    }
  }

  /** A condition and a filter, on one row: refused together, and otherwise true together. */
  ghost predicate Faithful(c: Cond, ps: seq<Param>, f: Filter, r: Record) {
    WellFormed(f) && Safe(c, ps) && Agrees(Eval(c, ps, r), CastSafe(f, r), Matches(f, r))
  }

  ghost predicate FaithfulAll(cs: seq<Cond>, ps: seq<Param>, fs: seq<Filter>, r: Record) {
    |cs| == |fs| && forall i | 0 <= i < |cs| :: Faithful(cs[i], ps, fs[i], r)
  }

  lemma FaithfulSnoc(cs: seq<Cond>, mid: seq<Param>, qs: seq<Param>, fs: seq<Filter>, c: Cond, f: Filter, r: Record)
    requires FaithfulAll(cs, mid, fs, r) && mid <= qs && Faithful(c, qs, f, r)
    ensures FaithfulAll(cs + [c], qs, fs + [f], r)
  {
    forall i | 0 <= i < |cs| ensures Faithful(cs[i], qs, fs[i], r) {
      assert Faithful(cs[i], mid, fs[i], r);
      LaterParams(cs[i], mid, qs, r);
    }
  }

  /** A compiled filter is safe SQL, and selects exactly the rows the filter matches. */
  lemma {:induction false} FilterMeaning(f: Filter, ps: seq<Param>, r: Record)
    requires WellFormed(f)
    ensures Compile(f, ps).Compiled? && ps <= Compile(f, ps).params
    ensures Faithful(Compile(f, ps).cond, Compile(f, ps).params, f, r)
    decreases f
  {
    Compiles(f, ps);
    if IsGroup(f) {
      ListMeaning(f.items, ps, r);
      if f.items != [] { GroupMeaning(f, CompileAll(f.items, ps).conds, CompileAll(f.items, ps).params, r); }
    } else if f.udf {
      UdfLeaf(OpOf(f.op).value, UdfName(f), f.value, ps, r);
    } else {
      FieldLeaf(OpOf(f.op).value, f.field.value, f.value, ps, r);
    }
  }

  /** Three-valued and two-valued groups agree when their parts do. */
  lemma GroupMeaning(f: Filter, conds: seq<Cond>, qs: seq<Param>, r: Record)
    requires IsGroup(f) && FaithfulAll(conds, qs, f.items, r)
    ensures Faithful(if Lower(f.op) == "and" then And(conds) else Or(conds), qs, f, r)
  {
    forall i | 0 <= i < |conds| ensures Faithful(conds[i], qs, f.items[i], r) {}
  }

  lemma {:induction false} ListMeaning(fs: seq<Filter>, ps: seq<Param>, r: Record)
    requires AllWell(fs)
    ensures CompileAll(fs, ps).CompiledAll? && ps <= CompileAll(fs, ps).params
    ensures FaithfulAll(CompileAll(fs, ps).conds, CompileAll(fs, ps).params, fs, r)
    decreases fs
  {
    if fs != [] {
      var n := |fs| - 1;
      AllWellSnoc(fs);
      ListMeaning(fs[..n], ps, r);
      var cs, mid := CompileAll(fs[..n], ps).conds, CompileAll(fs[..n], ps).params;
      FilterMeaning(fs[n], mid, r);
      FaithfulSnoc(cs, mid, Compile(fs[n], mid).params, fs[..n], Compile(fs[n], mid).cond, fs[n], r);
      assert fs[..n] + [fs[n]] == fs;
    }
  }

  /** A filter list is one "and" group. */
  function AllOf(fs: seq<Filter>): Filter { Filter("and", None, Absent, fs, false) }

  lemma AllOfMeans(fs: seq<Filter>, r: Record)
    requires AllWell(fs)
    ensures WellFormed(AllOf(fs))
    ensures Matches(AllOf(fs), r) == MatchesAll(fs, r)
    ensures CastSafe(AllOf(fs), r) == forall i | 0 <= i < |fs| :: CastSafe(fs[i], r)
  {
    assert Lower(AllOf(fs).op) == "and";
  }

  lemma WhereFaithful(fs: seq<Filter>, ps: seq<Param>, r: Record)
    requires AllWell(fs)
    ensures Where(fs, ps).Compiled? && ps <= Where(fs, ps).params
    ensures Faithful(Where(fs, ps).cond, Where(fs, ps).params, AllOf(fs), r)
  {
    ListMeaning(fs, ps, r);
    AllOfMeans(fs, r);
    assert Lower(AllOf(fs).op) == "and";
    if fs != [] { GroupMeaning(AllOf(fs), CompileAll(fs, ps).conds, CompileAll(fs, ps).params, r); }
  }

  /**
   * The where clause of a filter list, with whatever is bound before and after it: never an unbound or mistyped
   * placeholder, refused by the database exactly when a cast is unsafe, and otherwise true of a row exactly when
   * every filter matches it.
   */
  lemma WhereMeaning(fs: seq<Filter>, ps: seq<Param>, c: Cond, qs: seq<Param>, r: Record)
    requires AllWell(fs)
    requires Where(fs, ps).Compiled? ==> c == Where(fs, ps).cond && Where(fs, ps).params <= qs
    ensures Where(fs, ps).Compiled? && ps <= qs && Safe(c, qs)
    ensures Eval(c, qs, r) == Error <==> exists i | 0 <= i < |fs| :: !CastSafe(fs[i], r)
    ensures Eval(c, qs, r) != Error ==> (Eval(c, qs, r) == T <==> MatchesAll(fs, r))
  {
    WhereFaithful(fs, ps, r);
    AllOfMeans(fs, r);
    LaterParams(c, Where(fs, ps).params, qs, r);
  }
}
