/** JSON-like attribute values and the handful of JavaScript semantics the
    service branches on: truthiness, strict equality, `includes` and the
    relational operators `<=`/`>=`. */
module Json {
  import opened Base

  /** A decoded attribute or configuration value. JavaScript `undefined`
      never occurs inside a value; where a lookup may produce it the model
      uses `Option<Value>` and `None`. */
  datatype Value =
    | Str(s: string)
    | Num(n: real)
    | Bool(b: bool)
    | Null
    | Arr(elems: seq<Value>)
    | Obj(fields: map<string, Value>)

  /** A feature's attribute map. */
  type Props = map<string, Value>

  /** `props[key]`, with `None` standing for `undefined`. */
  function Get(props: Props, key: string): (r: Option<Value>)
    ensures r.Some? <==> key in props
    ensures r.Some? ==> r.value == props[key]
  {
    if key in props then Some(props[key]) else None
  }

  /** JavaScript truthiness of a value (NaN does not occur in the model). */
  predicate Truthy(v: Value) {
    match v
    case Str(s) => s != ""
    case Num(n) => n != 0.0
    case Bool(b) => b
    case Null => false
    case Arr(_) => true
    case Obj(_) => true
  }

  /** Truthiness of a possibly-`undefined` value: `undefined` is falsy. */
  predicate TruthyOpt(v: Option<Value>) {
    v.Some? && Truthy(v.value)
  }

  /** A truthy string: present and non-empty. */
  predicate TruthyString(s: Option<string>) {
    s.Some? && s.value != ""
  }

  /** A primitive (non-object) value. */
  predicate IsPrimitive(v: Value) {
    !v.Arr? && !v.Obj?
  }

  /** `a === b`. Arrays and objects compare by identity, and a feature
      attribute and a configuration value are never the same object, so
      they are never strictly equal to anything here. */
  predicate StrictEq(a: Option<Value>, b: Value) {
    a.Some? && IsPrimitive(b) && a.value == b
  }

  /** `arr.includes(x)` (SameValueZero, which agrees with `===` without NaN). */
  predicate ArrayIncludes(elems: seq<Value>, x: Option<Value>) {
    exists i :: 0 <= i < |elems| && StrictEq(x, elems[i])
  }

  /** `t` occurs in `s` starting at position `i`. */
  predicate OccursAt(t: string, s: string, i: int) {
    0 <= i <= |s| - |t| && s[i..i + |t|] == t
  }

  /** `t` occurs as a contiguous piece of `s`. */
  predicate IsSubstring(t: string, s: string) {
    exists i | 0 <= i <= |s| - |t| :: OccursAt(t, s, i)
  }

  /** `String(x)` for the arguments whose string form the model knows;
      `None` for numbers and arrays, whose formatting is not modelled. */
  function StringForm(x: Option<Value>): Option<string> {
    match x
    case None => Some("undefined")
    case Some(Str(s)) => Some(s)
    case Some(Null) => Some("null")
    case Some(Bool(b)) => Some(if b then "true" else "false")
    case Some(Obj(_)) => Some("[object Object]")
    case Some(Num(_)) => None
    case Some(Arr(_)) => None
  }

  /** `target?.includes(arg)` judged by truthiness. A missing or null target
      short-circuits to `undefined` (false); strings search for a substring,
      arrays for an element; numbers, booleans and objects have no
      `includes` method, so calling it throws. */
  function OptionalIncludes(target: Option<Value>, arg: Option<Value>): (r: Outcome<bool>)
    ensures r == Threw <==> target.Some? && (target.value.Num? || target.value.Bool? || target.value.Obj?)
    ensures target.None? || target == Some(Null) ==> r == Ok(false)
    ensures target.Some? && target.value.Arr? ==> (r == Ok(true) <==> ArrayIncludes(target.value.elems, arg))
    ensures target.Some? && target.value.Str? && arg.Some? && arg.value.Str? ==>
              (r == Ok(true) <==> IsSubstring(arg.value.s, target.value.s))
  {
    match target
    case None => Ok(false)
    case Some(Null) => Ok(false)
    case Some(Str(s)) =>
      (match StringForm(arg)
       case Some(t) => Ok(IsSubstring(t, s))
       case None => Ok(false))
    case Some(Arr(elems)) => Ok(ArrayIncludes(elems, arg))
    case Some(Num(_)) => Threw
    case Some(Bool(_)) => Threw
    case Some(Obj(_)) => Threw
  }

  /** Lexicographic order on strings, by Unicode scalar value. */
  predicate LexLe(a: string, b: string) {
    |a| == 0 || (|b| > 0 && (a[0] < b[0] || (a[0] == b[0] && LexLe(a[1..], b[1..]))))
  }

  /** The number a non-string value converts to in a relational comparison:
      null is 0, booleans are 0 or 1, `undefined` and objects are NaN
      (`None`). Strings and arrays are not converted by the model. */
  function NumericForm(v: Option<Value>): Option<real> {
    match v
    case None => None
    case Some(Null) => Some(0.0)
    case Some(Bool(b)) => Some(if b then 1.0 else 0.0)
    case Some(Num(n)) => Some(n)
    case Some(Str(_)) => None
    case Some(Arr(_)) => None
    case Some(Obj(_)) => None
  }

  /** `a <= b`: strings compare lexicographically, numbers, booleans and null
      numerically; every other combination is false in the model. */
  predicate LooseLe(a: Option<Value>, b: Value) {
    if a.Some? && a.value.Str? && b.Str? then LexLe(a.value.s, b.s)
    else NumericForm(a).Some? && NumericForm(Some(b)).Some? && NumericForm(a).value <= NumericForm(Some(b)).value
  }

  /** `a >= b`, which JavaScript evaluates as `b <= a`. */
  predicate LooseGe(a: Option<Value>, b: Value) {
    if a.Some? && a.value.Str? && b.Str? then LexLe(b.s, a.value.s)
    else NumericForm(a).Some? && NumericForm(Some(b)).Some? && NumericForm(Some(b)).value <= NumericForm(a).value
  }

  /** `v[0]` on a value, `undefined` unless `v` is a non-empty array. */
  function First(v: Value): (r: Option<Value>)
    ensures r.Some? <==> v.Arr? && |v.elems| > 0
    ensures r.Some? ==> r.value == v.elems[0]
  {
    if v.Arr? && |v.elems| > 0 then Some(v.elems[0]) else None
  }

  /** `v.length > 0`: arrays and strings by their length; anything else has
      no length, and `undefined > 0` is false. */
  predicate HasPositiveLength(v: Value) {
    (v.Arr? && |v.elems| > 0) || (v.Str? && |v.s| > 0)
  }

  /** `LexLe` is a total order: reflexive and connected. */
  lemma {:induction false} LexLeTotal(a: string, b: string)
    ensures LexLe(a, a)
    ensures LexLe(a, b) || LexLe(b, a)
  {
    if |a| > 0 {
      LexLeTotal(a[1..], a[1..]);
      if |b| > 0 && a[0] == b[0] {
        LexLeTotal(a[1..], b[1..]);
      }
    }
  }
}
