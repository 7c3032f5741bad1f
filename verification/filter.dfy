/** The declarative attribute filter `filterFeatures`: a filter object is a
    conjunction over its entries, evaluated in entry order with the
    short-circuit of `Array.prototype.every`. An entry is one of
      - `{ type: 'includes', value }` : the attribute includes the value
        (any of them, when `value` is an array);
      - `property__op` with op `lte`, `gte` or `eq`: a comparison;
      - a plain key with an array condition: membership of the attribute;
      - a plain key with any other condition: strict equality.
    Evaluation can throw (a null condition, `includes` on a number), and
    the thrown exception escapes `filterFeatures`. */
module FeatureFilter {
  import opened Base
  import opened Json
  import opened Geo

  /** A filter object as its `Object.entries`: (key, condition) pairs in order. */
  type Filter = seq<(string, Value)>

  /** A `"__"` separator starts at position `i` of `s`. */
  predicate SepAt(s: string, i: int) {
    0 <= i && i + 2 <= |s| && s[i] == '_' && s[i + 1] == '_'
  }

  predicate HasSep(s: string) {
    exists i | 0 <= i < |s| :: SepAt(s, i)
  }

  /** Position of the first separator of `s` at or after `from`. */
  function FindSep(s: string, from: nat): (r: Option<nat>)
    ensures r.Some? ==> from <= r.value && SepAt(s, r.value)
    ensures r.Some? ==> forall i :: from <= i < r.value ==> !SepAt(s, i)
    ensures r.None? ==> forall i :: from <= i ==> !SepAt(s, i)
    decreases |s| - from
  {
    if from + 2 > |s| then None
    else if SepAt(s, from) then Some(from)
    else FindSep(s, from + 1)
  }

  /** The first two pieces of `key.split('__')`: the property name and, when
      the key has a separator, the operator piece after the first one. */
  datatype KeyParts = KeyParts(property: string, op: Option<string>)

  function SplitKey(key: string): (r: KeyParts)
    ensures r.op.None? <==> !HasSep(key)
    ensures r.op.None? ==> r.property == key
    ensures r.op.Some? ==>
              && |r.property| + 2 + |r.op.value| <= |key|
              && key[..|r.property| + 2 + |r.op.value|] == r.property + "__" + r.op.value
              && !HasSep(r.property)
              && !HasSep(r.op.value)
              && (|r.property| + 2 + |r.op.value| == |key| || SepAt(key, |r.property| + 2 + |r.op.value|))
  {
    match FindSep(key, 0)
    case None => KeyParts(key, None)
    case Some(i) =>
      var rest := key[i + 2..];
      var op := match FindSep(rest, 0) case None => rest case Some(j) => rest[..j];
      assert !HasSep(key[..i]) by {
        forall k | 0 <= k < i ensures !SepAt(key[..i], k) {
          assert !SepAt(key, k);
        }
      }
      assert !HasSep(op) by {
        forall k | 0 <= k < |op| ensures !SepAt(op, k) {
          assert !SepAt(rest, k);
        }
      }
      assert key[..i + 2 + |op|] == key[..i] + "__" + op;
      KeyParts(key[..i], Some(op))
  }

  /** Joining a property and an operator with `__` and splitting again gives
      them back, provided neither contains a separator and the property does
      not end in an underscore (which would move the first separator left). */
  lemma SplitJoin(property: string, op: string)
    requires !HasSep(property) && !HasSep(op)
    requires |property| == 0 || property[|property| - 1] != '_'
    ensures SplitKey(property + "__" + op) == KeyParts(property, Some(op))
  {
    var key := property + "__" + op;
    assert SepAt(key, |property|);
    forall k | 0 <= k < |property|
      ensures !SepAt(key, k)
    {
      if k + 1 < |property| {
        assert !SepAt(property, k);
      }
    }
    assert FindSep(key, 0) == Some(|property|) by {
      FindSepFirst(key, 0, |property|);
    }
    var rest := key[|property| + 2..];
    assert rest == op;
    assert FindSep(rest, 0).None?;
  }

  /** `FindSep` finds the first separator position. */
  lemma {:induction false} FindSepFirst(s: string, from: nat, i: nat)
    requires from <= i && SepAt(s, i)
    requires forall k :: from <= k < i ==> !SepAt(s, k)
    ensures FindSep(s, from) == Some(i)
    decreases i - from
  {
    if from < i {
      FindSepFirst(s, from + 1, i);
    }
  }

  /** `condition.type === 'includes'`. */
  predicate IsIncludesCondition(c: Value) {
    c.Obj? && "type" in c.fields && c.fields["type"] == Str("includes")
  }

  /** The operators a `property__op` key may carry. */
  predicate CompareOp(op: string, featureValue: Option<Value>, condition: Value) {
    if op == "lte" then LooseLe(featureValue, condition)
    else if op == "gte" then LooseGe(featureValue, condition)
    else if op == "eq" then StrictEq(featureValue, condition)
    else false
  }

  /** A key of the form `property__op` with a non-empty operator piece. */
  predicate IsOpKey(key: string) {
    SplitKey(key).op.Some? && SplitKey(key).op.value != ""
  }

  /** A target that has no `includes` method, so that calling it throws. */
  predicate LacksIncludes(target: Option<Value>) {
    target.Some? && (target.value.Num? || target.value.Bool? || target.value.Obj?)
  }

  /** `values.some(val => target?.includes(val))`. */
  function AnyIncludes(target: Option<Value>, values: seq<Value>): (r: Outcome<bool>)
    ensures |values| == 0 ==> r == Ok(false)
    ensures |values| > 0 && LacksIncludes(target) ==> r == Threw
    ensures !LacksIncludes(target) ==>
              r == Ok(exists i :: 0 <= i < |values| && OptionalIncludes(target, Some(values[i])) == Ok(true))
  {
    if |values| == 0 then Ok(false)
    else
      match OptionalIncludes(target, Some(values[0]))
      case Threw => Threw
      case Ok(true) => Ok(true)
      case Ok(false) =>
        var rest := AnyIncludes(target, values[1..]);
        assert !LacksIncludes(target) ==>
                 ((exists i :: 0 <= i < |values| && OptionalIncludes(target, Some(values[i])) == Ok(true)) <==>
                  (exists i :: 0 <= i < |values[1..]| && OptionalIncludes(target, Some(values[1..][i])) == Ok(true))) by {
          if !LacksIncludes(target) {
            forall i | 0 < i < |values| ensures values[i] == values[1..][i - 1] {}
          }
        }
        rest
  }

  /** One filter entry, judged by truthiness, as `every`'s callback does. */
  function EvalEntry(props: Props, key: string, condition: Value): (r: Outcome<bool>)
    ensures condition.Null? ==> r == Threw
    ensures IsIncludesCondition(condition) && Get(condition.fields, "value").Some?
            && Get(condition.fields, "value").value.Arr? && !LacksIncludes(Get(props, key)) ==>
              var values := condition.fields["value"].elems;
              r == Ok(exists i :: 0 <= i < |values| && OptionalIncludes(Get(props, key), Some(values[i])) == Ok(true))
    ensures IsIncludesCondition(condition) && Get(condition.fields, "value").Some?
            && Get(condition.fields, "value").value.Arr? && LacksIncludes(Get(props, key)) ==>
              r == (if |condition.fields["value"].elems| == 0 then Ok(false) else Threw)
    ensures IsIncludesCondition(condition) && !(Get(condition.fields, "value").Some? && Get(condition.fields, "value").value.Arr?) ==>
              r == OptionalIncludes(Get(props, key), Get(condition.fields, "value"))
    ensures !condition.Null? && !IsIncludesCondition(condition) && IsOpKey(key) ==>
              var op := SplitKey(key).op.value;
              var fv := Get(props, SplitKey(key).property);
              && (op == "lte" && fv.Some? && fv.value.Num? && condition.Num? ==> r == Ok(fv.value.n <= condition.n))
              && (op == "gte" && fv.Some? && fv.value.Num? && condition.Num? ==> r == Ok(fv.value.n >= condition.n))
              && (op == "lte" && fv.Some? && fv.value.Str? && condition.Str? ==> r == Ok(LexLe(fv.value.s, condition.s)))
              && (op == "gte" && fv.Some? && fv.value.Str? && condition.Str? ==> r == Ok(LexLe(condition.s, fv.value.s)))
              && (op == "eq" ==> r == Ok(fv == Some(condition) && IsPrimitive(condition)))
              && (op != "lte" && op != "gte" && op != "eq" ==> r == Ok(false))
    ensures !condition.Null? && !IsIncludesCondition(condition) && !IsOpKey(key) ==>
              var fv := Get(props, SplitKey(key).property);
              && (condition.Arr? ==> r == Ok(exists i :: 0 <= i < |condition.elems| && IsPrimitive(condition.elems[i])
                                                        && fv == Some(condition.elems[i])))
              && (!condition.Arr? ==> r == Ok(fv == Some(condition) && IsPrimitive(condition)))
  {
    if condition.Null? then Threw
    else if IsIncludesCondition(condition) then
      var target := Get(props, key);
      var value := Get(condition.fields, "value");
      if value.Some? && value.value.Arr? then AnyIncludes(target, value.value.elems)
      else OptionalIncludes(target, value)
    else
      var parts := SplitKey(key);
      var featureValue := Get(props, parts.property);
      if parts.op.Some? && parts.op.value != "" then Ok(CompareOp(parts.op.value, featureValue, condition))
      else if condition.Arr? then Ok(ArrayIncludes(condition.elems, featureValue))
      else Ok(StrictEq(featureValue, condition))
  }

  /** `Object.entries(filter).every(...)` over the attribute map. */
  function Every(props: Props, entries: Filter): (r: Outcome<bool>)
    ensures r == Ok(true) <==> forall i :: 0 <= i < |entries| ==> EvalEntry(props, entries[i].0, entries[i].1) == Ok(true)
    ensures r == Threw <==> exists i :: 0 <= i < |entries| && EvalEntry(props, entries[i].0, entries[i].1) == Threw
                                       && forall j :: 0 <= j < i ==> EvalEntry(props, entries[j].0, entries[j].1) == Ok(true)
  {
    AllOutcome(entries, (e: (string, Value)) => EvalEntry(props, e.0, e.1))
  }

  /** `filterFeatures(feature, filter)`. */
  function FilterFeatures(f: Feature, filter: Filter): Outcome<bool> {
    Every(f.properties, filter)
  }

  /** Sequential conjunction: the second part only runs when the first is true. */
  function AndThen(a: Outcome<bool>, b: Outcome<bool>): Outcome<bool> {
    if a == Ok(true) then b else a
  }

  /** A filter is the conjunction of its parts, in order: splitting the
      entries anywhere gives the same verdict. In particular the empty filter
      is true, and one false entry (reached without a throw) makes it false. */
  lemma {:induction false} FilterIsConjunction(f: Feature, a: Filter, b: Filter)
    ensures FilterFeatures(f, []) == Ok(true)
    ensures FilterFeatures(f, a + b) == AndThen(FilterFeatures(f, a), FilterFeatures(f, b))
    decreases |a|
  {
    if |a| > 0 {
      assert (a + b)[0] == a[0];
      assert (a + b)[1..] == a[1..] + b;
      FilterIsConjunction(f, a[1..], b);
    } else {
      assert a + b == b;
    }
  }

  /** `{ price__lte: 100 }` accepts a feature with a numeric `price` exactly
      when the price is at most 100, and rejects one without a price. */
  lemma PriceAtMost(f: Feature, limit: real)
    ensures "price" in f.properties && f.properties["price"].Num? ==>
              FilterFeatures(f, [("price__lte", Num(limit))]) == Ok(f.properties["price"].n <= limit)
    ensures "price" !in f.properties ==> FilterFeatures(f, [("price__lte", Num(limit))]) == Ok(false)
  {
    var key := "price__lte";
    SplitJoin("price", "lte");
    assert key == "price" + "__" + "lte";
    var e := [(key, Num(limit))];
    assert e[1..] == [];
  }

  /** `{ tags: { type: 'includes', value: ['x', 'y'] } }` accepts a feature
      whose `tags` is an array exactly when it holds "x" or "y". */
  lemma TagsIncludeAny(f: Feature)
    requires "tags" in f.properties && f.properties["tags"].Arr?
    ensures var cond := Obj(map["type" := Str("includes"), "value" := Arr([Str("x"), Str("y")])]);
            FilterFeatures(f, [("tags", cond)]) == Ok(Str("x") in f.properties["tags"].elems || Str("y") in f.properties["tags"].elems)
  {
    var cond := Obj(map["type" := Str("includes"), "value" := Arr([Str("x"), Str("y")])]);
    var tags := f.properties["tags"].elems;
    var e := [("tags", cond)];
    assert e[1..] == [];
    var values := [Str("x"), Str("y")];
    assert OptionalIncludes(Some(f.properties["tags"]), Some(values[0])) == Ok(Str("x") in tags) by {
      if Str("x") in tags {
        var k :| 0 <= k < |tags| && tags[k] == Str("x");
        assert StrictEq(Some(Str("x")), tags[k]);
      }
    }
    assert OptionalIncludes(Some(f.properties["tags"]), Some(values[1])) == Ok(Str("y") in tags) by {
      if Str("y") in tags {
        var k :| 0 <= k < |tags| && tags[k] == Str("y");
        assert StrictEq(Some(Str("y")), tags[k]);
      }
    }
  }
}
