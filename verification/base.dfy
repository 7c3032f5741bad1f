/** Small generic building blocks shared by every module: an optional value,
    the outcome of a step that may throw, and order-preserving sequence
    filters with the facts the rest of the model relies on. */
module Base {

  /** A value that may be absent (JavaScript `undefined`/`null`). */
  datatype Option<+T> = None | Some(value: T) {
    function GetOr(default: T): T {
      match this
      case Some(v) => v
      case None => default
    }
  }

  /** The outcome of a computation that may throw an exception. */
  datatype Outcome<+T> = Ok(value: T) | Threw

  /** The elements of `s` that satisfy `p`, in their original order. */
  function Filter<T(!new)>(s: seq<T>, p: T -> bool): (r: seq<T>)
    ensures |r| <= |s|
    ensures forall x :: x in r <==> x in s && p(x)
  {
    if |s| == 0 then []
    else if p(s[0]) then [s[0]] + Filter(s[1..], p)
    else Filter(s[1..], p)
  }

  /** Filtering distributes over concatenation, so it preserves order. */
  lemma {:induction false} FilterAppend<T(!new)>(a: seq<T>, b: seq<T>, p: T -> bool)
    ensures Filter(a + b, p) == Filter(a, p) + Filter(b, p)
  {
    if |a| == 0 {
      assert a + b == b;
    } else {
      assert (a + b)[1..] == a[1..] + b;
      FilterAppend(a[1..], b, p);
    }
  }

  /** Filtering one more element at the end either keeps it or drops it. */
  lemma FilterSnoc<T(!new)>(a: seq<T>, x: T, p: T -> bool)
    ensures Filter(a + [x], p) == Filter(a, p) + (if p(x) then [x] else [])
  {
    FilterAppend(a, [x], p);
    assert [x][1..] == [];
  }

  /** Filtering with two predicates that agree everywhere gives the same result. */
  lemma {:induction false} FilterCongruent<T(!new)>(s: seq<T>, p: T -> bool, q: T -> bool)
    requires forall x :: p(x) == q(x)
    ensures Filter(s, p) == Filter(s, q)
  {
    if |s| > 0 {
      FilterCongruent(s[1..], p, q);
    }
  }

  /** The elements a throwing test keeps: those it accepts without throwing. */
  function KeepOk<T>(p: T -> Outcome<bool>): T -> bool {
    x => p(x) == Ok(true)
  }

  /** `array.filter(cb)` where `cb` may throw: the kept elements, in order,
      or the exception of the first element whose test throws. */
  function FilterOutcome<T(!new)>(s: seq<T>, p: T -> Outcome<bool>): (r: Outcome<seq<T>>)
    ensures r.Threw? <==> exists i :: 0 <= i < |s| && p(s[i]).Threw?
    ensures r.Ok? ==> r.value == Filter(s, KeepOk(p))
  {
    if |s| == 0 then Ok([])
    else
      var rest := FilterOutcome(s[1..], p);
      assert (exists i :: 0 <= i < |s| && p(s[i]).Threw?) <==>
             (p(s[0]).Threw? || exists i :: 0 <= i < |s[1..]| && p(s[1..][i]).Threw?) by {
        assert forall i :: 0 < i < |s| ==> s[i] == s[1..][i - 1];
      }
      match p(s[0])
      case Threw => Threw
      case Ok(keep) =>
        match rest
        case Threw => Threw
        case Ok(kept) => Ok((if keep then [s[0]] else []) + kept)
  }

  /** `Promise.all(s.map(f))` where `f` may throw: every result, in order,
      or an exception when any element's step throws. */
  function MapOutcome<A, B>(s: seq<A>, f: A -> Outcome<B>): (r: Outcome<seq<B>>)
    ensures r.Threw? <==> exists i :: 0 <= i < |s| && f(s[i]).Threw?
    ensures r.Ok? ==> |r.value| == |s| && forall i :: 0 <= i < |s| ==> f(s[i]) == Ok(r.value[i])
  {
    if |s| == 0 then Ok([])
    else
      var rest := MapOutcome(s[1..], f);
      assert forall i :: 0 < i < |s| ==> s[i] == s[1..][i - 1];
      match f(s[0])
      case Threw => Threw
      case Ok(b) =>
        match rest
        case Threw => Threw
        case Ok(tail) => Ok([b] + tail)
  }

  /** `array.every(cb)` where `cb` may throw: true iff every test is true;
      the first test that is not true decides, so it throws iff that test throws. */
  function AllOutcome<T>(s: seq<T>, p: T -> Outcome<bool>): (r: Outcome<bool>)
    ensures r == Ok(true) <==> forall i :: 0 <= i < |s| ==> p(s[i]) == Ok(true)
    ensures r == Threw <==> exists i :: 0 <= i < |s| && p(s[i]) == Threw
                                        && forall j :: 0 <= j < i ==> p(s[j]) == Ok(true)
  {
    if |s| == 0 then Ok(true)
    else
      match p(s[0])
      case Threw => Threw
      case Ok(false) => Ok(false)
      case Ok(true) =>
        var rest := AllOutcome(s[1..], p);
        assert forall i :: 0 < i < |s| ==> s[i] == s[1..][i - 1];
        assert rest == Threw ==> exists i :: 0 <= i < |s| && p(s[i]) == Threw
                                             && forall j :: 0 <= j < i ==> p(s[j]) == Ok(true) by {
          if rest == Threw {
            var i :| 0 <= i < |s[1..]| && p(s[1..][i]) == Threw && forall j :: 0 <= j < i ==> p(s[1..][j]) == Ok(true);
            assert p(s[i + 1]) == Threw;
            forall j | 0 <= j < i + 1 ensures p(s[j]) == Ok(true) {
              if j > 0 { assert s[j] == s[1..][j - 1]; }
            }
          }
        }
        rest
  }

  /** The concatenation of a sequence of sequences, in order. */
  function Flatten<T>(xs: seq<seq<T>>): (r: seq<T>)
    ensures |xs| > 0 ==> r == xs[0] + Flatten(xs[1..])
  {
    if |xs| == 0 then [] else xs[0] + Flatten(xs[1..])
  }

  /** No element occurs twice. */
  predicate NoDuplicates<T(==)>(s: seq<T>) {
    forall i, j :: 0 <= i < j < |s| ==> s[i] != s[j]
  }

  /** The distinct elements of `s`, each at the position of its first occurrence. */
  function Dedup<T(==,!new)>(s: seq<T>): (r: seq<T>)
    ensures NoDuplicates(r)
    ensures forall x :: x in r <==> x in s
    ensures |r| <= |s|
  {
    if |s| == 0 then []
    else
      var d := Dedup(s[..|s| - 1]);
      assert s == s[..|s| - 1] + [s[|s| - 1]];
      if s[|s| - 1] in d then d else d + [s[|s| - 1]]
  }

  /** Deduplicating one more element at the end appends it iff it is new. */
  lemma DedupSnoc<T(!new)>(s: seq<T>, x: T)
    ensures Dedup(s + [x]) == if x in Dedup(s) then Dedup(s) else Dedup(s) + [x]
  {
    assert (s + [x])[..|s + [x]| - 1] == s;
  }
}
