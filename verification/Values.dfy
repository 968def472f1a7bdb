/** The cell values of the in-memory engine and the comparisons of JavaScript on them. */
module Values {
  import opened Wrappers

  /** `Missing` is a field the row does not have. */
  datatype Value = Missing | Null | Bool(b: bool) | Num(n: real) | Str(s: string)

  /** What the host language decides: reading a string as a number, writing a number, matching a pattern. */
  datatype Js = Js(numeric: string -> Option<real>, show: real -> string, like: (string, string, bool) -> bool)

  predicate Nullish(v: Value) { v.Missing? || v.Null? }

  /** ToNumber; None is NaN. */
  function ToNumber(js: Js, v: Value): Option<real> {
    match v
    case Missing => None
    case Null => Some(0.0)
    case Bool(b) => Some(if b then 1.0 else 0.0)
    case Num(n) => Some(n)
    case Str(s) => js.numeric(s)
  }

  /** String(v ?? '') */
  function Text(js: Js, v: Value): string {
    match v
    case Missing => ""
    case Null => ""
    case Bool(b) => if b then "true" else "false"
    case Num(n) => js.show(n)
    case Str(s) => s
  }

  /** `==` against a string. */
  predicate LooseEq(js: Js, v: Value, s: string) {
    if Nullish(v) then false
    else if v.Str? then v.s == s
    else js.numeric(s).Some? && ToNumber(js, v) == js.numeric(s)
  }

  predicate Before(a: string, b: string) {
    b != [] && (a == [] || a[0] < b[0] || (a[0] == b[0] && Before(a[1..], b[1..])))
  }

  /** `<`: strings by their characters, everything else as numbers. */
  predicate Less(js: Js, a: Value, b: Value) {
    if a.Str? && b.Str? then Before(a.s, b.s)
    else
      var x, y := ToNumber(js, a), ToNumber(js, b);
      x.Some? && y.Some? && x.value < y.value
  }

  predicate AtMost(js: Js, a: Value, b: Value) {
    if a.Str? && b.Str? then !Before(b.s, a.s)
    else
      var x, y := ToNumber(js, a), ToNumber(js, b);
      x.Some? && y.Some? && x.value <= y.value
  }

  lemma {:induction false} BeforeIsLinear(a: string, b: string)
    ensures !Before(a, a)
    ensures Before(a, b) ==> !Before(b, a) && a != b
    ensures a == b || Before(a, b) || Before(b, a)
  {
    if a != [] {
      BeforeIsLinear(a[1..], if b == [] then [] else b[1..]);
      if b != [] && a[0] == b[0] && a[1..] == b[1..] {
        assert a == [a[0]] + a[1..] && b == [b[0]] + b[1..];
      }
    }
  }

  lemma {:induction false} BeforeChains(a: string, b: string, c: string)
    requires Before(a, b) && Before(b, c)
    ensures Before(a, c)
  {
    if a != [] && a[0] == b[0] == c[0] {
      BeforeChains(a[1..], b[1..], c[1..]);
    }
  }

  /** Of one type, or one of them empty; but not the two kinds of empty together. */
  predicate Comparable(a: Value, b: Value) {
    || (Nullish(a) && Nullish(b) && a == b)
    || (Nullish(a) != Nullish(b))
    || (a.Bool? && b.Bool?) || (a.Num? && b.Num?) || (a.Str? && b.Str?)
  }

  lemma LessIsLinear(js: Js, a: Value, b: Value)
    requires Comparable(a, b) && !Nullish(a) && !Nullish(b)
    ensures !Less(js, a, a)
    ensures Less(js, a, b) ==> !Less(js, b, a) && a != b
    ensures a == b || Less(js, a, b) || Less(js, b, a)
  {
    if a.Str? {
      BeforeIsLinear(a.s, b.s);
    }
  }

  lemma LessChains(js: Js, a: Value, b: Value, c: Value)
    requires Comparable(a, b) && Comparable(b, c) && !Nullish(a) && !Nullish(b) && !Nullish(c)
    requires Less(js, a, b) && Less(js, b, c)
    ensures Less(js, a, c)
  {
    if a.Str? {
      BeforeChains(a.s, b.s, c.s);
    }
  }
}
