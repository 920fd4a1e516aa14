/**
 * The order SQLite's default BINARY collation puts TEXT values in:
 * character by character, a proper prefix first. Both the `date` column
 * (ISO `YYYY-MM-DD` text) and `pod_name` are sorted this way.
 */
module TextOrder {

  /** `a` sorts no later than `b`. */
  predicate LessEq(a: string, b: string)
    decreases |a|
  {
    if a == [] then true
    else if b == [] then false
    else if a[0] < b[0] then true
    else if b[0] < a[0] then false
    else LessEq(a[1..], b[1..])
  }

  /** `a` sorts strictly before `b`. */
  predicate Less(a: string, b: string)
  {
    LessEq(a, b) && a != b
  }

  lemma {:induction false} Reflexive(a: string)
    ensures LessEq(a, a)
  {
    if a != [] {
      Reflexive(a[1..]);
    }
  }

  lemma {:induction false} Antisymmetric(a: string, b: string)
    requires LessEq(a, b) && LessEq(b, a)
    ensures a == b
  {
    if a != [] && b != [] {
      Antisymmetric(a[1..], b[1..]);
      assert a == [a[0]] + a[1..] && b == [b[0]] + b[1..];
    }
  }

  lemma {:induction false} Transitive(a: string, b: string, c: string)
    requires LessEq(a, b) && LessEq(b, c)
    ensures LessEq(a, c)
  {
    if a != [] && b != [] && c != [] && a[0] == b[0] && b[0] == c[0] {
      Transitive(a[1..], b[1..], c[1..]);
    }
  }

  lemma {:induction false} Total(a: string, b: string)
    ensures LessEq(a, b) || LessEq(b, a)
  {
    if a != [] && b != [] && a[0] == b[0] {
      Total(a[1..], b[1..]);
    }
  }
}
