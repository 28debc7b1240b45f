/**
 The Python values the engine moves between JSON text, game rules and records.

 Text is a sequence of Unicode scalar values, the strings that have a UTF-8 form.
 Broken stands for a str holding an unpaired surrogate, which json.loads can
 produce and UTF-8 cannot encode. Float carries the number's text and nothing else:
 the engine never computes with one.
 */
module JsonValues {
  datatype Json =
    | Null
    | Bool(b: bool)
    | Int(n: int)
    | Float(repr: string)
    | Str(s: string)
    | Broken(codePoints: seq<int>)
    | List(items: seq<Json>)
    | Obj(fields: map<string, Json>)

  type Body = map<string, Json>

  // dict.get(key): a missing key reads as None.
  function Get(m: Body, key: string): Json {
    if key in m then m[key] else Null
  }

  // canonical._check: no float anywhere.
  predicate Checked(j: Json) {
    match j
    case Float(_) => false
    case List(items) => forall x | x in items :: Checked(x)
    case Obj(m) => forall k | k in m :: Checked(m[k])
    case _ => true
  }

  // Every text inside has a UTF-8 form.
  predicate Textual(j: Json) {
    match j
    case Broken(_) => false
    case List(items) => forall x | x in items :: Textual(x)
    case Obj(m) => forall k | k in m :: Textual(m[k])
    case _ => true
  }

  predicate Encodable(j: Json) {
    Checked(j) && Textual(j)
  }

  // replay._exact_equal: equality that looks at the type before the value.
  predicate ExactEqual(left: Json, right: Json) {
    match (left, right)
    case (Null, Null) => true
    case (Bool(a), Bool(b)) => a == b
    case (Int(a), Int(b)) => a == b
    case (Float(a), Float(b)) => a == b && a != "nan"
    case (Str(a), Str(b)) => a == b
    case (Broken(a), Broken(b)) => a == b
    case (List(xs), List(ys)) =>
      |xs| == |ys| && forall i | 0 <= i < |xs| :: ExactEqual(xs[i], ys[i])
    case (Obj(m), Obj(n)) =>
      m.Keys == n.Keys && forall k | k in m :: ExactEqual(m[k], n[k])
    case _ => false
  }

  /** On values that can be hashed, _exact_equal is identity of values: it never
      confuses True with 1, and it ignores nothing. */
  lemma {:induction false} ExactEqualIsIdentity(left: Json, right: Json)
    requires Checked(left)
    ensures ExactEqual(left, right) <==> left == right
  {
    match (left, right)
    case (List(xs), List(ys)) =>
      forall i | 0 <= i < |xs| && i < |ys| {
        ExactEqualIsIdentity(xs[i], ys[i]);
      }
    case (Obj(m), Obj(n)) =>
      forall k | k in m && k in n {
        ExactEqualIsIdentity(m[k], n[k]);
      }
    case _ =>
  }
}
