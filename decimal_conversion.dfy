/** `convert_floats_to_decimal` of lambda.py: before a log entry is written to
    the table, every float in it becomes a `Decimal` (the table client refuses
    floats). */
module DecimalConversion {
  import opened Json

  /** Some leaf of the value is a float. */
  predicate HasFloat(v: Value)
  {
    match v
    case Float(_) => true
    case List(items) => exists j :: 0 <= j < |items| && HasFloat(items[j])
    case Dict(fields) => exists k :: k in fields && HasFloat(fields[k])
    case _ => false
  }

  /** Floats become decimals of the same value; dicts keep their keys and lists
      their length, with every member converted; everything else is returned
      as it is. No float is left anywhere in the result. */
  function ConvertFloatsToDecimal(v: Value): (r: Value)
    ensures !HasFloat(r)
    ensures v.Float? ==> r == Decimal(v.f)
    ensures v.Dict? ==> r.Dict? && r.fields.Keys == v.fields.Keys
    ensures v.List? ==> r.List? && |r.items| == |v.items|
    ensures !v.Float? && !v.Dict? && !v.List? ==> r == v
  {
    match v
    case Float(f) => Decimal(f)
    case Dict(fields) => Dict(map k | k in fields :: ConvertFloatsToDecimal(fields[k]))
    case List(items) => List(seq(|items|, j requires 0 <= j < |items| => ConvertFloatsToDecimal(items[j])))
    case _ => v
  }

  /** The value read with every decimal as a float: the numbers, not their type. */
  function AsFloats(v: Value): Value
  {
    match v
    case Decimal(d) => Float(d)
    case Dict(fields) => Dict(map k | k in fields :: AsFloats(fields[k]))
    case List(items) => List(seq(|items|, j requires 0 <= j < |items| => AsFloats(items[j])))
    case _ => v
  }

  /** A value without floats is returned unchanged. */
  lemma {:induction false} ConvertKeepsFloatFreeValue(v: Value)
    requires !HasFloat(v)
    ensures ConvertFloatsToDecimal(v) == v
  {
    match v
    case Dict(fields) =>
      var r := ConvertFloatsToDecimal(v).fields;
      forall k | k in fields ensures r[k] == fields[k] {
        ConvertKeepsFloatFreeValue(fields[k]);
      }
      assert r == fields;
    case List(items) =>
      var r := ConvertFloatsToDecimal(v).items;
      forall j | 0 <= j < |items| ensures r[j] == items[j] {
        ConvertKeepsFloatFreeValue(items[j]);
      }
      assert r == items;
    case _ =>
  }

  /** Converting twice is converting once. */
  lemma ConvertIdempotent(v: Value)
    ensures ConvertFloatsToDecimal(ConvertFloatsToDecimal(v)) == ConvertFloatsToDecimal(v)
  {
    ConvertKeepsFloatFreeValue(ConvertFloatsToDecimal(v));
  }

  /** The conversion changes how numbers are typed and nothing else: the tree,
      its keys, its order and every number stay as they were. */
  lemma {:induction false} ConvertKeepsNumbers(v: Value)
    ensures AsFloats(ConvertFloatsToDecimal(v)) == AsFloats(v)
  {
    match v
    case Dict(fields) =>
      var r := AsFloats(ConvertFloatsToDecimal(v)).fields;
      var a := AsFloats(v).fields;
      forall k | k in fields ensures r[k] == a[k] {
        ConvertKeepsNumbers(fields[k]);
      }
      assert r == a;
    case List(items) =>
      var r := AsFloats(ConvertFloatsToDecimal(v)).items;
      var a := AsFloats(v).items;
      forall j | 0 <= j < |items| ensures r[j] == a[j] {
        ConvertKeepsNumbers(items[j]);
      }
      assert r == a;
    case _ =>
  }
}
