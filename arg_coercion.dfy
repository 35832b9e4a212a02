/**
 * Schema-driven coercion of story arguments (`mapArgsToTypes` in
 * lib/client-api/src/args.ts, as its test file pins it down).
 *
 * A record of raw values is coerced field by field against a record of type
 * descriptors. Strings and numbers go through JavaScript's `String()` and
 * `Number()` conversions, booleans are `true` only for the string "true",
 * function-typed fields are dropped, and objects and arrays recurse through
 * the nested descriptors.
 */
module ArgCoercion {
  import opened Wrappers

  /** A JavaScript number, abstracted to the integers plus the not-a-number value. */
  datatype Number = Finite(n: int) | NaN

  /** An argument value as it arrives from the UI controls, or as coercion produces it. */
  datatype Value =
    | Str(s: string)
    | Num(num: Number)
    | Bool(b: bool)
    | Obj(fields: map<string, Value>)
    | Arr(items: seq<Value>)
    | Undefined

  /** The tagged type descriptor `{ name, value }`. */
  datatype TypeDescriptor =
    | StringType
    | NumberType
    | BooleanType
    | FunctionType
    | ObjectType(fieldTypes: map<string, TypeDescriptor>)
    | ArrayType(element: TypeDescriptor)
    | OtherType(name: string)

  // ---------------------------------------------------------------------------
  // Decimal rendering and parsing of integers (JavaScript's String/Number on
  // integral values)
  // ---------------------------------------------------------------------------

  predicate IsDigit(c: char) { '0' <= c <= '9' }

  predicate IsDigits(s: string) { forall i :: 0 <= i < |s| ==> IsDigit(s[i]) }

  function DigitChar(d: nat): (c: char)
    requires d < 10
    ensures IsDigit(c) && (c as int) - ('0' as int) == d
  {
    (('0' as int) + d) as char
  }

  /** The shortest decimal numeral of `n`, most significant digit first. */
  function NaturalToString(n: nat): (s: string)
    decreases n
  {
    if n < 10 then [DigitChar(n)] else NaturalToString(n / 10) + [DigitChar(n % 10)]
  }

  /** The value of a string of decimal digits, read left to right. */
  function DigitsValue(s: string): nat
    requires IsDigits(s)
  {
    if s == [] then 0
    else DigitsValue(s[..|s| - 1]) * 10 + ((s[|s| - 1] as int) - ('0' as int))
  }

  /** `String(x)` for a number: a leading minus sign for negatives, "NaN" for not-a-number. */
  function NumberToString(x: Number): string
  {
    match x
    case NaN => "NaN"
    case Finite(i) => if i < 0 then "-" + NaturalToString(-i) else NaturalToString(i)
  }

  /**
   * `Number(s)` for a string: the empty string is zero, a run of digits
   * (optionally after one minus sign) is that integer, anything else is
   * not-a-number.
   */
  function ParseNumber(s: string): (x: Number)
    ensures s == "" ==> x == Finite(0)
    ensures s != "" && IsDigits(s) ==> x == Finite(DigitsValue(s))
    ensures |s| > 1 && s[0] == '-' && IsDigits(s[1..]) ==> x == Finite(-(DigitsValue(s[1..]) as int))
    ensures (exists i :: 0 <= i < |s| && !IsDigit(s[i]) && !(i == 0 && s[i] == '-')) ==> x == NaN
    ensures s == "-" ==> x == NaN
    ensures x.Finite? && x.n < 0 ==> s[0] == '-'
  {
    if IsDigits(s) then Finite(DigitsValue(s))
    else if |s| > 1 && s[0] == '-' && IsDigits(s[1..]) then Finite(-(DigitsValue(s[1..]) as int))
    else NaN
  }

  lemma {:induction false} NaturalToStringIsDigits(n: nat)
    ensures var s := NaturalToString(n); s != [] && IsDigits(s) && DigitsValue(s) == n
    decreases n
  {
    if n >= 10 {
      NaturalToStringIsDigits(n / 10);
      var prefix := NaturalToString(n / 10);
      var s := prefix + [DigitChar(n % 10)];
      assert s[..|s| - 1] == prefix;
      assert DigitsValue(s) == DigitsValue(prefix) * 10 + n % 10;
    }
  }

  /** Rendering an integer and parsing it back gives the same integer. */
  lemma {:induction false} NumberStringRoundTrip(i: int)
    ensures ParseNumber(NumberToString(Finite(i))) == Finite(i)
  {
    if i < 0 {
      NaturalToStringIsDigits(-i);
      var s := NumberToString(Finite(i));
      assert s[0] == '-' && !IsDigit(s[0]);
      assert s[1..] == NaturalToString(-i);
    } else {
      NaturalToStringIsDigits(i);
    }
  }

  // ---------------------------------------------------------------------------
  // JavaScript's String() and Number() on the value domain
  // ---------------------------------------------------------------------------

  /** `String(v)`: arrays are joined with commas, holes becoming empty. */
  function ToJsString(v: Value): string
    decreases v, 1
  {
    match v
    case Str(s) => s
    case Num(x) => NumberToString(x)
    case Bool(b) => if b then "true" else "false"
    case Obj(_) => "[object Object]"
    case Arr(items) => JoinElements(items, v)
    case Undefined => "undefined"
  }

  /** `Array.prototype.join(",")` over the elements of the array `whole`. */
  function JoinElements(items: seq<Value>, ghost whole: Value): string
    requires forall i :: 0 <= i < |items| ==> items[i] < whole
    decreases whole, 0, |items|
  {
    if items == [] then ""
    else
      var head := if items[0].Undefined? then "" else ToJsString(items[0]);
      if |items| == 1 then head else head + "," + JoinElements(items[1..], whole)
  }

  /** `Number(v)`. */
  function ToJsNumber(v: Value): Number
  {
    match v
    case Num(x) => x
    case Bool(b) => Finite(if b then 1 else 0)
    case _ => ParseNumber(ToJsString(v))
  }

  // ---------------------------------------------------------------------------
  // The coercion
  // ---------------------------------------------------------------------------

  /** What a coerced value of a given descriptor looks like. */
  predicate Conforms(v: Value, t: TypeDescriptor)
    decreases t
  {
    match t
    case StringType => v.Str?
    case NumberType => v.Num?
    case BooleanType => v.Bool?
    case FunctionType => false
    case ObjectType(fieldTypes) =>
      && v.Obj?
      && v.fields.Keys <= fieldTypes.Keys
      && forall k :: k in v.fields ==> Conforms(v.fields[k], fieldTypes[k])
    case ArrayType(element) =>
      v.Arr? && forall i :: 0 <= i < |v.items| ==> v.items[i].Undefined? || Conforms(v.items[i], element)
    case OtherType(_) => true
  }

  /**
   * Coerces one value against its descriptor; `None` is the "incompatible"
   * marker that makes the enclosing record drop the field.
   */
  function Coerce(v: Value, t: TypeDescriptor): (r: Option<Value>)
    decreases t, 1
    ensures r.None? <==> t.FunctionType?
    ensures t.BooleanType? ==> (r == Some(Bool(true)) <==> v == Str("true"))
    ensures t.StringType? && v.Str? ==> r == Some(v)
    ensures t.StringType? && v.Num? ==> r == Some(Str(NumberToString(v.num)))
    ensures t.StringType? && v.Bool? ==> r == Some(Str(if v.b then "true" else "false"))
    ensures t.NumberType? && v.Str? ==> r == Some(Num(ParseNumber(v.s)))
    ensures t.NumberType? && v.Num? ==> r == Some(v)
    ensures t.ObjectType? && v.Obj? ==>
              && r.value.Obj? && r.value.fields.Keys <= v.fields.Keys * t.fieldTypes.Keys
              && r.value.fields == MapArgsToTypes(v.fields, t.fieldTypes)
    ensures t.ArrayType? && v.Arr? ==> r.value.Arr? && |r.value.items| == |v.items|
    ensures t.ArrayType? && v.Arr? && !t.element.FunctionType? ==>
              forall i :: 0 <= i < |v.items| ==> Coerce(v.items[i], t.element) == Some(r.value.items[i])
    ensures t.ArrayType? && v.Arr? && t.element.FunctionType? ==>
              forall i :: 0 <= i < |v.items| ==> r.value.items[i] == Undefined
    ensures t.OtherType? ==> r == Some(v)
  {
    match t
    case StringType => Some(Str(ToJsString(v)))
    case NumberType => Some(Num(ToJsNumber(v)))
    case BooleanType => Some(Bool(v == Str("true")))
    case FunctionType => None
    case ObjectType(fieldTypes) =>
      if v.Obj? then Some(Obj(MapArgsToTypes(v.fields, fieldTypes))) else Some(Obj(map[]))
    case ArrayType(element) =>
      if v.Arr? then
        Some(Arr(seq(|v.items|, i requires 0 <= i < |v.items| =>
          match Coerce(v.items[i], element)
          case Some(w) => w
          case None => Undefined)))
      else Some(Arr([]))
    case OtherType(_) => Some(v)
  }

  /**
   * `mapArgsToTypes(args, argTypes)`: every key present in both the record
   * and the schema whose descriptor is not a function, coerced by that
   * descriptor; nothing else.
   */
  function MapArgsToTypes(args: map<string, Value>, argTypes: map<string, TypeDescriptor>): (r: map<string, Value>)
    decreases ObjectType(argTypes), 0
    ensures r.Keys == set k | k in args && k in argTypes && !argTypes[k].FunctionType?
    ensures forall k :: k in r ==> Coerce(args[k], argTypes[k]) == Some(r[k])
  {
    map k | k in args && k in argTypes && Coerce(args[k], argTypes[k]).Some? :: Coerce(args[k], argTypes[k]).value
  }

  /** Every value coercion produces conforms to the descriptor it was coerced against. */
  lemma {:induction false} CoercedConforms(v: Value, t: TypeDescriptor)
    requires !t.FunctionType?
    ensures Conforms(Coerce(v, t).value, t)
    decreases t
  {
    match t
    case ObjectType(fieldTypes) =>
      if v.Obj? {
        var fields := MapArgsToTypes(v.fields, fieldTypes);
        forall k | k in fields ensures Conforms(fields[k], fieldTypes[k]) {
          CoercedConforms(v.fields[k], fieldTypes[k]);
        }
      }
    case ArrayType(element) =>
      if v.Arr? {
        var items := Coerce(v, t).value.items;
        forall i | 0 <= i < |items| ensures items[i].Undefined? || Conforms(items[i], element) {
          if !element.FunctionType? {
            CoercedConforms(v.items[i], element);
          }
        }
      }
    case _ =>
  }

  /** The coerced record conforms field by field to the schema. */
  lemma MapArgsToTypesConforms(args: map<string, Value>, argTypes: map<string, TypeDescriptor>)
    ensures var r := MapArgsToTypes(args, argTypes);
            forall k :: k in r ==> Conforms(r[k], argTypes[k])
  {
    var r := MapArgsToTypes(args, argTypes);
    forall k | k in r ensures Conforms(r[k], argTypes[k]) {
      CoercedConforms(args[k], argTypes[k]);
    }
  }

  /** A number coerced by a string-typed field and then by a number-typed field comes back unchanged. */
  lemma NumberThroughStringRoundTrip(i: int)
    ensures Coerce(Coerce(Num(Finite(i)), StringType).value, NumberType) == Some(Num(Finite(i)))
  {
    NumberStringRoundTrip(i);
  }

  // ---------------------------------------------------------------------------
  // The cases of the test file, as lemmas
  // ---------------------------------------------------------------------------

  lemma MapsStrings()
    ensures MapArgsToTypes(map["a" := Str("str")], map["a" := StringType]) == map["a" := Str("str")]
    ensures MapArgsToTypes(map["a" := Num(Finite(42))], map["a" := StringType]) == map["a" := Str("42")]
  {
    assert NaturalToString(42) == "42";
  }

  lemma MapsNumbers()
    ensures MapArgsToTypes(map["a" := Str("42")], map["a" := NumberType]) == map["a" := Num(Finite(42))]
    ensures MapArgsToTypes(map["a" := Str("a")], map["a" := NumberType]) == map["a" := Num(NaN)]
  {
    assert DigitsValue("42") == 42 by {
      assert "42"[..1] == "4";
      assert "4"[..0] == "";
    }
    assert !IsDigit('a');
  }

  lemma MapsBooleans()
    ensures MapArgsToTypes(map["a" := Str("true")], map["a" := BooleanType]) == map["a" := Bool(true)]
    ensures MapArgsToTypes(map["a" := Str("false")], map["a" := BooleanType]) == map["a" := Bool(false)]
    ensures MapArgsToTypes(map["a" := Str("yes")], map["a" := BooleanType]) == map["a" := Bool(false)]
  {
  }

  lemma OmitsFunctions()
    ensures MapArgsToTypes(map["a" := Str("something")], map["a" := FunctionType]) == map[]
  {
  }

  lemma OmitsUnknownKeys()
    ensures MapArgsToTypes(map["a" := Str("string")], map["b" := StringType]) == map[]
  {
  }

  /** `{ name: 'array', value: numberType }` and `{ name: 'object', value: { bool: booleanType } }`. */
  const NumArrayType := ArrayType(NumberType)
  const BoolObjectType := ObjectType(map["bool" := BooleanType])

  /** The record `{ arr: ['1', '2'], obj: { bool: 'true' } }` shared by the two deep cases. */
  const DeepRaw := Obj(map["arr" := Arr([Str("1"), Str("2")]), "obj" := Obj(map["bool" := Str("true")])])
  const DeepType := ObjectType(map["arr" := NumArrayType, "obj" := BoolObjectType])
  const DeepCoerced := Obj(map["arr" := Arr([Num(Finite(1)), Num(Finite(2))]), "obj" := Obj(map["bool" := Bool(true)])])

  lemma NumArrayCoerced()
    ensures Coerce(Arr([Str("1"), Str("2")]), NumArrayType) == Some(Arr([Num(Finite(1)), Num(Finite(2))]))
  {
    assert DigitsValue("1") == 1 by { assert "1"[..0] == ""; }
    assert DigitsValue("2") == 2 by { assert "2"[..0] == ""; }
    assert ParseNumber("1") == Finite(1) by { assert IsDigits("1"); }
    assert ParseNumber("2") == Finite(2) by { assert IsDigits("2"); }
    assert Coerce(Str("1"), NumberType) == Some(Num(Finite(1)));
    assert Coerce(Str("2"), NumberType) == Some(Num(Finite(2)));
    var items := Coerce(Arr([Str("1"), Str("2")]), NumArrayType).value.items;
    assert |items| == 2;
    assert items[0] == Num(Finite(1)) && items[1] == Num(Finite(2));
    assert items == [Num(Finite(1)), Num(Finite(2))];
  }

  lemma BoolObjectCoerced()
    ensures Coerce(Obj(map["bool" := Str("true")]), BoolObjectType) == Some(Obj(map["bool" := Bool(true)]))
  {
    var inner := MapArgsToTypes(map["bool" := Str("true")], map["bool" := BooleanType]);
    assert inner.Keys == {"bool"};
    assert inner["bool"] == Bool(true);
    assert inner == map["bool" := Bool(true)];
  }

  lemma DeepRecordCoerced()
    ensures Coerce(DeepRaw, DeepType) == Some(DeepCoerced)
  {
    NumArrayCoerced();
    BoolObjectCoerced();
    var fields := MapArgsToTypes(DeepRaw.fields, DeepType.fieldTypes);
    assert fields.Keys == {"arr", "obj"};
    assert fields == DeepCoerced.fields;
  }

  /** A one-field record coerces to the one-field record of that field's coercion. */
  lemma SingleFieldCoerced(k: string, v: Value, t: TypeDescriptor, w: Value)
    requires Coerce(v, t) == Some(w)
    ensures MapArgsToTypes(map[k := v], map[k := t]) == map[k := w]
  {
    var r := MapArgsToTypes(map[k := v], map[k := t]);
    assert r.Keys == {k};
  }

  lemma DeeplyMapsObjects()
    ensures MapArgsToTypes(map["key" := DeepRaw], map["key" := DeepType]) == map["key" := DeepCoerced]
  {
    DeepRecordCoerced();
    SingleFieldCoerced("key", DeepRaw, DeepType, DeepCoerced);
  }

  lemma DeeplyMapsArrays()
    ensures MapArgsToTypes(map["key" := Arr([DeepRaw])], map["key" := ArrayType(DeepType)])
         == map["key" := Arr([DeepCoerced])]
  {
    DeepRecordCoerced();
    var arr := Coerce(Arr([DeepRaw]), ArrayType(DeepType)).value;
    assert arr.items[0] == DeepCoerced;
    assert arr == Arr([DeepCoerced]);
    SingleFieldCoerced("key", Arr([DeepRaw]), ArrayType(DeepType), Arr([DeepCoerced]));
  }
}
