/**
 * What the model knows of Java objects it cannot see into: an object's
 * `getClass().toString()` and `toString()` are data carried by the object,
 * and an array is told apart from other objects because `Arrays.toString`
 * and the `(Object[])` cast treat it differently.
 */
module JavaLang {
  import opened Wrappers

  /** The exceptions the modelled code can throw. */
  datatype JavaException = ClassCastException | ArithmeticException | IllegalArgumentException | UnsupportedEncodingException

  /** A non-null Java object: its class label, its own `toString()`, and its kind. */
  datatype JavaObject = JavaObject(classLabel: string, text: string, shape: Shape)

  /** A plain object, an array of references (castable to `Object[]`), or an array of a primitive type. */
  datatype Shape = Scalar | ObjectArray(elements: seq<Option<JavaObject>>) | PrimitiveArray

  /** `String.valueOf(obj)`: "null" for a null reference, otherwise `obj.toString()`. */
  function ValueOf(obj: Option<JavaObject>): string
  {
    match obj
    case None => "null"
    case Some(o) => o.text
  }

  /** The element texts separated by ", ". */
  function JoinElements(elements: seq<Option<JavaObject>>): string
  {
    if elements == [] then ""
    else if |elements| == 1 then ValueOf(elements[0])
    else JoinElements(elements[..|elements| - 1]) + ", " + ValueOf(elements[|elements| - 1])
  }

  /** `Arrays.toString(Object[])` of a non-null array: "[" , the element texts separated by ", ", "]". */
  function ArraysToString(elements: seq<Option<JavaObject>>): (r: string)
    ensures |r| >= 2 && r[0] == '[' && r[|r| - 1] == ']'
    ensures elements == [] ==> r == "[]"
  {
    "[" + JoinElements(elements) + "]"
  }

  /** An `Integer[]` holding 1, 2 and 3 prints as "[1, 2, 3]". */
  lemma ArraysToStringOfIntegers()
    ensures var one, two, three :=
        JavaObject("class java.lang.Integer", "1", Scalar),
        JavaObject("class java.lang.Integer", "2", Scalar),
        JavaObject("class java.lang.Integer", "3", Scalar);
      ArraysToString([Some(one), Some(two), Some(three)]) == "[1, 2, 3]"
  {
    var one, two, three :=
      JavaObject("class java.lang.Integer", "1", Scalar),
      JavaObject("class java.lang.Integer", "2", Scalar),
      JavaObject("class java.lang.Integer", "3", Scalar);
    var es := [Some(one), Some(two), Some(three)];
    assert es[..2][..1] == [Some(one)];
    assert es[..2] == [Some(one), Some(two)];
    assert JoinElements(es[..2]) == "1, 2";
  }

  /** Java's integer division: the quotient truncated toward zero. */
  function JavaDiv(a: int, b: int): (q: int)
    requires b != 0
  {
    if (a >= 0) == (b > 0) then
      if a >= 0 then a / b else (-a) / (-b)
    else
      if a >= 0 then -(a / -b) else -((-a) / b)
  }

  /** The quotient times the divisor falls short of the dividend by less than one divisor, toward zero. */
  lemma JavaDivTruncates(a: int, b: int)
    requires b != 0
    ensures var r := a - JavaDiv(a, b) * b;
      (if b > 0 then r < b else r < -b) && (if b > 0 then -b < r else b < r)
      && (r == 0 || (r > 0) == (a > 0))
  {
    if b > 0 {
      TruncatesByPositive(a, b);
    } else {
      TruncatesByNegative(a, b);
    }
  }

  /** Dividing a non-negative number by a positive one leaves a remainder below the divisor. */
  lemma NaturalRemainder(n: int, d: int)
    requires n >= 0 && d > 0
    ensures 0 <= n - (n / d) * d < d
  {
  }

  lemma TruncatesByPositive(a: int, b: int)
    requires b > 0
    ensures var r := a - JavaDiv(a, b) * b; -b < r < b && (r == 0 || (r > 0) == (a > 0))
  {
    if a < 0 {
      NaturalRemainder(-a, b);
      var p := ((-a) / b) * b;
      assert JavaDiv(a, b) * b == -p;
    } else {
      NaturalRemainder(a, b);
      assert JavaDiv(a, b) == a / b;
      if a == 0 {
        assert a / b == 0;
      }
    }
  }

  lemma TruncatesByNegative(a: int, b: int)
    requires b < 0
    ensures var r := a - JavaDiv(a, b) * b; b < r < -b && (r == 0 || (r > 0) == (a > 0))
  {
    if a < 0 {
      NaturalRemainder(-a, -b);
      var p := ((-a) / (-b)) * (-b);
      assert JavaDiv(a, b) * b == -p;
    } else {
      NaturalRemainder(a, -b);
      var p := (a / (-b)) * (-b);
      assert JavaDiv(a, b) * b == p;
      if a == 0 {
        assert a / (-b) == 0;
      }
    }
  }
}
