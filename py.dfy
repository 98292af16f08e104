/** The Python builtins the sensor handler depends on: the exception classes
    its handlers tell apart, `float()` applied to a decoded JSON value, and
    `str.capitalize` on ASCII text. */
module Py {
  import opened Wrappers
  import opened Json

  /** The exception raised by a builtin or by the classifier, by class. */
  datatype Exception =
    | ValueError(msg: string)
    | TypeError(msg: string)
    | OverflowError(msg: string)
    | OtherError(msg: string)  // any other class, e.g. an AttributeError

  /** The classes caught by `except (ValueError, TypeError)`. */
  predicate IsValueOrTypeError(e: Exception) {
    e.ValueError? || e.TypeError?
  }

  /** 2^1024 - 2^970: the smallest integer magnitude that rounds past the
      largest IEEE-754 double, so that `float()` raises OverflowError. */
  const FloatOverflowBound: int := 0xfffffffffffffc00000000000000000000000000000000000000000000000000000000000000000000000000000000000000000000000000000000000000000000000000000000000000000000000000000000000000000000000000000000000000000000000000000000000000000000000000000000000000000000000000

  /** Why `float()` rejected a value. */
  datatype FloatError =
    | NotARealNumber(typeName: string)  // TypeError: null, a list or a dict
    | NotAFloatLiteral(text: string)    // ValueError: text CPython cannot parse
    | IntTooLarge                       // OverflowError: an integer beyond the double range

  /** The name `type(v).__name__` gives for the Python object decoded from v. */
  function TypeName(v: Value): string {
    match v
    case Null => "NoneType"
    case Bool(_) => "bool"
    case Int(_) => "int"
    case Float(_) => "float"
    case Str(_) => "str"
    case Array(_) => "list"
    case Object(_) => "dict"
  }

  /** The exception `float()` raises for a rejection, with CPython's message. */
  function Raised(e: FloatError): (x: Exception)
    ensures IsValueOrTypeError(x) <==> !e.IntTooLarge?
    ensures e.NotAFloatLiteral? ==> x.ValueError?
    ensures e.NotARealNumber? ==> x.TypeError?
    ensures e.IntTooLarge? ==> x.OverflowError?
  {
    match e
    case NotARealNumber(t) => TypeError("float() argument must be a string or a real number, not '" + t + "'")
    case NotAFloatLiteral(s) => ValueError("could not convert string to float: '" + s + "'")
    case IntTooLarge => OverflowError("int too large to convert to float")
  }

  /** `float(v)`. Text goes through `parseStr`, which stands for CPython's
      float literal parser and yields None where that parser raises. */
  function ToFloat(v: Value, parseStr: string -> Option<real>): (r: Result<real, FloatError>)
    ensures r.Success? <==>
      v.Bool? || v.Float? || (v.Int? && -FloatOverflowBound < v.i < FloatOverflowBound)
      || (v.Str? && parseStr(v.s).Some?)
    ensures r.Failure? ==> (r.error.IntTooLarge? <==> v.Int?)
  {
    match v
    case Bool(b) => Success(if b then 1.0 else 0.0)
    case Int(i) =>
      if -FloatOverflowBound < i < FloatOverflowBound then Success(i as real) else Failure(IntTooLarge)
    case Float(x) => Success(x)
    case Str(s) =>
      (match parseStr(s)
       case Some(x) => Success(x)
       case None => Failure(NotAFloatLiteral(s)))
    case _ => Failure(NotARealNumber(TypeName(v)))
  }

  /** Which values `float()` accepts, what it makes of them, and which
      exception class it raises for the others. */
  lemma ToFloatCases(v: Value, parseStr: string -> Option<real>)
    ensures var r := ToFloat(v, parseStr);
      && (r.Success? <==>
            v.Bool? || v.Float? || (v.Int? && -FloatOverflowBound < v.i < FloatOverflowBound)
            || (v.Str? && parseStr(v.s).Some?))
      && (r.Success? && v.Bool? ==> r.value == if v.b then 1.0 else 0.0)
      && (r.Success? && v.Int? ==> r.value == v.i as real)
      && (r.Success? && v.Float? ==> r.value == v.r)
      && (r.Success? && v.Str? ==> Some(r.value) == parseStr(v.s))
      && (r.Failure? ==> (Raised(r.error).TypeError? <==> v.Null? || v.Array? || v.Object?))
      && (r.Failure? ==> (Raised(r.error).OverflowError? <==> v.Int?))
      && (r.Failure? ==> (Raised(r.error).ValueError? <==> v.Str?))
  {
  }

  predicate IsAsciiUpper(c: char) { 'A' <= c <= 'Z' }

  predicate IsAsciiLower(c: char) { 'a' <= c <= 'z' }

  function ToUpperChar(c: char): (d: char)
    ensures !IsAsciiLower(d)
    ensures IsAsciiLower(c) || d == c
  {
    if IsAsciiLower(c) then (c as int - 32) as char else c
  }

  function ToLowerChar(c: char): (d: char)
    ensures !IsAsciiUpper(d)
    ensures IsAsciiUpper(c) || d == c
  {
    if IsAsciiUpper(c) then (c as int + 32) as char else c
  }

  /** `str.lower` on ASCII letters. */
  function Lower(s: string): (r: string)
    ensures |r| == |s|
    ensures forall i :: 0 <= i < |s| ==> r[i] == ToLowerChar(s[i])
  {
    if s == [] then [] else [ToLowerChar(s[0])] + Lower(s[1..])
  }

  /** `str.capitalize` on ASCII letters: the first character upper-cased,
      every other character lower-cased. */
  function Capitalize(s: string): (r: string)
    ensures |r| == |s|
    ensures s != [] ==> r[0] == ToUpperChar(s[0])
    ensures forall i :: 0 < i < |s| ==> r[i] == ToLowerChar(s[i])
  {
    if s == [] then [] else [ToUpperChar(s[0])] + Lower(s[1..])
  }

  /** Upper- and lower-casing a letter are inverse on its case partner. */
  lemma CaseRoundTrip(c: char)
    ensures IsAsciiUpper(c) ==> ToUpperChar(ToLowerChar(c)) == c
    ensures IsAsciiLower(c) ==> ToLowerChar(ToUpperChar(c)) == c
    ensures ToLowerChar(ToUpperChar(c)) == ToLowerChar(c)
    ensures ToUpperChar(ToLowerChar(c)) == ToUpperChar(c)
  {
  }

  /** Capitalizing twice is capitalizing once. */
  lemma CapitalizeIdempotent(s: string)
    ensures Capitalize(Capitalize(s)) == Capitalize(s)
  {
  }

  /** Two labels that differ only in the case of ASCII letters capitalize
      to the same text. */
  lemma CapitalizeIgnoresCase(s: string, t: string)
    requires |s| == |t|
    requires forall i :: 0 <= i < |s| ==> ToLowerChar(s[i]) == ToLowerChar(t[i])
    ensures Capitalize(s) == Capitalize(t)
  {
    if s != [] {
      CaseRoundTrip(s[0]);
      CaseRoundTrip(t[0]);
    }
  }
}
