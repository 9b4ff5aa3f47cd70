/**
  JavaScript values as the gateway sees them: a property or argument that may be
  absent (`undefined`), explicitly `null`, or present; the error a property read
  on a missing object throws; and the decimal text a template literal gives a
  status code.
 */
module Js {

  datatype Option<+T> = None | Some(value: T)

  /** The outcome of a step that may throw: `Err` carries the thrown error's `message`. */
  datatype Result<+T, +E> = Ok(value: T) | Err(error: E) {
    predicate IsFailure() { Err? }

    function PropagateFailure<U>(): Result<U, E>
      requires Err?
    {
      Err(error)
    }

    function Extract(): T
      requires Ok?
    {
      value
    }
  }

  /** A JavaScript slot: `undefined`, `null`, or a present value. */
  datatype Value<+T> = Undefined | Null | Defined(v: T)

  /**
    A default parameter or destructuring default `x = d`: JavaScript replaces
    only `undefined`; an explicit `null` stays `null`.
   */
  function WithDefault<T>(x: Value<T>, d: T): (r: Value<T>)
    ensures r.Undefined? == false
    ensures x.Undefined? ==> r == Defined(d)
    ensures !x.Undefined? ==> r == x
  {
    if x.Undefined? then Defined(d) else x
  }

  /** `!!s` for a string slot: `undefined`, `null` and `""` are falsy. */
  predicate Truthy(s: Value<string>) {
    s.Defined? && s.v != ""
  }

  /** Whether `msg` is the text of a failed property read. */
  predicate IsReadError(msg: string) {
    |msg| > 26 && msg[..26] == "Cannot read properties of "
  }

  /**
    The message of the `TypeError` a V8 runtime throws for `base.prop` when
    `base` is `undefined` or `null`.
   */
  function ReadError<T>(base: Value<T>, prop: string): (msg: string)
    ensures IsReadError(msg)
  {
    "Cannot read properties of " + (if base.Null? then "null" else "undefined") + " (reading '" + prop + "')"
  }

  /** Reading property `prop` of `base`: throws unless `base` is a present object. */
  function Read<T>(base: Value<T>, prop: string): (r: Result<T, string>)
    ensures r.Ok? <==> base.Defined?
    ensures r.Ok? ==> r.value == base.v
    ensures r.Err? ==> r.error == ReadError(base, prop)
  {
    if base.Defined? then Ok(base.v) else Err(ReadError(base, prop))
  }

  /** `xs[0]` on an array: `undefined` when the array is empty. */
  function First<T>(xs: seq<Value<T>>): (r: Value<T>)
    ensures |xs| == 0 ==> r == Undefined
    ensures |xs| > 0 ==> r == xs[0]
  {
    if |xs| == 0 then Undefined else xs[0]
  }

  predicate IsDigit(c: char) {
    '0' <= c <= '9'
  }

  function DigitChar(d: nat): (c: char)
    requires d < 10
    ensures IsDigit(c) && c as int - '0' as int == d
  {
    (d + '0' as int) as char
  }

  /** The text of a non-negative integer in a template literal: `${n}`. */
  function Decimal(n: nat): (s: string)
    ensures |s| > 0
    ensures forall i | 0 <= i < |s| :: IsDigit(s[i])
    ensures s[0] == '0' ==> n == 0 && s == "0"
    decreases n
  {
    if n < 10 then [DigitChar(n)] else Decimal(n / 10) + [DigitChar(n % 10)]
  }

  /** The number a string of decimal digits denotes: the inverse of `Decimal`. */
  function DecimalValue(s: string): nat
    requires forall i | 0 <= i < |s| :: IsDigit(s[i])
  {
    if s == [] then 0
    else
      assert IsDigit(s[|s| - 1]);
      DecimalValue(s[..|s| - 1]) * 10 + (s[|s| - 1] as int - '0' as int)
  }

  /** Reading back the status text gives the status code. */
  lemma {:induction false} DecimalRoundTrip(n: nat)
    ensures DecimalValue(Decimal(n)) == n
    decreases n
  {
    if n >= 10 {
      DecimalRoundTrip(n / 10);
      var s := Decimal(n);
      assert s[..|s| - 1] == Decimal(n / 10);
    }
  }

  /** Distinct codes give distinct texts. */
  lemma DecimalInjective(m: nat, n: nat)
    requires Decimal(m) == Decimal(n)
    ensures m == n
  {
    DecimalRoundTrip(m);
    DecimalRoundTrip(n);
  }
}
