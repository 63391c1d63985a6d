/** Shared vocabulary of the backtester model: identifiers, timestamps,
    optional values, results, and the "blank string" test the validators use. */
module Base {

  /** An opaque entity identifier (a UUID in the system). */
  type Id = nat

  /** A point in time; only its ordering matters to the core. */
  type Timestamp = int

  datatype Option<+T> = None | Some(value: T) {
    predicate IsFailure() { None? }

    function PropagateFailure<U>(): Option<U>
      requires None?
    {
      None
    }

    function Extract(): T
      requires Some?
    {
      value
    }
  }

  /** The outcome of an operation that raises a `ValueError` in the system. */
  datatype Result<+T, +E> = Ok(value: T) | Err(error: E) {
    predicate IsFailure() { Err? }

    function PropagateFailure<U>(): Result<U, E>
      requires Err?
    {
      Err(error)
    }

    function Extract(): T
      requires Ok?
    {
      value
    }
  }

  /** An optional amount read as zero when absent (`x or Decimal("0")`). */
  function OrZero(x: Option<real>): real {
    if x.Some? then x.value else 0.0
  }

  /** Python's `x or default` on an optional decimal: both `None` and an
      explicit zero are falsy, so either one selects the default. */
  function OrDefault(x: Option<real>, default: real): (d: real)
    ensures x.Some? && x.value != 0.0 ==> d == x.value
    ensures x == None || x == Some(0.0) ==> d == default
    ensures d == 0.0 ==> default == 0.0
  {
    if x.Some? && x.value != 0.0 then x.value else default
  }

  /** The characters Python's `str.isspace` accepts (and `str.strip` removes). */
  predicate IsWhitespace(c: char) {
    || ('\U{0009}' <= c <= '\U{000D}')
    || ('\U{001C}' <= c <= '\U{0020}')
    || c == '\U{0085}' || c == '\U{00A0}' || c == '\U{1680}'
    || ('\U{2000}' <= c <= '\U{200A}')
    || c == '\U{2028}' || c == '\U{2029}' || c == '\U{202F}' || c == '\U{205F}' || c == '\U{3000}'
  }

  /** `not s or not s.strip()`: empty, or made only of whitespace. */
  function IsBlank(s: string): (b: bool)
    ensures |s| == 0 ==> b
    ensures b <==> forall c | c in s :: IsWhitespace(c)
  {
    forall i :: 0 <= i < |s| ==> IsWhitespace(s[i])
  }

  /** Two strings joined are blank exactly when both parts are: padding a
      blank string with whitespace keeps it blank, and a single visible
      character anywhere makes it not blank. */
  lemma BlankConcat(a: string, b: string)
    ensures IsBlank(a + b) <==> IsBlank(a) && IsBlank(b)
  {
    if IsBlank(a) && IsBlank(b) {
      forall i | 0 <= i < |a + b| ensures IsWhitespace((a + b)[i]) {
        if i < |a| { assert (a + b)[i] == a[i]; } else { assert (a + b)[i] == b[i - |a|]; }
      }
    }
    if IsBlank(a + b) {
      forall i | 0 <= i < |a| ensures IsWhitespace(a[i]) { assert (a + b)[i] == a[i]; }
      forall i | 0 <= i < |b| ensures IsWhitespace(b[i]) { assert (a + b)[|a| + i] == b[i]; }
    }
  }
}
