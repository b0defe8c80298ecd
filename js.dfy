/** JavaScript values and the string operations the task runner relies on. */
module Js {

  datatype Option<+T> = None | Some(value: T) {
    function GetOr(default: T): T {
      match this
      case Some(v) => v
      case None => default
    }
  }

  datatype Result<+T, +E> = Ok(value: T) | Err(error: E)

  /** A JavaScript value as far as the runner inspects it; objects and functions are opaque. */
  datatype JsValue = Undefined | Null | Bool(b: bool) | Number(n: int) | Str(s: string) | Object(id: nat)

  /** JavaScript truthiness (numbers are integers here, so NaN does not arise). */
  predicate Truthy(v: JsValue) {
    match v
    case Undefined => false
    case Null => false
    case Bool(b) => b
    case Number(n) => n != 0
    case Str(s) => s != ""
    case Object(_) => true
  }

  /** `s.split('\n')[0]`: the text before the first line feed, or all of `s` when it has none. */
  function FirstLine(s: string): (r: string)
    ensures r <= s
    ensures '\n' !in r
    ensures |r| < |s| ==> s[|r|] == '\n'
  {
    if s == [] || s[0] == '\n' then [] else [s[0]] + FirstLine(s[1..])
  }

  /** The three facts in FirstLine's contract pin its result down. */
  lemma FirstLineUnique(s: string, t: string)
    requires t <= s && '\n' !in t
    requires |t| < |s| ==> s[|t|] == '\n'
    ensures t == FirstLine(s)
  {
  }

  /**
   * `s.split(sep)` followed by `shift()` and `join(sep)`: the text before the first
   * separator, and everything after it.
   */
  function SplitFirst(s: string, sep: char): (r: (string, string))
    ensures sep !in r.0
    ensures sep in s ==> s == r.0 + [sep] + r.1
    ensures sep !in s ==> r.0 == s && r.1 == ""
  {
    if s == [] then ("", "")
    else if s[0] == sep then ("", s[1..])
    else
      var rest := SplitFirst(s[1..], sep);
      assert s == [s[0]] + s[1..];
      ([s[0]] + rest.0, rest.1)
  }

  /** Splitting a text built from a separator-free head gives the head back. */
  lemma {:induction false} SplitFirstOfJoin(head: string, sep: char, tail: string)
    requires sep !in head
    ensures SplitFirst(head + [sep] + tail, sep) == (head, tail)
  {
    var s := head + [sep] + tail;
    if head != [] {
      assert s[0] == head[0] != sep;
      assert s[1..] == head[1..] + [sep] + tail;
      SplitFirstOfJoin(head[1..], sep, tail);
      assert head == [head[0]] + head[1..];
    } else {
      assert s[0] == sep && s[1..] == tail;
    }
  }

  /** `parts.join(sep)`. */
  function Join(parts: seq<string>, sep: string): string {
    if parts == [] then ""
    else if |parts| == 1 then parts[0]
    else parts[0] + sep + Join(parts[1..], sep)
  }

  function Spaces(n: nat): (r: string)
    ensures |r| == n && forall i :: 0 <= i < n ==> r[i] == ' '
  {
    if n == 0 then "" else Spaces(n - 1) + " "
  }

  /**
   * lodash `padEnd(s, width)`: pads with spaces on the right up to `width`, with the width
   * counted in code points (lodash counts a character with its combining marks, a ZWJ
   * sequence or a flag pair as one symbol).
   */
  function PadEnd(s: string, width: nat): (r: string)
    ensures s <= r
    ensures |r| == if |s| < width then width else |s|
    ensures forall i :: |s| <= i < |r| ==> r[i] == ' '
  {
    if |s| < width then s + Spaces(width - |s|) else s
  }

  function DigitChar(d: nat): (c: char)
    requires d < 10
    ensures '0' <= c <= '9'
  {
    ['0', '1', '2', '3', '4', '5', '6', '7', '8', '9'][d]
  }

  function NatToString(n: nat): (r: string)
    ensures r != [] && forall i :: 0 <= i < |r| ==> '0' <= r[i] <= '9'
  {
    if n < 10 then [DigitChar(n)] else NatToString(n / 10) + [DigitChar(n % 10)]
  }

  /** JavaScript's `${n}` for an integer. */
  function IntToString(n: int): string {
    if n < 0 then "-" + NatToString(-n) else NatToString(n)
  }
}
