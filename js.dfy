/** The parts of JavaScript's value semantics that the client's handlers rely
    on: truthiness (`!x`, `!!x`), conversion inside a template literal,
    `||` between two strings, and `String.prototype.trim`. */
module Js {

  /** The values a token getter hands back: a string from the provider,
      `null` from the default context, a boolean from `hasToken`. */
  datatype JsValue = JsNull | JsBool(b: bool) | JsString(s: string)

  /** JavaScript truthiness on these values: `null`, `false` and `""` are
      falsy; `true` and every other string are truthy. */
  predicate Truthy(v: JsValue)
    ensures Truthy(v) <==> v != JsNull && v != JsBool(false) && v != JsString("")
  {
    match v
    case JsNull => false
    case JsBool(b) => b
    case JsString(s) => s != ""
  }

  /** What `${v}` produces inside a template literal. */
  function ToJsString(v: JsValue): (r: string)
    ensures v.JsString? ==> r == v.s
    ensures v.JsNull? ==> r == "null"
  {
    match v
    case JsNull => "null"
    case JsBool(b) => if b then "true" else "false"
    case JsString(s) => s
  }

  /** `a || b` on two strings: the first operand when it is truthy, else the second. */
  function Or(a: string, b: string): (r: string)
    ensures r == a || r == b
    ensures Truthy(JsString(r)) <==> Truthy(JsString(a)) || Truthy(JsString(b))
    ensures Truthy(JsString(a)) ==> r == a
  {
    if a != "" then a else b
  }

  /** The code points `trim` removes: ECMAScript's WhiteSpace (tab, vertical
      tab, form feed, space, no-break space, byte order mark and the Unicode
      space separators) and LineTerminator (LF, CR, U+2028, U+2029). */
  predicate IsWhiteSpace(c: char) {
    var n := c as int;
    n == 0x09 || n == 0x0A || n == 0x0B || n == 0x0C || n == 0x0D || n == 0x20 ||
    n == 0xA0 || n == 0x1680 || (0x2000 <= n <= 0x200A) || n == 0x2028 ||
    n == 0x2029 || n == 0x202F || n == 0x205F || n == 0x3000 || n == 0xFEFF
  }

  /** Drops leading white space: the result is the suffix of `s` that starts
      at its first non-white-space character. */
  function TrimStart(s: string): (r: string)
    ensures |r| <= |s| && r == s[|s| - |r|..]
    ensures forall i :: 0 <= i < |s| - |r| ==> IsWhiteSpace(s[i])
    ensures r == "" || !IsWhiteSpace(r[0])
  {
    if s != [] && IsWhiteSpace(s[0]) then TrimStart(s[1..]) else s
  }

  /** Drops trailing white space: the result is the prefix of `s` that ends
      at its last non-white-space character. */
  function TrimEnd(s: string): (r: string)
    ensures |r| <= |s| && r == s[..|r|]
    ensures forall i :: |r| <= i < |s| ==> IsWhiteSpace(s[i])
    ensures r == "" || !IsWhiteSpace(r[|r| - 1])
  {
    if s != [] && IsWhiteSpace(s[|s| - 1]) then TrimEnd(s[..|s| - 1]) else s
  }

  /** `s.trim()`. It is empty exactly when every character of `s` is white
      space, and otherwise starts and ends with a non-white-space character. */
  function Trim(s: string): (r: string)
    ensures r == "" <==> forall i :: 0 <= i < |s| ==> IsWhiteSpace(s[i])
    ensures r != "" ==> !IsWhiteSpace(r[0]) && !IsWhiteSpace(r[|r| - 1])
    ensures |r| <= |s|
  {
    TrimEnd(TrimStart(s))
  }
}
