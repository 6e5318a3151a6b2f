/**
 * The dynamic values the agent passes around: decoded JSON from the lookup
 * services, the cells of a SQLite row, the entries of the per-call session
 * blob and of the conversation's global data.
 */
module Values {

  import opened Strings

  /**
   * A JSON / SQLite value.  `Time(t)` is an ISO-8601 timestamp text that
   * `datetime.fromisoformat` accepts, represented by the instant (in seconds)
   * it denotes; every other value stands for text it rejects.  Numbers are
   * integers: the coordinates the geocoder returns are only stored and passed
   * on, and the one thing the code asks of them is whether they are zero.
   */
  datatype Value =
    | Null
    | Bool(b: bool)
    | Num(n: int)
    | Str(s: string)
    | Time(t: int)
    | List(items: seq<Value>)
    | Dict(fields: map<string, Value>)

  /** Python truthiness (`if v:`). */
  predicate Truthy(v: Value) {
    match v
    case Null => false
    case Bool(b) => b
    case Num(n) => n != 0
    case Str(s) => s != ""
    case Time(_) => true
    case List(xs) => xs != []
    case Dict(m) => m != map[]
  }

  /** Python's `a or b`: the first operand when it is truthy, else the second. */
  function Or(a: Value, b: Value): (r: Value)
    ensures Truthy(r) <==> Truthy(a) || Truthy(b)
    ensures r == a || r == b
    ensures Truthy(a) ==> r == a
  {
    if Truthy(a) then a else b
  }

  /** `d.get(key, default)` on a dict value; a value that is not a dict has no keys. */
  function Field(v: Value, key: string, default: Value): (r: Value)
    ensures v.Dict? && key in v.fields ==> r == v.fields[key]
    ensures !(v.Dict? && key in v.fields) ==> r == default
  {
    if v.Dict? && key in v.fields then v.fields[key] else default
  }

  /** `m.get(key)` on a Python dict: `None` when the key is missing. */
  function Get<K>(m: map<K, Value>, key: K): (r: Value)
    ensures key in m ==> r == m[key]
    ensures key !in m ==> r == Null
  {
    if key in m then m[key] else Null
  }

  /** `m.get(key, default)`. */
  function GetOr<K>(m: map<K, Value>, key: K, default: Value): (r: Value)
    ensures key in m ==> r == m[key]
    ensures key !in m ==> r == default
  {
    if key in m then m[key] else default
  }

  /**
   * `str(v)` / an f-string field for the scalar values the code formats.
   * Timestamps and containers are never formatted by the modelled code.
   */
  function Text(v: Value): string {
    match v
    case Null => "None"
    case Bool(b) => if b then "True" else "False"
    case Num(n) => IntText(n)
    case Str(s) => s
    case _ => ""
  }

  /** The elements of a list value; any other value has none. */
  function Items(v: Value): seq<Value> {
    if v.List? then v.items else []
  }
}

/** The string operations of Python's `str` that the agent uses, on ASCII. */
module Strings {

  /**
   * Whitespace as `str.isspace` and `\s` see it, restricted to space, tab,
   * newline, carriage return, vertical tab and form feed; the separators
   * \x1c-\x1f and the non-ASCII spaces are not modelled.
   */
  predicate IsSpace(c: char) {
    c == ' ' || c == '\t' || c == '\n' || c == '\r' || c == 11 as char || c == 12 as char
  }

  predicate NoSpace(s: string) {
    forall i :: 0 <= i < |s| ==> !IsSpace(s[i])
  }

  function LowerChar(c: char): char {
    if 'A' <= c <= 'Z' then (c as int - 'A' as int + 'a' as int) as char else c
  }

  function UpperChar(c: char): char {
    if 'a' <= c <= 'z' then (c as int - 'a' as int + 'A' as int) as char else c
  }

  /** `s.lower()`, character by character. */
  function Lower(s: string): (r: string)
    ensures |r| == |s|
    ensures forall i :: 0 <= i < |s| ==> r[i] == LowerChar(s[i])
  {
    if s == [] then [] else [LowerChar(s[0])] + Lower(s[1..])
  }

  /** No ASCII capital letter. */
  predicate NoCapitals(s: string) {
    forall i :: 0 <= i < |s| ==> !('A' <= s[i] <= 'Z')
  }

  /** Lower-cased text has no capitals. */
  lemma LowerNoCapitals(s: string)
    ensures NoCapitals(Lower(s))
  {
    forall i | 0 <= i < |s| ensures !('A' <= Lower(s)[i] <= 'Z') {
      assert Lower(s)[i] == LowerChar(s[i]);
    }
  }

  function StripLeft(s: string): (r: string)
    ensures |r| <= |s|
    ensures r == [] || !IsSpace(r[0])
  {
    if s != [] && IsSpace(s[0]) then StripLeft(s[1..]) else s
  }

  function StripRight(s: string): (r: string)
    ensures |r| <= |s|
    ensures r != [] ==> r[0] == s[0]
    ensures r == [] || !IsSpace(r[|r| - 1])
  {
    if s != [] && IsSpace(s[|s| - 1]) then StripRight(s[..|s| - 1]) else s
  }

  /** `s.strip()`: no whitespace at either end. */
  function Strip(s: string): (r: string)
    ensures r == [] || (!IsSpace(r[0]) && !IsSpace(r[|r| - 1]))
  {
    StripRight(StripLeft(s))
  }

  /** `sep.join(parts)`. */
  function Join(sep: string, parts: seq<string>): string {
    if parts == [] then ""
    else if |parts| == 1 then parts[0]
    else parts[0] + sep + Join(sep, parts[1..])
  }

  /** `s.split(c)` for a one-character separator: never empty, one part more than there are separators. */
  function SplitOn(s: string, c: char): (parts: seq<string>)
    ensures |parts| >= 1
    ensures forall k :: 0 <= k < |parts| ==> c !in parts[k]
  {
    if s == [] then [""]
    else
      var rest := SplitOn(s[1..], c);
      if s[0] == c then [""] + rest else [[s[0]] + rest[0]] + rest[1..]
  }

  /** The length of the run of non-whitespace characters that starts `s`. */
  function WordEnd(s: string): (n: nat)
    ensures n <= |s|
    ensures forall i :: 0 <= i < n ==> !IsSpace(s[i])
    ensures n < |s| ==> IsSpace(s[n])
  {
    if s == [] || IsSpace(s[0]) then 0 else 1 + WordEnd(s[1..])
  }

  /** `s.split()` with no argument: the maximal whitespace-free runs, none of them empty. */
  function SplitWords(s: string): (words: seq<string>)
    ensures forall k :: 0 <= k < |words| ==> words[k] != "" && NoSpace(words[k])
  {
    if s == [] then []
    else if IsSpace(s[0]) then SplitWords(s[1..])
    else
      var n := WordEnd(s);
      [s[..n]] + SplitWords(s[n..])
  }

  /** `s.replace(pat, rep)`: left-to-right, non-overlapping occurrences. */
  function Replace(s: string, pat: string, rep: string): string
    requires pat != ""
  {
    if |s| < |pat| then s
    else if s[..|pat|] == pat then rep + Replace(s[|pat|..], pat, rep)
    else [s[0]] + Replace(s[1..], pat, rep)
  }

  function DigitText(d: nat): string
    requires d < 10
  {
    ["0123456789"[d]]
  }

  /** `str(n)` for an integer. */
  function IntText(n: int): string {
    if n < 0 then "-" + NatText(-n) else NatText(n)
  }

  function NatText(n: nat): string {
    if n < 10 then DigitText(n) else NatText(n / 10) + DigitText(n % 10)
  }
}
