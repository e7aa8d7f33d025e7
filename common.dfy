/** Shared vocabulary of the model: optional values, Python exceptions as values,
    JSON-like dictionary values, and the few Python string operations the
    service relies on (strip, lower, `in`, `startswith`, `str(int)`, slicing). */
module Common {

  datatype Option<+T> = None | Some(value: T)

  /** A raised Python exception: its kind and the text `str(e)` yields. */
  datatype Exc =
    | RuntimeError(msg: string)
    | ValueError(msg: string)
    | FileNotFoundError(msg: string)
    | KeyError(msg: string)
    | IndexError(msg: string)
    | HTTPException(status: int, detail: string)
    | ServiceError(msg: string)  // anything an external client (HTTP, Chroma, Redis, a loader) raises
  {
    function Text(): string {
      match this
      case RuntimeError(m) => m
      case ValueError(m) => m
      case FileNotFoundError(m) => m
      case KeyError(m) => m
      case IndexError(m) => m
      case HTTPException(_, d) => d
      case ServiceError(m) => m
    }
  }

  /** What a Python call did: returned a value or raised. */
  datatype Outcome<+T> = Ok(value: T) | Raise(exc: Exc)

  /** A JSON-like value, as stored in metadata dictionaries and settings attributes. */
  datatype Value =
    | VNone
    | VBool(b: bool)
    | VInt(i: int)
    | VReal(r: real)
    | VStr(s: string)
    | VList(items: seq<Value>)

  type Metadata = map<string, Value>

  /** Python truthiness of a value. */
  predicate Truthy(v: Value) {
    match v
    case VNone => false
    case VBool(b) => b
    case VInt(i) => i != 0
    case VReal(r) => r != 0.0
    case VStr(s) => s != []
    case VList(items) => items != []
  }

  /** `x or d` for an optional integer argument: None and 0 both fall back to `d`. */
  function OrInt(x: Option<int>, d: int): (r: int)
    ensures (x == None || x == Some(0)) ==> r == d
    ensures x.Some? && x.value != 0 ==> r == x.value
  {
    if x.Some? && x.value != 0 then x.value else d
  }

  /** `x or d` for an optional float argument: None and 0.0 both fall back to `d`. */
  function OrReal(x: Option<real>, d: real): (r: real)
    ensures (x == None || x == Some(0.0)) ==> r == d
    ensures x.Some? && x.value != 0.0 ==> r == x.value
  {
    if x.Some? && x.value != 0.0 then x.value else d
  }

  // ---------------------------------------------------------------- strings

  /** The characters `str.strip()` removes: those `str.isspace()` accepts, the ASCII
      tab, line and form controls, the four information separators U+001C to U+001F,
      the space, next-line, no-break space, and the Unicode space and line/paragraph
      separators. */
  predicate IsSpace(c: char) {
    || '\t' <= c <= '\r'
    || '\U{001C}' <= c <= '\U{001F}'
    || c == ' ' || c == '\U{0085}' || c == '\U{00A0}' || c == '\U{1680}'
    || '\U{2000}' <= c <= '\U{200A}'
    || c == '\U{2028}' || c == '\U{2029}' || c == '\U{202F}' || c == '\U{205F}' || c == '\U{3000}'
  }

  predicate AllSpace(s: string) {
    forall i :: 0 <= i < |s| ==> IsSpace(s[i])
  }

  /** `s.lstrip()`: the longest suffix of `s` that does not start with whitespace. */
  function TrimLeft(s: string): (r: string)
    ensures |r| <= |s| && r == s[|s| - |r|..]
    ensures r != [] ==> !IsSpace(r[0])
    ensures forall i :: 0 <= i < |s| - |r| ==> IsSpace(s[i])
    decreases |s|
  {
    if s != [] && IsSpace(s[0]) then TrimLeft(s[1..]) else s
  }

  /** `s.rstrip()`: the longest prefix of `s` that does not end with whitespace. */
  function TrimRight(s: string): (r: string)
    ensures |r| <= |s| && r == s[..|r|]
    ensures r != [] ==> !IsSpace(r[|r| - 1])
    ensures forall i :: |r| <= i < |s| ==> IsSpace(s[i])
    decreases |s|
  {
    if s != [] && IsSpace(s[|s| - 1]) then TrimRight(s[..|s| - 1]) else s
  }

  /** The number of whitespace characters `s` starts with. */
  function LeadingSpace(s: string): (n: nat)
    ensures n <= |s|
    ensures forall i :: 0 <= i < n ==> IsSpace(s[i])
    ensures n < |s| ==> !IsSpace(s[n])
  {
    |s| - |TrimLeft(s)|
  }

  /** A prefix `r` of the suffix `l` of `s` that starts at `a` is the slice of `s`
      from `a`, and what follows it in `l` is what follows it in `s`. */
  lemma SuffixPrefix(s: string, a: nat, l: string, r: string)
    requires a <= |s| && l == s[a..] && |r| <= |l| && r == l[..|r|]
    ensures r == s[a..a + |r|] && s[a + |r|..] == l[|r|..]
  {
  }

  /** `s.strip()`. */
  function Strip(s: string): (r: string)
    ensures |r| <= |s|
    ensures r == [] <==> AllSpace(s)
    ensures r != [] ==> !IsSpace(r[0]) && !IsSpace(r[|r| - 1])
    ensures LeadingSpace(s) + |r| <= |s| && r == s[LeadingSpace(s)..LeadingSpace(s) + |r|]
    ensures AllSpace(s[LeadingSpace(s) + |r|..])
  {
    var l := TrimLeft(s);
    var r := TrimRight(l);
    assert r == [] ==> l == [];
    SuffixPrefix(s, LeadingSpace(s), l, r);
    r
  }

  /** ASCII `str.lower()` on one character. */
  function LowerChar(c: char): (r: char)
    ensures 'A' <= c <= 'Z' ==> 'a' <= r <= 'z'
    ensures !('A' <= c <= 'Z') ==> r == c
  {
    if 'A' <= c <= 'Z' then (c as int + 32) as char else c
  }

  function Lower(s: string): (r: string)
    ensures |r| == |s|
    ensures forall i :: 0 <= i < |s| ==> r[i] == LowerChar(s[i])
  {
    seq(|s|, i requires 0 <= i < |s| => LowerChar(s[i]))
  }

  predicate StartsWith(s: string, prefix: string) {
    |prefix| <= |s| && s[..|prefix|] == prefix
  }

  /** `sub` occurs in `s` starting at index `i`. */
  predicate OccursAt(s: string, sub: string, i: int) {
    0 <= i <= |s| - |sub| && s[i..i + |sub|] == sub
  }

  /** Python's `sub in s` on strings. */
  predicate Contains(s: string, sub: string) {
    exists i :: 0 <= i <= |s| - |sub| && OccursAt(s, sub, i)
  }

  /** `PurePosixPath(p).name`: the text after the last slash. */
  function BaseName(path: string): (name: string)
    decreases |path|
  {
    if path == [] || path[|path| - 1] == '/' then []
    else BaseName(path[..|path| - 1]) + [path[|path| - 1]]
  }

  /** `PurePosixPath(p).suffix`: from the last dot of the name, when that dot is
      neither the name's first nor its last character; otherwise empty. A path that
      ends in a slash has an empty name here and so no suffix, where `PurePosixPath`
      drops the trailing slash first (`"a.pdf/"` has suffix ".pdf" there); upload
      file names never end in a slash. */
  function Suffix(path: string): (r: string)
    ensures r == [] || (|r| >= 2 && r[0] == '.')
  {
    SuffixScan(path, [])
  }

  /** Scans `path` from the right towards the start of the name; `tail` holds the
      characters already passed, none of them a dot or a slash. */
  function SuffixScan(path: string, tail: string): (r: string)
    ensures r == [] || (|r| >= 2 && r[0] == '.')
    decreases |path|
  {
    if path == [] then []
    else
      var n := |path| - 1;
      if path[n] == '/' then []
      else if path[n] == '.' then
        (if tail != [] && n > 0 && path[n - 1] != '/' then [path[n]] + tail else [])
      else SuffixScan(path[..n], [path[n]] + tail)
  }

  lemma AppendAssoc<T>(a: seq<T>, b: seq<T>, c: seq<T>)
    ensures (a + b) + c == a + (b + c)
  {
  }

  /** Python's `s[:n]` on a list, including a negative `n` counted from the end. */
  function SliceTo<T>(s: seq<T>, n: int): (r: seq<T>)
    ensures |r| <= |s|
    ensures r == s[..|r|]
    ensures 0 <= n <= |s| ==> |r| == n
    ensures n > |s| ==> r == s
    ensures n < 0 ==> r == (if |s| + n >= 0 then s[..|s| + n] else [])
  {
    if n >= 0 then (if n <= |s| then s[..n] else s)
    else if |s| + n >= 0 then s[..|s| + n] else []
  }

  function DigitChar(d: int): (c: char)
    requires 0 <= d < 10
    ensures '0' <= c <= '9'
  {
    ('0' as int + d) as char
  }

  /** `str(n)` for a natural number. */
  function NatText(n: nat): (r: string)
    ensures |r| >= 1
    ensures n >= 10 ==> |r| >= 2
    ensures '0' <= r[0] <= '9'
    decreases n
  {
    if n < 10 then [DigitChar(n)] else NatText(n / 10) + [DigitChar(n % 10)]
  }

  /** `str(n)` is made of decimal digits only. */
  lemma {:induction false} NatTextDigits(n: nat)
    ensures forall i :: 0 <= i < |NatText(n)| ==> '0' <= NatText(n)[i] <= '9'
    decreases n
  {
    if n >= 10 {
      NatTextDigits(n / 10);
    }
  }

  /** `str(n)` for any integer. */
  function IntText(n: int): (r: string)
    ensures |r| >= 1
    ensures r[0] == '-' <==> n < 0
  {
    if n < 0 then "-" + NatText(-n) else NatText(n)
  }

  /** `str(n)` has no underscore. */
  lemma IntTextNoUnderscore(n: int)
    ensures forall i :: 0 <= i < |IntText(n)| ==> IntText(n)[i] != '_'
  {
    NatTextDigits(if n < 0 then -n else n);
  }

  lemma {:induction false} NatTextInjective(a: nat, b: nat)
    requires NatText(a) == NatText(b)
    ensures a == b
    decreases a
  {
    var ta, tb := NatText(a), NatText(b);
    if a < 10 && b < 10 {
      assert DigitChar(a) == ta[0] == tb[0] == DigitChar(b);
    } else if a >= 10 && b >= 10 {
      assert NatText(a / 10) == ta[..|ta| - 1] == tb[..|tb| - 1] == NatText(b / 10);
      NatTextInjective(a / 10, b / 10);
      assert DigitChar(a % 10) == ta[|ta| - 1] == tb[|tb| - 1] == DigitChar(b % 10);
    }
  }

  /** Distinct integers print differently. */
  lemma IntTextInjective(a: int, b: int)
    requires IntText(a) == IntText(b)
    ensures a == b
  {
    if a < 0 {
      assert NatText(-a) == IntText(a)[1..] == IntText(b)[1..] == NatText(-b);
      NatTextInjective(-a, -b);
    } else {
      NatTextInjective(a, b);
    }
  }

  /** Splitting `x + "_" + u` at its last underscore recovers `x` and `u` when `u` has none. */
  lemma SplitAtLastUnderscore(x: string, u: string, y: string, v: string)
    requires forall i :: 0 <= i < |u| ==> u[i] != '_'
    requires forall i :: 0 <= i < |v| ==> v[i] != '_'
    requires x + "_" + u == y + "_" + v
    ensures x == y && u == v
  {
    var l, r := x + "_" + u, y + "_" + v;
    assert l[|x|] == '_' && forall j :: |x| < j < |l| ==> l[j] == u[j - |x| - 1] != '_';
    assert r[|y|] == '_' && forall j :: |y| < j < |r| ==> r[j] == v[j - |y| - 1] != '_';
    assert x == l[..|x|] == r[..|y|] == y;
    assert u == l[|x| + 1..] == r[|y| + 1..] == v;
  }
}
