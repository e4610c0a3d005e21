/**
 * The pieces of JavaScript semantics the Express handlers lean on: optional request
 * fields and their truthiness, the string built-ins they call (`split`, `trim`,
 * `toLowerCase`, regular-expression containment), thrown errors and the outcome of a
 * handler (a response it writes itself, or an error it throws to the error handler).
 */
module Js {

  datatype Option<T> = None | Some(value: T) {
    function GetOr(default: T): T {
      if Some? then value else default
    }
  }

  /** A scalar taken from a JSON request body. */
  datatype Json = JStr(s: string) | JNum(n: int) | JBool(b: bool)

  /** JavaScript truthiness of an optional JSON scalar (`undefined`, `""`, `0`, `false` are falsy). */
  predicate Truthy(v: Option<Json>) {
    match v
    case None => false
    case Some(JStr(s)) => s != ""
    case Some(JNum(n)) => n != 0
    case Some(JBool(b)) => b
  }

  /** Truthiness of an optional string. */
  predicate TruthyStr(s: Option<string>) {
    s.Some? && s.value != ""
  }

  /** `a || b` on optional strings. */
  function OrStr(a: Option<string>, b: Option<string>): Option<string> {
    if TruthyStr(a) then a else b
  }

  /** `a || d` where `a` is an optional number: `undefined` and `0` fall back to `d`. */
  function OrInt(a: Option<int>, d: int): int {
    if a.Some? && a.value != 0 then a.value else d
  }

  /** A template-literal hole `${x}`: an absent value prints as "undefined". */
  function Show(s: Option<string>): string {
    if s.Some? then s.value else "undefined"
  }

  // ---------------------------------------------------------------------------
  // Strings

  /** `s.split(sep)` for a one-character separator. */
  function Split(s: string, sep: char): (parts: seq<string>)
    ensures |parts| >= 1
    ensures forall i :: 0 <= i < |parts| ==> sep !in parts[i]
    decreases |s|
  {
    if |s| == 0 then [""]
    else if s[0] == sep then [""] + Split(s[1..], sep)
    else
      var rest := Split(s[1..], sep);
      [[s[0]] + rest[0]] + rest[1..]
  }

  /** `parts.join(sep)`, the inverse of `Split`. */
  function Join(parts: seq<string>, sep: char): string
    decreases |parts|
  {
    if |parts| == 0 then ""
    else if |parts| == 1 then parts[0]
    else parts[0] + [sep] + Join(parts[1..], sep)
  }

  /** Splitting loses nothing: joining the pieces with the separator gives back the string. */
  lemma {:induction false} JoinSplit(s: string, sep: char)
    ensures Join(Split(s, sep), sep) == s
    decreases |s|
  {
    if |s| > 0 {
      var rest := Split(s[1..], sep);
      JoinSplit(s[1..], sep);
      if s[0] == sep {
        assert Split(s, sep) == [""] + rest;
        assert ([""] + rest)[1..] == rest;
      } else {
        assert Split(s, sep) == [[s[0]] + rest[0]] + rest[1..];
        if |rest| > 1 {
          assert ([[s[0]] + rest[0]] + rest[1..])[1..] == rest[1..];
          assert Join(rest, sep) == rest[0] + [sep] + Join(rest[1..], sep);
        }
      }
    }
  }

  /** A string without the separator splits into itself. */
  lemma {:induction false} SplitNoSeparator(s: string, sep: char)
    requires sep !in s
    ensures Split(s, sep) == [s]
    decreases |s|
  {
    if |s| > 0 {
      SplitNoSeparator(s[1..], sep);
      assert [s[0]] + s[1..] == s;
    }
  }

  /** The first separator ends the first piece. */
  lemma {:induction false} SplitAtFirst(p: string, sep: char, q: string)
    requires sep !in p
    ensures Split(p + [sep] + q, sep) == [p] + Split(q, sep)
    decreases |p|
  {
    var s := p + [sep] + q;
    if |p| == 0 {
      assert s[1..] == q;
    } else {
      assert s[1..] == p[1..] + [sep] + q;
      SplitAtFirst(p[1..], sep, q);
      assert [s[0]] + p[1..] == p;
    }
  }

  /** Joining pieces free of the separator and splitting again gives back the pieces. */
  lemma {:induction false} SplitJoin(parts: seq<string>, sep: char)
    requires |parts| >= 1 && forall i :: 0 <= i < |parts| ==> sep !in parts[i]
    ensures Split(Join(parts, sep), sep) == parts
    decreases |parts|
  {
    if |parts| == 1 {
      SplitNoSeparator(parts[0], sep);
    } else {
      SplitJoin(parts[1..], sep);
      SplitAtFirst(parts[0], sep, Join(parts[1..], sep));
      assert [parts[0]] + parts[1..] == parts;
    }
  }

  /** The characters `String.prototype.trim` removes: white space and line terminators. */
  predicate IsSpace(c: char) {
    var n := c as int;
    n == 0x20 || (0x09 <= n <= 0x0D) || n == 0xA0 || n == 0x1680 || (0x2000 <= n <= 0x200A)
    || n == 0x2028 || n == 0x2029 || n == 0x202F || n == 0x205F || n == 0x3000 || n == 0xFEFF
  }

  function TrimStart(s: string): (r: string)
    ensures |r| <= |s| && r == s[|s| - |r|..]
    ensures forall k :: 0 <= k < |s| - |r| ==> IsSpace(s[k])
    ensures r == [] || !IsSpace(r[0])
    decreases |s|
  {
    if |s| > 0 && IsSpace(s[0]) then TrimStart(s[1..]) else s
  }

  function TrimEnd(s: string): (r: string)
    ensures |r| <= |s| && r == s[..|r|]
    ensures forall k :: |r| <= k < |s| ==> IsSpace(s[k])
    ensures r == [] || !IsSpace(r[|r| - 1])
    decreases |s|
  {
    if |s| > 0 && IsSpace(s[|s| - 1]) then TrimEnd(s[..|s| - 1]) else s
  }

  /** `s.trim()`: the longest middle part of `s` that neither starts nor ends with white space. */
  function Trim(s: string): (r: string)
    ensures |r| <= |s|
    ensures r == [] || (!IsSpace(r[0]) && !IsSpace(r[|r| - 1]))
  {
    TrimEnd(TrimStart(s))
  }

  /** What `trim()` keeps is one contiguous part of the string. */
  lemma TrimOccurs(s: string)
    ensures exists i :: OccursAt(s, Trim(s), i)
  {
    var t := TrimStart(s);
    OccursInSuffix(s, |s| - |t|, Trim(s));
  }

  /** A prefix of the suffix of `s` from `k` occurs in `s` at `k`. */
  lemma OccursInSuffix(s: string, k: nat, w: string)
    requires k <= |s| && |w| <= |s| - k && w == s[k..][..|w|]
    ensures OccursAt(s, w, k)
  {
    assert s[k..][..|w|] == s[k..k + |w|];
  }

  lemma {:induction false} AllSpaceTrimStart(s: string)
    requires forall k :: 0 <= k < |s| ==> IsSpace(s[k])
    ensures TrimStart(s) == []
    decreases |s|
  {
    if |s| > 0 {
      AllSpaceTrimStart(s[1..]);
    }
  }

  /** A string trims to nothing exactly when every character of it is white space. */
  lemma TrimEmptyIffSpace(s: string)
    ensures Trim(s) == "" <==> forall k :: 0 <= k < |s| ==> IsSpace(s[k])
  {
    if forall k :: 0 <= k < |s| ==> IsSpace(s[k]) {
      AllSpaceTrimStart(s);
    }
  }

  /** `!field?.trim()`: the field is absent or only white space. */
  predicate Blank(field: Option<string>) {
    field.None? || forall k :: 0 <= k < |field.value| ==> IsSpace(field.value[k])
  }

  /** `Blank` is exactly "absent, or trims to the empty string". */
  lemma BlankIffTrimsEmpty(field: Option<string>)
    ensures Blank(field) <==> field.None? || Trim(field.value) == ""
  {
    if field.Some? {
      TrimEmptyIffSpace(field.value);
    }
  }

  /** The word `w` occurs in `s` starting at position `i`. */
  predicate OccursAt(s: string, w: string, i: int) {
    0 <= i <= |s| - |w| && s[i..i + |w|] == w
  }

  /** Unanchored regular-expression match of a literal word: `/w/.test(s)`. */
  predicate Contains(s: string, w: string)
    decreases |s|
  {
    if |w| > |s| then false
    else s[..|w|] == w || (|s| > 0 && Contains(s[1..], w))
  }

  /** `Contains` holds exactly when the word occurs at some position. */
  lemma {:induction false} ContainsAt(s: string, w: string)
    ensures Contains(s, w) <==> exists i :: OccursAt(s, w, i)
    decreases |s|
  {
    if |w| <= |s| {
      assert s[..|w|] == w ==> OccursAt(s, w, 0);
      if |s| > 0 {
        ContainsAt(s[1..], w);
        if exists i :: OccursAt(s, w, i) {
          var i :| OccursAt(s, w, i);
          if i > 0 {
            assert OccursAt(s[1..], w, i - 1);
          }
        }
        if Contains(s[1..], w) {
          var j :| OccursAt(s[1..], w, j);
          assert OccursAt(s, w, j + 1);
        }
      }
    }
  }

  /** An occurrence stays an occurrence whatever surrounds it. */
  lemma ContainsInContext(p: string, s: string, q: string, w: string)
    requires Contains(s, w)
    ensures Contains(p + s + q, w)
  {
    ContainsAt(s, w);
    var i :| OccursAt(s, w, i);
    var t := p + s + q;
    assert OccursAt(t, w, |p| + i);
    ContainsAt(t, w);
  }

  function LowerChar(c: char): char {
    if 'A' <= c <= 'Z' then (c as int + 32) as char else c
  }

  /** `s.toLowerCase()` on the ASCII letters. */
  function ToLower(s: string): string {
    seq(|s|, i requires 0 <= i < |s| => LowerChar(s[i]))
  }

  /** Decimal digits of a natural number, as `Number.prototype.toString()` prints it. */
  function DecimalString(n: nat): (r: string)
    ensures |r| >= 1
    ensures forall i :: 0 <= i < |r| ==> '0' <= r[i] <= '9'
    decreases n
  {
    if n < 10 then [('0' as int + n) as char]
    else DecimalString(n / 10) + [('0' as int + n % 10) as char]
  }

  /** A number from 10^(k-1) (or 0, when k is 1) up to 10^k - 1 prints with exactly k digits. */
  lemma {:induction false} DecimalLength(n: nat, k: nat)
    requires k >= 1
    requires n < Pow10(k) && (k == 1 || Pow10(k - 1) <= n)
    ensures |DecimalString(n)| == k
    decreases k
  {
    if k > 1 {
      DecimalLength(n / 10, k - 1);
    }
  }

  function Pow10(k: nat): (p: nat)
    ensures p >= 1
  {
    if k == 0 then 1 else 10 * Pow10(k - 1)
  }

  /** The digits of `s`, most significant first, read as a number. */
  function DecimalValue(s: string): nat
    requires forall i :: 0 <= i < |s| ==> '0' <= s[i] <= '9'
    decreases |s|
  {
    if s == [] then 0 else 10 * DecimalValue(s[..|s| - 1]) + (s[|s| - 1] as int - '0' as int)
  }

  /** Printing a number and reading the digits back gives the number. */
  lemma {:induction false} DecimalRoundTrip(n: nat)
    ensures DecimalValue(DecimalString(n)) == n
    decreases n
  {
    if n >= 10 {
      var s := DecimalString(n);
      DecimalRoundTrip(n / 10);
      assert s[..|s| - 1] == DecimalString(n / 10);
    }
  }

  predicate AllDigits(s: string) {
    |s| > 0 && forall i :: 0 <= i < |s| ==> '0' <= s[i] <= '9'
  }

  /** A JavaScript number, restricted to the integers, or NaN. */
  datatype Number = Int(n: int) | NaN

  /**
   * `Number(x)` for an optional form field: `undefined` is NaN, a blank string is 0, an
   * optionally signed run of decimal digits (surrounding white space allowed) is its
   * value, anything else is NaN.
   */
  function ToNumber(s: Option<string>): (r: Number)
    ensures s.None? ==> r == NaN
    ensures s.Some? && Trim(s.value) == "" ==> r == Int(0)
    ensures s.Some? && AllDigits(Trim(s.value)) ==> r == Int(DecimalValue(Trim(s.value)))
  {
    if s.None? then NaN else ReadTrimmed(Trim(s.value))
  }

  /** `Number` of a string with no surrounding white space. */
  function ReadTrimmed(t: string): (r: Number)
    ensures t == "" ==> r == Int(0)
    ensures AllDigits(t) ==> r == Int(DecimalValue(t))
    ensures r.NaN? ==> t != "" && !AllDigits(t)
  {
    if t == "" then Int(0)
    else if AllDigits(t) then Int(DecimalValue(t))
    else ReadSigned(t[0], t[1..])
  }

  /** A sign character followed by digits; anything else is NaN. */
  function ReadSigned(sign: char, digits: string): Number {
    if !AllDigits(digits) then NaN
    else if sign == '-' then Int(-(DecimalValue(digits) as int))
    else if sign == '+' then Int(DecimalValue(digits))
    else NaN
  }

  lemma TrimKeeps(s: string)
    requires s != [] && !IsSpace(s[0]) && !IsSpace(s[|s| - 1])
    ensures Trim(s) == s
  {
    assert TrimStart(s) == s;
    assert TrimEnd(s) == s;
  }

  /** A number printed in decimal reads back as itself. */
  lemma ToNumberOfDecimal(n: nat)
    ensures ToNumber(Some(DecimalString(n))) == Int(n)
  {
    var s := DecimalString(n);
    assert !IsSpace(s[0]) && !IsSpace(s[|s| - 1]);
    TrimKeeps(s);
    DecimalRoundTrip(n);
  }

  // ---------------------------------------------------------------------------
  // Thrown errors and handler outcomes

  /**
   * The `ApiError` class is not part of this model: its `name` and the property (or
   * properties) its constructor stores the HTTP code in are parameters.
   */
  datatype ApiErrorShape = ApiErrorShape(name: string, setsStatusCode: bool, setsStatus: bool)

  /** A thrown error: one of the application's `ApiError`s, or one raised by a library. */
  datatype Thrown =
    | ApiError(code: int, message: string)
    | LibraryError(name: string, statusCode: Option<int>, status: Option<int>, message: string)

  /** `err.name` */
  function NameOf(e: Thrown, shape: ApiErrorShape): string {
    if e.ApiError? then shape.name else e.name
  }

  /** `err.statusCode` */
  function StatusCodeOf(e: Thrown, shape: ApiErrorShape): Option<int> {
    if e.ApiError? then (if shape.setsStatusCode then Some(e.code) else None) else e.statusCode
  }

  /** `err.status` */
  function StatusOf(e: Thrown, shape: ApiErrorShape): Option<int> {
    if e.ApiError? then (if shape.setsStatus then Some(e.code) else None) else e.status
  }

  /** What a handler ends with: a response it writes, or an error thrown to `next`. */
  datatype Outcome<T> = Reply(status: int, body: T) | Throw(error: Thrown) {
    /** The handler threw `new ApiError(code, …)`. */
    predicate Raised(code: int) {
      Throw? && error.ApiError? && error.code == code
    }
  }
}
