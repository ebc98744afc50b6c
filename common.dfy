/** Values and string operations shared by every component of the admin client:
    optional values (JavaScript's `undefined`), dictionary reads, JavaScript
    truthiness of optional numbers and strings, ASCII case conversion,
    `String.prototype.includes`, `Array.prototype.filter`, `slice`/`substring`,
    string lengths in UTF-16 units, and decimal rendering of integers
    (`Number.prototype.toString`). */
module Common {

  /** `None` stands for `undefined` (or `null`) */
  datatype Option<+T> = None | Some(value: T)

  /** `obj[key]` on a dictionary-like object, `undefined` (None) for an
      absent key: `import.meta.env[name]` and `localStorage.getItem(key)` */
  function Lookup<K, V>(m: map<K, V>, key: K): (r: Option<V>)
    ensures r.Some? <==> key in m
    ensures key in m ==> r.value == m[key]
  {
    if key in m then Some(m[key]) else None
  }

  /** A call that either returns a value or throws an `Error` with a message */
  datatype Result<+T> = Ok(value: T) | Err(message: string)

  /** `err.message || fallback`, as every catch block of the client writes it */
  function MessageOr(message: string, fallback: string): (r: string)
    ensures message != "" ==> r == message
    ensures message == "" ==> r == fallback
  {
    if message != "" then message else fallback
  }

  // ---------------------------------------------------------------------------
  // Truthiness and the `||` / `??` operators
  // ---------------------------------------------------------------------------

  /** A number is truthy when it is defined and not 0 (NaN is not modelled) */
  predicate NumTruthy(n: Option<int>) {
    n.Some? && n.value != 0
  }

  /** A string is truthy when it is defined and not empty */
  predicate StrTruthy(s: Option<string>) {
    s.Some? && s.value != ""
  }

  /** `a || b` on optional numbers: `a` when it is truthy, otherwise `b` */
  function OrNum(a: Option<int>, b: Option<int>): Option<int> {
    if NumTruthy(a) then a else b
  }

  /** `a || b` on optional strings */
  function OrStr(a: Option<string>, b: Option<string>): Option<string> {
    if StrTruthy(a) then a else b
  }

  /** `a ?? b`: `a` when it is defined (even when it is `false` or 0), otherwise `b` */
  function Coalesce<T>(a: Option<T>, b: Option<T>): Option<T> {
    if a.Some? then a else b
  }

  /** `a || b || d` with a truthy default `d`: the first truthy of the three */
  function ResolveNum(a: Option<int>, b: Option<int>, d: int): (r: int)
    requires d != 0
    ensures r != 0
    ensures NumTruthy(a) ==> r == a.value
    ensures !NumTruthy(a) && NumTruthy(b) ==> r == b.value
    ensures !NumTruthy(a) && !NumTruthy(b) ==> r == d
  {
    match OrNum(OrNum(a, b), Some(d))
    case Some(v) => v
    case None => d
  }

  lemma OrStrDropsEmpty(a: Option<string>, b: Option<string>)
    ensures StrTruthy(OrStr(a, b)) <==> StrTruthy(a) || StrTruthy(b)
    ensures StrTruthy(a) ==> OrStr(a, b) == a
    ensures a == Some("") ==> OrStr(a, b) == b
  {
  }

  // ---------------------------------------------------------------------------
  // Characters and case
  // ---------------------------------------------------------------------------

  predicate IsDigit(c: char) {
    '0' <= c <= '9'
  }

  /** `String.prototype.toLowerCase` restricted to ASCII letters */
  function LowerChar(c: char): char {
    if 'A' <= c <= 'Z' then (c as int + 32) as char else c
  }

  /** `String.prototype.toUpperCase` restricted to ASCII letters */
  function UpperChar(c: char): char {
    if 'a' <= c <= 'z' then (c as int - 32) as char else c
  }

  function Lower(s: string): (r: string)
    ensures |r| == |s|
    ensures forall i :: 0 <= i < |s| ==> r[i] == LowerChar(s[i])
  {
    seq(|s|, i requires 0 <= i < |s| => LowerChar(s[i]))
  }

  lemma LowerIdempotent(s: string)
    ensures Lower(Lower(s)) == Lower(s)
  {
  }

  // ---------------------------------------------------------------------------
  // Substrings
  // ---------------------------------------------------------------------------

  predicate StartsWith(s: string, prefix: string) {
    |prefix| <= |s| && s[..|prefix|] == prefix
  }

  /** `s.includes(needle)`, computed by scanning `s` from the left */
  predicate Includes(s: string, needle: string)
    decreases |s|
  {
    StartsWith(s, needle) || (|s| > 0 && Includes(s[1..], needle))
  }

  /** `needle` occurs in `s` at position `i` */
  ghost predicate OccursAt(s: string, needle: string, i: int) {
    0 <= i && i + |needle| <= |s| && s[i..i + |needle|] == needle
  }

  lemma {:induction false} OccursImpliesIncludes(s: string, needle: string, i: int)
    requires OccursAt(s, needle, i)
    ensures Includes(s, needle)
    decreases i
  {
    if i == 0 {
      assert StartsWith(s, needle);
    } else {
      assert s[1..][i - 1..i - 1 + |needle|] == s[i..i + |needle|];
      OccursImpliesIncludes(s[1..], needle, i - 1);
    }
  }

  lemma {:induction false} IncludesImpliesOccurs(s: string, needle: string)
    requires Includes(s, needle)
    ensures exists i :: OccursAt(s, needle, i)
    decreases |s|
  {
    if StartsWith(s, needle) {
      assert OccursAt(s, needle, 0);
    } else {
      IncludesImpliesOccurs(s[1..], needle);
      var i :| OccursAt(s[1..], needle, i);
      assert s[1..][i..i + |needle|] == s[i + 1..i + 1 + |needle|];
      assert OccursAt(s, needle, i + 1);
    }
  }

  /** The scan agrees with the definition of a substring occurrence */
  lemma IncludesIff(s: string, needle: string)
    ensures Includes(s, needle) <==> exists i :: OccursAt(s, needle, i)
  {
    if Includes(s, needle) {
      IncludesImpliesOccurs(s, needle);
    }
    if exists i :: OccursAt(s, needle, i) {
      var i :| OccursAt(s, needle, i);
      OccursImpliesIncludes(s, needle, i);
    }
  }

  lemma IncludesEmpty(s: string)
    ensures Includes(s, "")
  {
    assert s[..0] == "";
  }

  // ---------------------------------------------------------------------------
  // Slicing
  // ---------------------------------------------------------------------------

  /** `xs.slice(0, n)`: a negative `n` counts from the end */
  function SliceTo<T>(xs: seq<T>, n: int): (r: seq<T>)
    ensures |r| <= |xs|
    ensures 0 <= n ==> |r| == if n < |xs| then n else |xs|
    ensures r == xs[..|r|]
  {
    if n >= 0 then
      (if n < |xs| then xs[..n] else xs)
    else
      (if |xs| + n > 0 then xs[..|xs| + n] else [])
  }

  // ---------------------------------------------------------------------------
  // JavaScript string lengths
  // ---------------------------------------------------------------------------

  /** The UTF-16 code units JavaScript stores for one character: a surrogate
      pair above U+FFFF, a single unit otherwise */
  function Utf16Units(c: char): (units: nat)
    ensures 1 <= units <= 2
    ensures units == 2 <==> c as int > 0xFFFF
  {
    if c as int > 0xFFFF then 2 else 1
  }

  /** `s.length`, which counts UTF-16 code units rather than characters */
  function Utf16Length(s: string): (n: nat)
    ensures |s| <= n <= 2 * |s|
  {
    if s == [] then 0 else Utf16Units(s[0]) + Utf16Length(s[1..])
  }

  /** `(a + b).length == a.length + b.length` */
  lemma {:induction false} Utf16LengthAppend(a: string, b: string)
    ensures Utf16Length(a + b) == Utf16Length(a) + Utf16Length(b)
  {
    if a == [] {
      assert a + b == b;
    } else {
      assert (a + b)[1..] == a[1..] + b;
      Utf16LengthAppend(a[1..], b);
    }
  }

  /** `s.substring(0, n)`: the characters of `s` from the left for as long as
      their UTF-16 units fit in `n` (a negative `n` counts as 0). Where `n` ends
      inside a surrogate pair JavaScript keeps the pair's first half, which is
      not a character; the model drops the whole character */
  function SubstringTo(s: string, n: int): (r: string)
    ensures |r| <= |s| && r == s[..|r|]
    ensures n <= 0 ==> r == ""
    ensures n >= 0 ==> Utf16Length(r) <= n
    ensures Utf16Length(s) <= n ==> r == s
    ensures |r| < |s| ==> Utf16Length(r) + Utf16Units(s[|r|]) > n
    decreases |s|
  {
    if s == [] || Utf16Units(s[0]) > n then ""
    else
      var rest := SubstringTo(s[1..], n - Utf16Units(s[0]));
      assert ([s[0]] + rest)[1..] == rest;
      [s[0]] + rest
  }

  /** The pages' `truncateText(text, maxLength)`: a placeholder for empty
      text, text of at most `maxLength` UTF-16 units as it is, longer text cut
      to `maxLength` units with '...' */
  function Truncate(text: string, maxLength: int, placeholder: string): (r: string)
    ensures text == "" ==> r == placeholder
    ensures text != "" && Utf16Length(text) <= maxLength ==> r == text
    ensures text != "" && Utf16Length(text) > maxLength ==> r == SubstringTo(text, maxLength) + "..."
  {
    if text == "" then placeholder
    else if Utf16Length(text) <= maxLength then text
    else SubstringTo(text, maxLength) + "..."
  }

  /** A cut text is a proper prefix of the text followed by '...'; the prefix
      fills `maxLength` UTF-16 units, or one less when the next character is a
      surrogate pair that would not fit, and the whole is three units longer */
  lemma TruncateKeepsPrefix(text: string, maxLength: nat, placeholder: string)
    requires Utf16Length(text) > maxLength
    ensures var r := Truncate(text, maxLength, placeholder);
            var kept := r[..|r| - 3];
            |r| >= 3 && r[|r| - 3..] == "..." && |kept| < |text| && kept == text[..|kept|] &&
            (Utf16Length(kept) == maxLength ||
             (Utf16Length(kept) == maxLength - 1 && Utf16Units(text[|kept|]) == 2)) &&
            Utf16Length(r) == Utf16Length(kept) + 3
  {
    var kept := SubstringTo(text, maxLength);
    var r := kept + "...";
    assert Truncate(text, maxLength, placeholder) == r;
    assert r[..|r| - 3] == kept && r[|r| - 3..] == "...";
    assert kept != text by {
      assert Utf16Length(kept) <= maxLength < Utf16Length(text);
    }
    assert text[..|text|] == text;
    assert Utf16Length(kept) + Utf16Units(text[|kept|]) > maxLength;
    Utf16LengthAppend(kept, "...");
    assert Utf16Length("...") == 3 by {
      assert "..."[1..] == ".." && ".."[1..] == "." && "."[1..] == "";
    }
  }

  /** Text made only of characters above U+FFFF is cut after `n / 2` of
      them, as each takes two UTF-16 units */
  lemma {:induction false} SurrogatePairsCut(s: string, n: nat)
    requires forall i :: 0 <= i < |s| ==> Utf16Units(s[i]) == 2
    ensures Utf16Length(s) == 2 * |s|
    ensures SubstringTo(s, n) == s[..if n / 2 < |s| then n / 2 else |s|]
    decreases |s|
  {
    if s != [] {
      SurrogatePairsCut(s[1..], if n >= 2 then n - 2 else 0);
      if n >= 2 {
        assert (n - 2) / 2 == n / 2 - 1;
        assert [s[0]] + s[1..][..if n / 2 - 1 < |s| - 1 then n / 2 - 1 else |s| - 1]
            == s[..if n / 2 < |s| then n / 2 else |s|];
      }
    }
  }

  /** Sixty camera emoji are 120 UTF-16 units: cut to 100 units they keep 50 */
  lemma CameraCaptionCut()
    ensures var s := seq(60, _ => '\U{1F4F7}');
            Truncate(s, 100, "") == seq(50, _ => '\U{1F4F7}') + "..."
  {
    var s := seq(60, _ => '\U{1F4F7}');
    SurrogatePairsCut(s, 100);
    assert s[..50] == seq(50, _ => '\U{1F4F7}');
  }

  // ---------------------------------------------------------------------------
  // Filtering, order-preserving
  // ---------------------------------------------------------------------------

  /** `xs.filter(keep)` */
  function Filter<T>(xs: seq<T>, keep: T -> bool): (r: seq<T>)
    ensures |r| <= |xs|
    ensures forall x :: x in r ==> x in xs && keep(x)
  {
    if xs == [] then []
    else if keep(xs[0]) then [xs[0]] + Filter(xs[1..], keep)
    else Filter(xs[1..], keep)
  }

  /** `a` is `b` with some elements deleted, order kept */
  ghost predicate IsSubseq<T>(a: seq<T>, b: seq<T>)
    decreases |b|
  {
    if a == [] then true
    else if b == [] then false
    else (a[0] == b[0] && IsSubseq(a[1..], b[1..])) || IsSubseq(a, b[1..])
  }

  lemma {:induction false} FilterKeepsOrder<T>(xs: seq<T>, keep: T -> bool)
    ensures IsSubseq(Filter(xs, keep), xs)
  {
    if xs != [] {
      FilterKeepsOrder(xs[1..], keep);
      var rest := Filter(xs[1..], keep);
      if keep(xs[0]) {
        assert ([xs[0]] + rest)[1..] == rest;
      }
    }
  }

  lemma {:induction false} FilterMembership<T>(xs: seq<T>, keep: T -> bool, x: T)
    ensures x in Filter(xs, keep) <==> x in xs && keep(x)
  {
    if xs != [] {
      FilterMembership(xs[1..], keep, x);
      assert x in xs <==> x == xs[0] || x in xs[1..];
    }
  }

  lemma FilterPair<T>(a: T, b: T, keep: T -> bool)
    ensures Filter([a, b], keep) == (if keep(a) then [a] else []) + (if keep(b) then [b] else [])
  {
    assert [a, b][1..] == [b];
    assert [b][1..] == [];
  }

  lemma {:induction false} FilterAll<T>(xs: seq<T>, keep: T -> bool)
    requires forall x :: x in xs ==> keep(x)
    ensures Filter(xs, keep) == xs
  {
    if xs != [] {
      assert forall x :: x in xs[1..] ==> x in xs;
      FilterAll(xs[1..], keep);
    }
  }

  lemma {:induction false} FilterNone<T>(xs: seq<T>, keep: T -> bool)
    requires forall x :: x in xs ==> !keep(x)
    ensures Filter(xs, keep) == []
  {
    if xs != [] {
      assert forall x :: x in xs[1..] ==> x in xs;
      FilterNone(xs[1..], keep);
    }
  }

  /** `names.join(sep)` */
  function Join(names: seq<string>, sep: string): string {
    if names == [] then ""
    else if |names| == 1 then names[0]
    else names[0] + sep + Join(names[1..], sep)
  }

  // ---------------------------------------------------------------------------
  // Decimal rendering of integers
  // ---------------------------------------------------------------------------

  function DigitChar(d: nat): (c: char)
    requires d < 10
    ensures IsDigit(c)
  {
    "0123456789"[d]
  }

  function DigitValue(c: char): nat
    requires IsDigit(c)
  {
    c as int - '0' as int
  }

  /** `n.toString()` for a non-negative integer */
  function NatToString(n: nat): (r: string)
    ensures |r| > 0
    ensures forall i :: 0 <= i < |r| ==> IsDigit(r[i])
    decreases n
  {
    if n < 10 then [DigitChar(n)] else NatToString(n / 10) + [DigitChar(n % 10)]
  }

  /** `n.toString()` for any integer: a leading '-' for negative values */
  function IntToString(n: int): (r: string)
    ensures |r| > 0
  {
    if n < 0 then "-" + NatToString(-n) else NatToString(n)
  }

  /** Reads a string of decimal digits, as the server does with `page=…` */
  function ParseDigits(s: string): nat
    requires forall i :: 0 <= i < |s| ==> IsDigit(s[i])
    decreases |s|
  {
    if s == [] then 0 else ParseDigits(s[..|s| - 1]) * 10 + DigitValue(s[|s| - 1])
  }

  lemma {:induction false} NatToStringRoundTrip(n: nat)
    ensures ParseDigits(NatToString(n)) == n
    decreases n
  {
    var r := NatToString(n);
    if n < 10 {
      assert r[..|r| - 1] == [];
    } else {
      NatToStringRoundTrip(n / 10);
      assert r[..|r| - 1] == NatToString(n / 10);
    }
  }

  lemma NatToStringInjective(m: nat, n: nat)
    requires NatToString(m) == NatToString(n)
    ensures m == n
  {
    NatToStringRoundTrip(m);
    NatToStringRoundTrip(n);
  }
}
