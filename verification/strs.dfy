/** String helpers standing in for Go's `strings`, `strconv` and `fmt` calls
    the core uses: joining, splitting on one character, trimming white space,
    prefixes, and decimal rendering of integers. Strings are `seq<char>`. */
module Strs {

  /** In-order concatenation of all parts (Go's repeated `+=`). */
  function Concat(parts: seq<string>): string {
    if |parts| == 0 then "" else parts[0] + Concat(parts[1..])
  }

  /** `strings.Join(parts, sep)`. */
  function Join(parts: seq<string>, sep: string): string {
    if |parts| == 0 then ""
    else if |parts| == 1 then parts[0]
    else parts[0] + sep + Join(parts[1..], sep)
  }

  /** `strings.Split(s, string(c))` for a one-character separator: the
      maximal pieces between occurrences of `c`, so always at least one piece
      (the empty string splits into `[""]`). */
  function SplitOn(s: string, c: char): (r: seq<string>)
    ensures |r| >= 1
    ensures forall i :: 0 <= i < |r| ==> c !in r[i]
    ensures |r| == 1 + CountChar(s, c)
    decreases |s|
  {
    if |s| == 0 then [""]
    else
      var rest := SplitOn(s[1..], c);
      if s[0] == c then [""] + rest
      else [[s[0]] + rest[0]] + rest[1..]
  }

  /** Number of occurrences of `c` in `s`. */
  function CountChar(s: string, c: char): nat {
    if |s| == 0 then 0 else (if s[0] == c then 1 else 0) + CountChar(s[1..], c)
  }

  /** Joining a list whose first piece is extended by `x` is `x` followed by the join. */
  lemma JoinExtendFirst(x: string, rest: seq<string>, sep: string)
    requires |rest| >= 1
    ensures Join([x + rest[0]] + rest[1..], sep) == x + Join(rest, sep)
  {
    var parts := [x + rest[0]] + rest[1..];
    if |rest| > 1 {
      assert parts[1..] == rest[1..];
    }
  }

  /** Splitting and re-joining with the same separator gives back the input. */
  lemma {:induction false} JoinSplit(s: string, c: char)
    ensures Join(SplitOn(s, c), [c]) == s
    decreases |s|
  {
    if |s| > 0 {
      var rest := SplitOn(s[1..], c);
      JoinSplit(s[1..], c);
      if s[0] == c {
        assert ([""] + rest)[1..] == rest;
      } else {
        JoinExtendFirst([s[0]], rest, [c]);
      }
      assert s == [s[0]] + s[1..];
    }
  }

  /** Concatenating `p + sep` for each piece is the join followed by one `sep`. */
  lemma {:induction false} ConcatWithSuffix(parts: seq<string>, sep: string)
    requires |parts| >= 1
    ensures Concat(SuffixEach(parts, sep)) == Join(parts, sep) + sep
    decreases |parts|
  {
    if |parts| == 1 {
      assert SuffixEach(parts, sep) == [parts[0] + sep];
      assert Concat([parts[0] + sep]) == parts[0] + sep + Concat([]);
    } else {
      ConcatWithSuffix(parts[1..], sep);
      assert SuffixEach(parts, sep)[1..] == SuffixEach(parts[1..], sep);
    }
  }

  /** Each piece with `sep` appended. */
  function SuffixEach(parts: seq<string>, sep: string): (r: seq<string>)
    ensures |r| == |parts|
    ensures forall i :: 0 <= i < |r| ==> r[i] == parts[i] + sep
  {
    seq(|parts|, i requires 0 <= i < |parts| => parts[i] + sep)
  }

  /** Go's `unicode.IsSpace`: the Unicode White_Space characters. */
  predicate IsSpace(c: char) {
    || c == ' ' || c == '\t' || c == '\n' || c == '\r'
    || c == '\U{000B}' || c == '\U{000C}' || c == '\U{0085}' || c == '\U{00A0}'
    || c == '\U{1680}' || ('\U{2000}' <= c <= '\U{200A}')
    || c == '\U{2028}' || c == '\U{2029}' || c == '\U{202F}' || c == '\U{205F}'
    || c == '\U{3000}'
  }

  /** Index of the first character that is not white space (|s| if none). */
  function FirstNonSpace(s: string): (i: nat)
    ensures i <= |s|
    ensures forall k :: 0 <= k < i ==> IsSpace(s[k])
    ensures i < |s| ==> !IsSpace(s[i])
  {
    if |s| == 0 || !IsSpace(s[0]) then 0 else 1 + FirstNonSpace(s[1..])
  }

  /** One past the index of the last character that is not white space (0 if none). */
  function EndNonSpace(s: string): (j: nat)
    ensures j <= |s|
    ensures forall k :: j <= k < |s| ==> IsSpace(s[k])
    ensures j > 0 ==> !IsSpace(s[j - 1])
  {
    if |s| == 0 || !IsSpace(s[|s| - 1]) then |s| else EndNonSpace(s[..|s| - 1])
  }

  /** `strings.TrimSpace`: the input without leading and trailing white space. */
  function TrimSpace(s: string): (r: string)
    ensures |r| <= |s|
    ensures r == "" || (!IsSpace(r[0]) && !IsSpace(r[|r| - 1]))
    ensures var i := FirstNonSpace(s);
              i + |r| <= |s| && s[i..i + |r|] == r && IsBlank(s[..i]) && IsBlank(s[i + |r|..])
  {
    var i := FirstNonSpace(s);
    var t := s[i..];
    var j := EndNonSpace(t);
    assert s[i..i + j] == t[..j];
    t[..j]
  }

  /** True iff `s` contains only white space (TrimSpace gives ""). */
  predicate IsBlank(s: string) {
    forall k :: 0 <= k < |s| ==> IsSpace(s[k])
  }

  lemma TrimSpaceEmptyIffBlank(s: string)
    ensures TrimSpace(s) == "" <==> IsBlank(s)
  {
    var i := FirstNonSpace(s);
    if !IsBlank(s) {
      assert i < |s|;
      var t := s[i..];
      assert !IsSpace(t[0]);
      assert EndNonSpace(t) > 0;
    }
  }

  /** `strings.HasPrefix`. */
  predicate HasPrefix(s: string, p: string) {
    |p| <= |s| && s[..|p|] == p
  }

  /** The decimal digit for 0..9. */
  function DigitChar(d: nat): (c: char)
    requires d < 10
    ensures '0' <= c <= '9'
  {
    ('0' as int + d) as char
  }

  /** Decimal rendering of a natural number, as `%d` formats it. */
  function NatToString(n: nat): (r: string)
    ensures |r| >= 1
    ensures forall k :: 0 <= k < |r| ==> '0' <= r[k] <= '9'
    ensures n >= 10 ==> r[0] != '0'
    decreases n
  {
    if n < 10 then [DigitChar(n)] else NatToString(n / 10) + [DigitChar(n % 10)]
  }

  /** The value of a run of decimal digits, as `%d` reads it back. */
  function DigitsValue(s: string): nat
    requires forall k :: 0 <= k < |s| ==> '0' <= s[k] <= '9'
    decreases |s|
  {
    if |s| == 0 then 0
    else DigitsValue(s[..|s| - 1]) * 10 + (s[|s| - 1] as int - '0' as int)
  }

  /** Reading a rendering back gives the number. */
  lemma {:induction false} NatToStringRoundTrip(n: nat)
    ensures DigitsValue(NatToString(n)) == n
    decreases n
  {
    var r := NatToString(n);
    if n >= 10 {
      NatToStringRoundTrip(n / 10);
      assert r[..|r| - 1] == NatToString(n / 10);
    } else {
      assert r[..|r| - 1] == [];
    }
  }

  /** Distinct numbers render differently. */
  lemma NatToStringInjective(i: nat, j: nat)
    requires i != j
    ensures NatToString(i) != NatToString(j)
  {
    NatToStringRoundTrip(i);
    NatToStringRoundTrip(j);
  }

  /** Decimal rendering of an integer, with a leading '-' when negative. */
  function IntToString(n: int): (r: string)
    ensures |r| >= 1
  {
    if n < 0 then "-" + NatToString(-n) else NatToString(n)
  }

  /** Go's `%q` (`strconv.Quote`): the text between double quotes, each
      character written by EscapeChar. */
  function Quote(s: string): (r: string)
    ensures |r| >= |s| + 2 && r[0] == '"' && r[|r| - 1] == '"'
    ensures forall k :: 0 <= k < |r| ==> Printable(r[k])
  {
    "\"" + Escape(s) + "\""
  }

  /** The characters `strconv.Quote` writes as they are: printable ASCII,
      and every Latin-1 or wider character except the no-break space and the
      soft hyphen. */
  predicate Printable(c: char) {
    (' ' <= c <= '~') || (c as int >= 0xA1 && c != '\U{AD}')
  }

  /** A hexadecimal digit, lower case as `strconv` writes it. */
  function HexDigit(d: nat): (c: char)
    requires d < 16
    ensures Printable(c)
  {
    if d < 10 then (d + 48) as char else (d - 10 + 97) as char
  }

  /** Two hexadecimal digits for a value below 256. */
  function Hex2(n: nat): (r: string)
    requires n < 256
    ensures |r| == 2 && forall k :: 0 <= k < 2 ==> Printable(r[k])
  {
    [HexDigit(n / 16), HexDigit(n % 16)]
  }

  /** How `strconv.Quote` writes one character: a backslash before `"` and
      `\`; printable characters as they are; the seven C escapes for bell,
      backspace, form feed, newline, carriage return, tab and vertical tab;
      `\xNN` for the other ASCII control characters and DEL; `\u00NN` for
      the remaining characters below U+00A1 and for the soft hyphen. */
  function EscapeChar(c: char): (r: string)
    ensures 1 <= |r| <= 6
    ensures forall k :: 0 <= k < |r| ==> Printable(r[k])
    ensures |r| == 1 <==> Printable(c) && c != '"' && c != '\\'
    ensures |r| == 1 ==> r == [c]
  {
    if c == '"' || c == '\\' then ['\\', c]
    else if Printable(c) then [c]
    else if c == '\U{7}' then "\\a"
    else if c == '\U{8}' then "\\b"
    else if c == '\U{C}' then "\\f"
    else if c == '\n' then "\\n"
    else if c == '\r' then "\\r"
    else if c == '\t' then "\\t"
    else if c == '\U{B}' then "\\v"
    else if c < ' ' || c == '\U{7F}' then "\\x" + Hex2(c as int)
    else "\\u00" + Hex2(c as int)
  }

  function Escape(s: string): (r: string)
    ensures |r| >= |s|
    ensures forall k :: 0 <= k < |r| ==> Printable(r[k])
  {
    if |s| == 0 then "" else EscapeChar(s[0]) + Escape(s[1..])
  }

  /** Escaping works character by character, so it distributes over
      concatenation. */
  lemma {:induction false} EscapeAppend(a: string, b: string)
    ensures Escape(a + b) == Escape(a) + Escape(b)
    decreases |a|
  {
    if |a| == 0 {
      assert a + b == b;
    } else {
      EscapeAppend(a[1..], b);
      EscapeCons(a[0], a[1..] + b);
      EscapeCons(a[0], a[1..]);
      ConsSplit(a, b);
      Regroup3(EscapeChar(a[0]), Escape(a[1..]), Escape(b));
    }
  }

  lemma EscapeCons(c: char, s: string)
    ensures Escape([c] + s) == EscapeChar(c) + Escape(s)
  {
    assert ([c] + s)[0] == c && ([c] + s)[1..] == s;
  }

  /** Text made only of printable characters other than `"` and `\` is
      quoted as it stands, and any other text is not. */
  lemma {:induction false} EscapeIdentityIff(s: string)
    ensures Escape(s) == s <==> forall k :: 0 <= k < |s| ==> Printable(s[k]) && s[k] != '"' && s[k] != '\\'
    decreases |s|
  {
    if |s| > 0 {
      EscapeIdentityIff(s[1..]);
      var e := EscapeChar(s[0]);
      assert forall k :: 1 <= k < |s| ==> s[k] == s[1..][k - 1];
      if |e| == 1 {
        assert s == [s[0]] + s[1..];
        assert Escape(s) == [s[0]] + Escape(s[1..]);
        if Escape(s) == s {
          assert Escape(s[1..]) == Escape(s)[1..];
        }
      } else {
        // A longer escape makes the result longer than the text.
        assert |Escape(s)| >= |e| + |s| - 1 > |s|;
      }
    }
  }

  /** A control character in a quoted name is written as its escape: a
      newline becomes backslash and `n`, and a NUL becomes `\x00`. */
  lemma QuoteControls()
    ensures Quote("a\nb") == "\"a\\nb\""
    ensures Quote("\U{0}") == "\"\\x00\""
  {
    assert Escape("a\nb") == "a" + Escape("\nb");
    assert Escape("\nb") == "\\n" + Escape("b");
    assert Escape("\U{0}") == "\\x" + Hex2(0) + Escape("");
  }

  /** A part of a join is a substring of it. */
  lemma {:induction false} JoinContains(parts: seq<string>, sep: string, i: nat)
    requires i < |parts|
    ensures exists a, b :: Join(parts, sep) == a + parts[i] + b
    decreases |parts|
  {
    if |parts| == 1 {
      assert Join(parts, sep) == "" + parts[0] + "";
    } else if i == 0 {
      assert Join(parts, sep) == "" + parts[0] + (sep + Join(parts[1..], sep));
    } else {
      JoinContains(parts[1..], sep, i - 1);
      var a, b :| Join(parts[1..], sep) == a + parts[1..][i - 1] + b;
      assert Join(parts, sep) == (parts[0] + sep + a) + parts[i] + b;
    }
  }

  /** The number of bytes UTF-8 spends on `c` (Go's strings are bytes, so
      `len` counts these). */
  function Utf8Width(c: char): (n: nat)
    ensures 1 <= n <= 4
    ensures n == 1 <==> c as int < 0x80
  {
    if c as int < 0x80 then 1 else if c as int < 0x800 then 2 else if c as int < 0x1_0000 then 3 else 4
  }

  /** The UTF-8 byte length of `s`. */
  function Utf8Size(s: string): (n: nat)
    ensures |s| <= n <= 4 * |s|
  {
    if |s| == 0 then 0 else Utf8Width(s[0]) + Utf8Size(s[1..])
  }

  lemma {:induction false} Utf8SizeAppend(a: string, b: string)
    ensures Utf8Size(a + b) == Utf8Size(a) + Utf8Size(b)
    decreases |a|
  {
    if |a| == 0 {
      assert a + b == b;
    } else {
      assert (a + b)[0] == a[0] && (a + b)[1..] == a[1..] + b;
      Utf8SizeAppend(a[1..], b);
    }
  }

  /** For ASCII text bytes and characters coincide. */
  lemma {:induction false} Utf8SizeAscii(s: string)
    requires forall k :: 0 <= k < |s| ==> s[k] as int < 0x80
    ensures Utf8Size(s) == |s|
    decreases |s|
  {
    if |s| > 0 {
      Utf8SizeAscii(s[1..]);
    }
  }

  /** The longest prefix of `s` whose encoding fits in `n` bytes: Go's byte
      slice `s[:n]`, except that a character the cut would split is left
      out whole. */
  function Utf8Prefix(s: string, n: nat): (p: string)
    ensures p <= s
    ensures Utf8Size(p) <= n
    ensures |p| < |s| ==> Utf8Size(p) + Utf8Width(s[|p|]) > n
    ensures Utf8Size(s) > n ==> |p| < |s|
    decreases |s|
  {
    if |s| == 0 || Utf8Width(s[0]) > n then []
    else
      var rest := Utf8Prefix(s[1..], n - Utf8Width(s[0]));
      assert ([s[0]] + rest)[0] == s[0] && ([s[0]] + rest)[1..] == rest;
      [s[0]] + rest
  }

  /** When the first `k` characters take exactly `n` bytes, the cut falls
      between characters and the prefix is those `k` characters. */
  lemma Utf8PrefixOnBoundary(s: string, k: nat, n: nat)
    requires k <= |s| && Utf8Size(s[..k]) == n
    ensures Utf8Prefix(s, n) == s[..k]
  {
    assert s[..k] + s[k..] == s;
    Utf8PrefixOfSplit(s[..k], s[k..]);
  }

  lemma {:induction false} Utf8PrefixOfSplit(a: string, b: string)
    ensures Utf8Prefix(a + b, Utf8Size(a)) == a
    decreases |a|
  {
    if |a| > 0 {
      ConsSplit(a, b);
      Utf8PrefixOfSplit(a[1..], b);
    } else {
      assert a + b == b;
    }
  }

  /** Regrouping a five-part concatenation around its middle part. */
  lemma Regroup(x: string, a: string, l: string, b: string, y: string)
    ensures x + (a + l + b) + y == (x + a) + l + (b + y)
  {
  }

  /** A non-empty sequence is its head followed by its tail, also before
      another sequence. */
  lemma ConsSplit<T>(a: seq<T>, b: seq<T>)
    requires |a| > 0
    ensures [a[0]] + (a[1..] + b) == a + b && [a[0]] + a[1..] == a
  {
  }

  lemma Regroup3<T>(a: seq<T>, b: seq<T>, c: seq<T>)
    ensures a + b + c == a + (b + c)
  {
  }

  /** `l` occurs inside `p`. */
  lemma InfixWitness(p: string, a: string, l: string, b: string)
    requires p == a + l + b
    ensures exists a', b' :: p == a' + l + b'
  {
  }
}
