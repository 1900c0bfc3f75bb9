/** The handful of Python `str` operations the core relies on: `strip()`,
    `upper()`, `split()`, `" ".join(...)`, repetition, the `<`, `>` and `^`
    alignments of `str.format`, string ordering, and digit rendering. */
module Text {

  /** Python's `str.isspace()` for one character: the characters that
      `strip()` removes and `split()` splits on. */
  predicate IsSpace(c: char) {
    c == ' ' || ('\t' <= c <= '\r') || ('\U{1c}' <= c <= '\U{1f}')
    || c == '\U{85}' || c == '\U{a0}' || c == '\U{1680}'
    || ('\U{2000}' <= c <= '\U{200a}') || c == '\U{2028}' || c == '\U{2029}'
    || c == '\U{202f}' || c == '\U{205f}' || c == '\U{3000}'
  }

  /** A string with no whitespace at either end. */
  predicate Trimmed(s: string) {
    s == "" || (!IsSpace(s[0]) && !IsSpace(s[|s| - 1]))
  }

  /** Number of whitespace characters at the front of `s`. */
  function LeadingSpaces(s: string): (k: nat)
    ensures k <= |s|
    ensures forall i :: 0 <= i < k ==> IsSpace(s[i])
    ensures k < |s| ==> !IsSpace(s[k])
  {
    if s != [] && IsSpace(s[0]) then 1 + LeadingSpaces(s[1..]) else 0
  }

  /** Number of whitespace characters at the end of `s`. */
  function TrailingSpaces(s: string): (k: nat)
    ensures k <= |s|
    ensures forall i :: |s| - k <= i < |s| ==> IsSpace(s[i])
    ensures k < |s| ==> !IsSpace(s[|s| - 1 - k])
  {
    if s != [] && IsSpace(s[|s| - 1]) then 1 + TrailingSpaces(s[..|s| - 1]) else 0
  }

  /** Where `s.strip()` begins and ends in `s`: everything outside
      `[start, end)` is whitespace, and the slice itself has none at its ends. */
  function StripBounds(s: string): (b: (nat, nat))
    ensures b.0 <= b.1 <= |s|
    ensures forall i :: 0 <= i < b.0 ==> IsSpace(s[i])
    ensures forall i :: b.1 <= i < |s| ==> IsSpace(s[i])
    ensures b.0 < b.1 ==> !IsSpace(s[b.0]) && !IsSpace(s[b.1 - 1])
  {
    var a := LeadingSpaces(s);
    var k := TrailingSpaces(s[a..]);
    (a, |s| - k)
  }

  /** Python's `s.strip()`: `s` with the whitespace at both ends removed. */
  function Strip(s: string): (r: string)
    ensures |r| <= |s| && Trimmed(r)
    ensures Trimmed(s) ==> r == s
  {
    var b := StripBounds(s);
    var r := s[b.0..b.1];
    assert b.0 < b.1 ==> r[0] == s[b.0] && r[|r| - 1] == s[b.1 - 1];
    assert Trimmed(s) && s != "" ==> b.0 == 0 && b.1 == |s| by {
      if Trimmed(s) && s != "" {
        assert !IsSpace(s[0]) && !IsSpace(s[|s| - 1]);
      }
    }
    r
  }

  /** The stripped text is the part of `s` after its leading whitespace, and
      all that follows it in `s` is whitespace. */
  lemma StripIsTrim(s: string)
    ensures var r, k := Strip(s), LeadingSpaces(s);
      k + |r| <= |s| && r == s[k..k + |r|] && forall i :: k + |r| <= i < |s| ==> IsSpace(s[i])
  {
    var b := StripBounds(s);
    assert b.0 == LeadingSpaces(s) && Strip(s) == s[b.0..b.1];
    assert b.0 + |Strip(s)| == b.1;
  }

  /** `strip()` removes exactly the whitespace at the ends: any slice of `s`
      with no whitespace at its own ends and only whitespace outside it is
      the stripped text. */
  lemma StripIsOnlyTrim(s: string, a: nat, b: nat)
    requires a <= b <= |s| && Trimmed(s[a..b])
    requires forall i :: 0 <= i < a ==> IsSpace(s[i])
    requires forall i :: b <= i < |s| ==> IsSpace(s[i])
    ensures Strip(s) == s[a..b]
  {
    StripIsTrim(s);
  }

  /** Stripping a text that sits between two line breaks gives back the text,
      when the text itself has no whitespace at its ends. */
  lemma StripLines(q: string)
    requires q != "" && Trimmed(q)
    ensures Strip("\n" + q + "\n") == q
  {
    var s := "\n" + q + "\n";
    assert s[1..] == q + "\n";
    assert LeadingSpaces(s[1..]) == 0;
    assert s[1..][..|s[1..]| - 1] == q;
    assert TrailingSpaces(s[1..]) == 1;
    assert s[1..|s| - 1] == q;
  }

  /** Stripping twice changes nothing more than stripping once. */
  lemma StripIdempotent(s: string)
    ensures Strip(Strip(s)) == Strip(s)
  {
  }

  /** Python's `upper()` restricted to ASCII letters. */
  function UpperChar(c: char): char {
    if 'a' <= c <= 'z' then (c as int - 32) as char else c
  }

  function Upper(s: string): (r: string)
    ensures |r| == |s|
    ensures forall i :: 0 <= i < |s| ==> r[i] == UpperChar(s[i])
  {
    seq(|s|, i requires 0 <= i < |s| => UpperChar(s[i]))
  }

  /** An upper-cased string holds no lower-case ASCII letter, and upper-casing
      it again changes nothing. */
  lemma UpperIsUpper(s: string)
    ensures forall i :: 0 <= i < |s| ==> !('a' <= Upper(s)[i] <= 'z')
    ensures Upper(Upper(s)) == Upper(s)
  {
  }

  lemma UpperAppend(a: string, b: string)
    ensures Upper(a + b) == Upper(a) + Upper(b)
  {
  }

  /** A word as `split()` produces it: non-empty, without whitespace. */
  predicate IsWord(w: string) {
    w != [] && forall i :: 0 <= i < |w| ==> !IsSpace(w[i])
  }

  /** Length of the run of non-whitespace characters at the front of `s`. */
  function WordLength(s: string): (k: nat)
    ensures k <= |s|
    ensures forall i :: 0 <= i < k ==> !IsSpace(s[i])
    ensures k < |s| ==> IsSpace(s[k])
  {
    if s != [] && !IsSpace(s[0]) then 1 + WordLength(s[1..]) else 0
  }

  /** Python's `s.split()` with no separator: the maximal whitespace-free runs
      of `s`, in order. */
  function Words(s: string): (ws: seq<string>)
    ensures forall i :: 0 <= i < |ws| ==> IsWord(ws[i])
    decreases |s|
  {
    var k := LeadingSpaces(s);
    var t := s[k..];
    if t == [] then []
    else
      assert t[0] == s[k] && !IsSpace(t[0]);
      var n := WordLength(t);
      assert n > 0 && IsWord(t[..n]);
      [t[..n]] + Words(t[n..])
  }

  /** `" ".join(ws)`. */
  function Join(ws: seq<string>): string {
    if ws == [] then ""
    else if |ws| == 1 then ws[0]
    else ws[0] + " " + Join(ws[1..])
  }

  /** Concatenation of a sequence of word sequences. */
  function Flatten(groups: seq<seq<string>>): seq<string> {
    if groups == [] then [] else groups[0] + Flatten(groups[1..])
  }

  lemma FlattenAppend(groups: seq<seq<string>>, g: seq<string>)
    ensures Flatten(groups + [g]) == Flatten(groups) + g
  {
    if groups != [] {
      assert (groups + [g])[1..] == groups[1..] + [g];
      FlattenAppend(groups[1..], g);
    }
  }

  lemma LeadingSpacesOfSpace(x: string)
    ensures LeadingSpaces(" " + x) == 1 + LeadingSpaces(x)
  {
    assert (" " + x)[1..] == x;
  }

  lemma LeadingSpacesOfWord(w: string, x: string)
    requires IsWord(w)
    ensures LeadingSpaces(w + x) == 0
  {
  }

  lemma {:induction false} WordLengthOfWord(w: string, x: string)
    requires forall i :: 0 <= i < |w| ==> !IsSpace(w[i])
    requires x == [] || IsSpace(x[0])
    ensures WordLength(w + x) == |w|
  {
    if w != [] {
      assert (w + x)[1..] == w[1..] + x;
      WordLengthOfWord(w[1..], x);
    }
  }

  lemma WordsOfSpace(x: string)
    ensures Words(" " + x) == Words(x)
  {
    LeadingSpacesOfSpace(x);
    assert (" " + x)[LeadingSpaces(" " + x)..] == x[LeadingSpaces(x)..];
  }

  /** A word followed by nothing or by whitespace splits off as the first word. */
  lemma WordsOfWordThen(w: string, rest: string)
    requires IsWord(w) && (rest == [] || IsSpace(rest[0]))
    ensures Words(w + rest) == [w] + Words(rest)
  {
    LeadingSpacesOfWord(w, rest);
    WordLengthOfWord(w, rest);
    var t := (w + rest)[LeadingSpaces(w + rest)..];
    assert t == w + rest;
    assert t[..|w|] == w;
    assert t[|w|..] == rest;
  }

  /** The first word of words joined by single spaces is the first of them. */
  lemma WordLengthOfJoin(ws: seq<string>)
    requires ws != [] && forall i :: 0 <= i < |ws| ==> IsWord(ws[i])
    ensures WordLength(Join(ws)) == |ws[0]|
  {
    if |ws| == 1 {
      assert Join(ws) == ws[0] + "";
      WordLengthOfWord(ws[0], "");
    } else {
      assert Join(ws) == ws[0] + (" " + Join(ws[1..]));
      WordLengthOfWord(ws[0], " " + Join(ws[1..]));
    }
  }

  /** Splitting words joined by single spaces gives the words back. */
  lemma {:induction false} WordsJoin(ws: seq<string>)
    requires forall i :: 0 <= i < |ws| ==> IsWord(ws[i])
    ensures Words(Join(ws)) == ws
  {
    if ws != [] {
      var w := ws[0];
      var rest := if |ws| == 1 then "" else " " + Join(ws[1..]);
      assert Join(ws) == w + rest;
      WordsOfWordThen(w, rest);
      if |ws| > 1 {
        WordsOfSpace(Join(ws[1..]));
        WordsJoin(ws[1..]);
        assert ws == [w] + ws[1..];
      }
    }
  }

  /** Words joined by single spaces have no whitespace at either end. */
  lemma JoinTrimmed(ws: seq<string>)
    requires forall i :: 0 <= i < |ws| ==> IsWord(ws[i])
    ensures Trimmed(Join(ws))
    ensures ws != [] ==> Join(ws) != "" && Join(ws)[0] == ws[0][0]
  {
    if |ws| > 1 {
      JoinTrimmed(ws[1..]);
    }
  }

  /** `" ".join(ws + [w])`. */
  lemma JoinSnoc(ws: seq<string>, w: string)
    ensures Join(ws + [w]) == if ws == [] then w else Join(ws) + " " + w
  {
    if |ws| > 1 {
      var ws' := ws + [w];
      assert ws'[0] == ws[0] && ws'[1..] == ws[1..] + [w];
      JoinSnoc(ws[1..], w);
      assert Join(ws') == ws[0] + " " + (Join(ws[1..]) + " " + w);
    } else if |ws| == 1 {
      assert (ws + [w])[1..] == [w];
    }
  }

  lemma JoinLength(ws: seq<string>)
    ensures ws != [] ==> |Join(ws)| >= |ws[0]|
    ensures |ws| == 1 ==> Join(ws) == ws[0]
  {
  }

  /** `c * n` for a one-character string `c`; empty when `n <= 0`. */
  function Repeat(c: char, n: int): (r: string)
    ensures |r| == if n <= 0 then 0 else n
    ensures forall i :: 0 <= i < |r| ==> r[i] == c
    decreases n
  {
    if n <= 0 then "" else [c] + Repeat(c, n - 1)
  }

  /** `"{:<w}"` / `"{:ws}"`: `s` left-aligned in a field of width `w`. */
  function PadRight(s: string, w: int): (r: string)
    ensures |r| == if |s| >= w then |s| else w
    ensures r[..|s|] == s
    ensures forall i :: |s| <= i < |r| ==> r[i] == ' '
  {
    s + Repeat(' ', w - |s|)
  }

  /** `"{:>w}"`: `s` right-aligned in a field of width `w`. */
  function PadLeft(s: string, w: int): (r: string)
    ensures |r| == if |s| >= w then |s| else w
    ensures r[|r| - |s|..] == s
    ensures forall i :: 0 <= i < |r| - |s| ==> r[i] == ' '
  {
    Repeat(' ', w - |s|) + s
  }

  /** `"{:^w}"`: `s` centred in a field of width `w`; of the padding, the
      smaller half (rounded down) goes on the left. */
  function Center(s: string, w: int): (r: string)
    ensures |r| == if |s| >= w then |s| else w
    ensures var left := if |s| >= w then 0 else (w - |s|) / 2;
            r[left..left + |s|] == s
            && (forall i :: 0 <= i < left ==> r[i] == ' ')
            && (forall i :: left + |s| <= i < |r| ==> r[i] == ' ')
  {
    var pad := w - |s|;
    if pad <= 0 then s
    else Repeat(' ', pad / 2) + s + Repeat(' ', pad - pad / 2)
  }

  /** Python's `<` on `str`: lexicographic by code point, a proper prefix
      coming first. */
  predicate StrLt(a: string, b: string) {
    if a == [] then b != []
    else if b == [] then false
    else if a[0] != b[0] then a[0] < b[0]
    else StrLt(a[1..], b[1..])
  }

  lemma {:induction false} StrLtIrreflexive(a: string)
    ensures !StrLt(a, a)
  {
    if a != [] {
      StrLtIrreflexive(a[1..]);
    }
  }

  lemma {:induction false} StrLtTransitive(a: string, b: string, c: string)
    requires StrLt(a, b) && StrLt(b, c)
    ensures StrLt(a, c)
  {
    if a != [] && b != [] && c != [] && a[0] == b[0] && b[0] == c[0] {
      StrLtTransitive(a[1..], b[1..], c[1..]);
    }
  }

  lemma {:induction false} StrLtTotal(a: string, b: string)
    ensures a == b || StrLt(a, b) || StrLt(b, a)
  {
    if a != [] && b != [] && a[0] == b[0] {
      StrLtTotal(a[1..], b[1..]);
      if a[1..] == b[1..] {
        assert a == [a[0]] + a[1..] && b == [b[0]] + b[1..];
      }
    }
  }

  lemma {:induction false} StrLtAsymmetric(a: string, b: string)
    requires StrLt(a, b)
    ensures !StrLt(b, a)
  {
    if a != [] && b != [] && a[0] == b[0] {
      StrLtAsymmetric(a[1..], b[1..]);
    }
  }

  /** The decimal digit for `d`. */
  function DigitChar(d: nat): char
    requires d < 10
  {
    "0123456789"[d]
  }

  function DigitValue(c: char): int {
    c as int - '0' as int
  }

  predicate IsDigit(c: char) {
    '0' <= c <= '9'
  }

  function Pow10(n: nat): (r: nat)
    ensures r >= 1
  {
    if n == 0 then 1 else 10 * Pow10(n - 1)
  }

  /** `n` in exactly `w` decimal digits with leading zeros, as the `%m`, `%d`,
      `%H`, `%M`, `%S` and `%f` directives of `strftime` print a field. */
  function ZeroPad(n: nat, w: nat): (r: string)
    requires n < Pow10(w)
    ensures |r| == w
    ensures forall i :: 0 <= i < w ==> IsDigit(r[i])
  {
    if w == 0 then "" else ZeroPad(n / 10, w - 1) + [DigitChar(n % 10)]
  }

  /** The number whose decimal digits are `s`. */
  function ParseDigits(s: string): int {
    if s == [] then 0 else 10 * ParseDigits(s[..|s| - 1]) + DigitValue(s[|s| - 1])
  }

  /** Reading a zero-padded field back gives the number that was printed. */
  lemma {:induction false} ParseZeroPad(n: nat, w: nat)
    requires n < Pow10(w)
    ensures ParseDigits(ZeroPad(n, w)) == n
  {
    if w > 0 {
      var r := ZeroPad(n, w);
      assert r[..|r| - 1] == ZeroPad(n / 10, w - 1);
      ParseZeroPad(n / 10, w - 1);
    }
  }

  /** The lower-case hexadecimal digit for `d`. */
  function HexChar(d: nat): char
    requires d < 16
  {
    "0123456789abcdef"[d]
  }

  /** `n` in lower-case hexadecimal without leading zeros. */
  function Hex(n: nat): (r: string)
    ensures |r| >= 1
    ensures n >= 16 ==> |r| >= 2
  {
    if n < 16 then [HexChar(n)] else Hex(n / 16) + [HexChar(n % 16)]
  }

  /** Distinct hexadecimal digits stay distinct when upper-cased. */
  lemma UpperHexCharInjective(x: nat, y: nat)
    requires x < 16 && y < 16 && UpperChar(HexChar(x)) == UpperChar(HexChar(y))
    ensures x == y
  {
  }

  /** Distinct numbers have distinct upper-cased hexadecimal renderings. */
  lemma {:induction false} UpperHexInjective(a: nat, b: nat)
    requires Upper(Hex(a)) == Upper(Hex(b))
    ensures a == b
  {
    var ha, hb := Hex(a), Hex(b);
    if a >= 16 && b >= 16 {
      HexLast(a);
      HexLast(b);
      assert UpperChar(ha[|ha| - 1]) == UpperChar(hb[|hb| - 1]);
      UpperHexCharInjective(a % 16, b % 16);
      UpperAppend(Hex(a / 16), [HexChar(a % 16)]);
      UpperAppend(Hex(b / 16), [HexChar(b % 16)]);
      assert Upper(Hex(a / 16)) == Upper(ha)[..|ha| - 1];
      assert Upper(Hex(b / 16)) == Upper(hb)[..|hb| - 1];
      UpperHexInjective(a / 16, b / 16);
      assert a == 16 * (a / 16) + a % 16 && b == 16 * (b / 16) + b % 16;
    } else if a < 16 && b < 16 {
      assert ha == [HexChar(a)] && hb == [HexChar(b)];
      assert Upper(ha)[0] == UpperChar(HexChar(a)) && Upper(hb)[0] == UpperChar(HexChar(b));
      UpperHexCharInjective(a, b);
    } else {
      assert false;
    }
  }

  /** The last hexadecimal digit of `n` is that of `n % 16`. */
  lemma HexLast(n: nat)
    ensures Hex(n)[|Hex(n)| - 1] == HexChar(n % 16)
  {
    if n < 16 {
      assert n % 16 == n;
    }
  }
}
