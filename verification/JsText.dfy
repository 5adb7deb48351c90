/** The few JavaScript string operations the modelled code relies on. */
module JsText {
  import opened Options

  /** WhiteSpace and LineTerminator of ECMA-262, which `trim` removes. */
  predicate IsWhiteSpace(c: char) {
    || '\t' <= c <= '\r'
    || c in [' ', '\U{00A0}', '\U{1680}', '\U{2028}', '\U{2029}', '\U{202F}', '\U{205F}', '\U{3000}', '\U{FEFF}']
    || '\U{2000}' <= c <= '\U{200A}'
  }

  function TrimStart(s: string): string {
    if s != "" && IsWhiteSpace(s[0]) then TrimStart(s[1..]) else s
  }

  function TrimEnd(s: string): string {
    if s != "" && IsWhiteSpace(s[|s| - 1]) then TrimEnd(s[..|s| - 1]) else s
  }

  function Trim(s: string): string {
    TrimEnd(TrimStart(s))
  }

  /** The guard `text.trim().length > 0`. */
  predicate HasText(s: string) {
    |Trim(s)| > 0
  }

  ghost predicate NonBlank(s: string) {
    exists i :: 0 <= i < |s| && !IsWhiteSpace(s[i])
  }

  lemma {:induction false} TrimStartKeepsText(s: string)
    ensures NonBlank(TrimStart(s)) <==> NonBlank(s)
  {
    if s != "" && IsWhiteSpace(s[0]) {
      TrimStartKeepsText(s[1..]);
      if i :| 0 <= i < |s| && !IsWhiteSpace(s[i]) {
        assert s[1..][i - 1] == s[i];
      }
    }
  }

  lemma {:induction false} TrimEndKeepsText(s: string)
    ensures TrimEnd(s) != "" <==> NonBlank(s)
  {
    if s != "" {
      var n := |s| - 1;
      if IsWhiteSpace(s[n]) {
        TrimEndKeepsText(s[..n]);
        assert forall i :: 0 <= i < n ==> s[..n][i] == s[i];
        if i :| 0 <= i < |s| && !IsWhiteSpace(s[i]) {
          assert i < n && !IsWhiteSpace(s[..n][i]);
        }
      } else {
        assert !IsWhiteSpace(s[n]);
      }
    }
  }

  /** The guard on the trimmed text asks for a character that is not white space. */
  lemma TrimLeavesText(s: string)
    ensures HasText(s) <==> NonBlank(s)
  {
    TrimStartKeepsText(s);
    TrimEndKeepsText(TrimStart(s));
  }

  /** `a || b` on an optional string: the empty string is falsy. */
  function OrElse(a: Option<string>, b: string): string {
    if a.Some? && a.value != "" then a.value else b
  }

  predicate StartsWith(text: string, part: string) {
    |part| <= |text| && text[..|part|] == part
  }

  predicate Includes(text: string, part: string) {
    exists i | 0 <= i <= |text| :: StartsWith(text[i..], part)
  }

  /** `toLowerCase`, exact for every character whose lower case is an ASCII letter. */
  function LowerChar(c: char): char {
    if 'A' <= c <= 'Z' then c - 'A' + 'a' else if c == '\U{212A}' then 'k' else c
  }

  function ToLowerCase(s: string): string {
    seq(|s|, i requires 0 <= i < |s| => LowerChar(s[i]))
  }

  /** Decimal text of a number, as in a template literal. */
  function Decimal(n: int): string {
    if n < 0 then "-" + Digits(-n) else Digits(n)
  }

  function Digits(n: nat): string {
    if n < 10 then ["0123456789"[n]] else Digits(n / 10) + ["0123456789"[n % 10]]
  }

  /** c is d or, for a letter, its upper case; the Kelvin sign counts as an upper-case k. */
  predicate IsCaseOf(c: char, d: char) {
    || (c == d && !('A' <= c <= 'Z') && c != '\U{212A}')
    || ('a' <= d <= 'z' && c == d - 'a' + 'A')
    || (d == 'k' && c == '\U{212A}')
  }

  /** The text holds the part, whatever the case of its letters. */
  ghost predicate Mentions(text: string, part: string) {
    exists i :: 0 <= i <= |text| - |part| && MentionsAt(text, part, i)
  }

  predicate MentionsAt(text: string, part: string, i: nat)
    requires i + |part| <= |text|
  {
    forall j :: 0 <= j < |part| ==> IsCaseOf(text[i + j], part[j])
  }

  /** Looking for a part in the lower-cased text is looking for it whatever the case. */
  lemma LowerCaseIgnoresCase(text: string, part: string)
    ensures Includes(ToLowerCase(text), part) <==> Mentions(text, part)
  {
    var lower := ToLowerCase(text);
    forall i | 0 <= i <= |text| - |part| ensures StartsWith(lower[i..], part) <==> MentionsAt(text, part, i) {
      assert StartsWith(lower[i..], part) ==> forall j :: 0 <= j < |part| ==> lower[i..][..|part|][j] == lower[i + j];
      assert forall j :: 0 <= j < |part| ==> (IsCaseOf(text[i + j], part[j]) <==> lower[i..][j] == part[j]);
      assert MentionsAt(text, part, i) ==> lower[i..][..|part|] == part;
    }
    if Includes(lower, part) {
      var i :| 0 <= i <= |lower| && StartsWith(lower[i..], part);
      assert MentionsAt(text, part, i);
    }
  }

  /** The number a decimal text stands for. */
  function ReadDigits(s: string): int {
    if s == "" then 0 else 10 * ReadDigits(s[..|s| - 1]) + (s[|s| - 1] as int - '0' as int)
  }

  lemma {:induction false} DigitsReadBack(n: nat)
    ensures Digits(n) != "" && ReadDigits(Digits(n)) == n
    ensures forall i :: 0 <= i < |Digits(n)| ==> '0' <= Digits(n)[i] <= '9'
    ensures Digits(n)[0] == '0' ==> n == 0
  {
    if n >= 10 {
      DigitsReadBack(n / 10);
      assert Digits(n)[..|Digits(n)| - 1] == Digits(n / 10);
    } else {
      assert Digits(n)[..0] == "";
    }
  }

  /** A number is written in digits that read back as it, without leading zeros, after a minus sign if negative. */
  lemma DecimalReadsBack(n: int)
    ensures if n < 0 then Decimal(n)[0] == '-' && ReadDigits(Decimal(n)[1..]) == -n && Decimal(n)[1] != '0'
            else ReadDigits(Decimal(n)) == n && (Decimal(n)[0] == '0' <==> n == 0)
  {
    DigitsReadBack(if n < 0 then -n else n);
  }
}
