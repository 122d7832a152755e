/** The string operations of Rust's standard library that the model uses. Positions count characters, not bytes; every
  * delimiter searched for is found at the same place either way. */
module Text {
  import opened Wrappers

  predicate At(text: string, needle: string, i: nat) {
    i + |needle| <= |text| && text[i..i + |needle|] == needle
  }

  /** `str::find`: the first position where `needle` occurs. */
  function Find(text: string, needle: string): (r: Option<nat>)
    ensures r.Some? ==> At(text, needle, r.value) && forall j: nat | j < r.value :: !At(text, needle, j)
    ensures r.None? ==> forall j: nat :: !At(text, needle, j)
  {
    FindFrom(text, needle, 0)
  }

  function FindFrom(text: string, needle: string, i: nat): (r: Option<nat>)
    ensures r.Some? ==> i <= r.value && At(text, needle, r.value)
    ensures r.Some? ==> forall j: nat | i <= j < r.value :: !At(text, needle, j)
    ensures r.None? ==> forall j: nat | i <= j :: !At(text, needle, j)
    decreases |text| - i
  {
    if At(text, needle, i) then Some(i)
    else if |text| <= i then None
    else FindFrom(text, needle, i + 1)
  }

  /** `char::is_whitespace`: the Unicode property White_Space. */
  predicate IsWhitespace(c: char) {
    var n := c as int;
    || 0x9 <= n <= 0xD || n == 0x20 || n == 0x85 || n == 0xA0 || n == 0x1680 || 0x2000 <= n <= 0x200A
    || n == 0x2028 || n == 0x2029 || n == 0x202F || n == 0x205F || n == 0x3000
  }

  function TrimStart(text: string): string {
    if text != "" && IsWhitespace(text[0]) then TrimStart(text[1..]) else text
  }

  function TrimEnd(text: string): string {
    if text != "" && IsWhitespace(text[|text| - 1]) then TrimEnd(text[..|text| - 1]) else text
  }

  function Trim(text: string): string {
    TrimEnd(TrimStart(text))
  }

  predicate Blank(text: string) {
    forall i | 0 <= i < |text| :: IsWhitespace(text[i])
  }

  /** Neither end is white space. */
  predicate Trimmed(text: string) {
    text == "" || (!IsWhitespace(text[0]) && !IsWhitespace(text[|text| - 1]))
  }

  lemma {:induction false} TrimStartOfBlank(blank: string, text: string)
    requires Blank(blank) && (text == "" || !IsWhitespace(text[0]))
    ensures TrimStart(blank + text) == text
  {
    if blank == "" {
      assert blank + text == text;
    } else {
      assert (blank + text)[1..] == blank[1..] + text && (blank + text)[0] == blank[0];
      hide IsWhitespace;
      TrimStartOfBlank(blank[1..], text);
    }
  }

  lemma {:induction false} TrimEndOfBlank(text: string, blank: string)
    requires Blank(blank) && (text == "" || !IsWhitespace(text[|text| - 1]))
    ensures TrimEnd(text + blank) == text
  {
    if blank == "" {
      assert text + blank == text;
    } else {
      var n := |blank| - 1;
      assert (text + blank)[..|text + blank| - 1] == text + blank[..n];
      assert (text + blank)[|text + blank| - 1] == blank[n];
      hide IsWhitespace;
      TrimEndOfBlank(text, blank[..n]);
    }
  }

  /** Trimming takes the white space off both ends and nothing else. */
  lemma TrimOfBlanks(before: string, text: string, after: string)
    requires Blank(before) && Blank(after) && Trimmed(text)
    ensures Trim(before + text + after) == text
  {
    if text == "" {
      assert before + text + after == (before + after) + "";
      TrimStartOfBlank(before + after, "");
    } else {
      Regroup(before, text, after);
      TrimStartOfBlank(before, text + after);
      TrimEndOfBlank(text, after);
    }
  }

  /** `str::lines`: split at line feeds, drop one carriage return before each, drop an empty last line. */
  function Lines(text: string): seq<string>
    decreases |text|
  {
    if text == "" then []
    else match Find(text, "\n")
      case Some(i) => [WithoutCarriageReturn(text[..i])] + Lines(text[i + 1..])
      case None => [text]
  }

  function WithoutCarriageReturn(line: string): string {
    if line != "" && line[|line| - 1] == '\r' then line[..|line| - 1] else line
  }

  /** `[str]::concat`. */
  function Concat(texts: seq<string>): string {
    if texts == [] then "" else texts[0] + Concat(texts[1..])
  }

  lemma {:induction false} ConcatAppend(a: seq<string>, b: seq<string>)
    ensures Concat(a + b) == Concat(a) + Concat(b)
  {
    if a == [] {
      assert a + b == b;
    } else {
      ConcatAppend(a[1..], b);
      assert (a + b)[1..] == a[1..] + b && (a + b)[0] == a[0];
      assert a[0] + (Concat(a[1..]) + Concat(b)) == a[0] + Concat(a[1..]) + Concat(b);
    }
  }

  function Decimal(n: nat): string {
    var digit := [(n % 10 + '0' as int) as char];
    if n < 10 then digit else Decimal(n / 10) + digit
  }

  /** The number that decimal digits stand for. */
  function Number(digits: string): int {
    if digits == "" then 0
    else Number(digits[..|digits| - 1]) * 10 + (digits[|digits| - 1] as int - '0' as int)
  }

  lemma {:induction false} DecimalReads(n: nat)
    ensures Number(Decimal(n)) == n
  {
    var digit := [(n % 10 + '0' as int) as char];
    assert digit[..0] == "" && Number(digit) == n % 10;
    if n >= 10 {
      DecimalReads(n / 10);
      var front := Decimal(n / 10);
      assert (front + digit)[..|front + digit| - 1] == front;
    }
  }
}
