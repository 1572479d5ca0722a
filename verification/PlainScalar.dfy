/** Plain scalars of YAML 1.2.2: their characters (sections 5.1 and 7.3.3) and the types that the core schema gives them
    (section 10.3.2). */
module PlainScalars {
  import opened Texts

  predicate IsBlank(c: char) { c == ' ' || c == '\t' }

  /** Printable, and neither white space nor a line break nor a byte order mark. */
  predicate IsPlainChar(c: char) {
    || '!' <= c <= '~' || c == '\U{85}' || '\U{A0}' <= c <= '\U{D7FF}'
    || ('\U{E000}' <= c <= '\U{FFFD}' && c != '\U{FEFF}') || c >= '\U{10000}'
  }

  const INDICATORS := "-?:,[]{}#&*!|>'\"%@`"

  predicate PlainAt(s: string, i: nat)
    requires i < |s|
  {
    if s[i] == ':' then i + 1 < |s| && IsPlainChar(s[i + 1])
    else if s[i] == '#' then i > 0 && IsPlainChar(s[i - 1])
    else if IsBlank(s[i]) then 0 < i < |s| - 1
    else IsPlainChar(s[i])
  }

  /** A plain scalar on one line, outside of flow collections. */
  predicate IsPlain(s: string) {
    && s != ""
    && (s[0] in INDICATORS ==> s[0] in "-?:" && |s| > 1 && IsPlainChar(s[1]))
    && forall i :: 0 <= i < |s| ==> PlainAt(s, i)
  }

  // Types of the core schema

  predicate IsDigit(c: char) { '0' <= c <= '9' }

  predicate IsHexDigit(c: char) { IsDigit(c) || 'a' <= c <= 'f' || 'A' <= c <= 'F' }

  function DigitCount(s: string): (count: nat)
    ensures count <= |s|
  {
    if s != "" && IsDigit(s[0]) then 1 + DigitCount(s[1..]) else 0
  }

  function WithoutSign(s: string): string {
    if s != "" && s[0] in "+-" then s[1..] else s
  }

  predicate IsExponent(s: string) {
    s == "" || (s[0] in "eE" && var power := WithoutSign(s[1..]); power != "" && DigitCount(power) == |power|)
  }

  /** Digits with or without a fraction and an exponent. */
  predicate IsDecimal(s: string) {
    var whole := DigitCount(s);
    if whole < |s| && s[whole] == '.' then
      var fraction := DigitCount(s[whole + 1..]);
      whole + fraction > 0 && IsExponent(s[whole + 1 + fraction..])
    else whole > 0 && IsExponent(s[whole..])
  }

  predicate IsNumber(s: string) {
    || IsDecimal(WithoutSign(s))
    || (|s| > 2 && s[..2] == "0o" && forall i :: 2 <= i < |s| ==> '0' <= s[i] <= '7')
    || (|s| > 2 && s[..2] == "0x" && forall i :: 2 <= i < |s| ==> IsHexDigit(s[i]))
    || WithoutSign(s) in [".inf", ".Inf", ".INF"] || s in [".nan", ".NaN", ".NAN"]
  }

  const WORDS := ["null", "Null", "NULL", "true", "True", "TRUE", "false", "False", "FALSE"]

  /** Anything but null, a boolean or a number. */
  predicate IsString(s: string) {
    s != "" && s != "~" && s !in WORDS && !IsNumber(s)
  }

  /** A one-line text that stands for itself when it is written without quotes. */
  predicate PlainString(s: string) {
    IsPlain(s) && IsString(s)
  }

  /** A key on the line of its value has at most 1024 characters. */
  const LONGEST_KEY := 1024

  predicate KeyReads(key: string) {
    |key| <= LONGEST_KEY && IsString(key)
  }

  lemma PlainHasNoBreak(s: string)
    requires IsPlain(s)
    ensures forall c :: c in s ==> !IsBreak(c)
  {
    forall c | c in s ensures !IsBreak(c) {
      var i :| 0 <= i < |s| && s[i] == c;
      assert PlainAt(s, i);
    }
  }
}
