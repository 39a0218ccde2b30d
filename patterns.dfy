/**
  The regular expressions the quote and contact forms spell out, written as
  predicates. Each comment gives the expression; `^` and `$` anchor the whole
  string (no multiline flag).
 */
module Patterns {
  import opened JsText

  /** `[\w.%+-]`: a character of the part before `@`. */
  predicate IsLocalChar(c: char) { IsWordChar(c) || c == '.' || c == '%' || c == '+' || c == '-' }

  /** `[a-zA-Z0-9.-]`: a character of the domain. */
  predicate IsDomainChar(c: char) { IsAsciiLetter(c) || IsDigit(c) || c == '.' || c == '-' }

  /** `[0-9\s-]`: a character of a phone number as the schemas accept it. */
  predicate IsPhoneChar(c: char) { IsDigit(c) || IsSpace(c) || c == '-' }

  /** `[a-zA-Z0-9.-]+\.[a-zA-Z]{2,}`: domain characters, with a dot after at least one of
      them that is followed by two or more letters up to the end. */
  predicate DomainMatches(d: string) {
    && (forall i :: 0 <= i < |d| ==> IsDomainChar(d[i]))
    && exists k :: 1 <= k && k + 2 < |d| && d[k] == '.' && forall j :: k < j < |d| ==> IsAsciiLetter(d[j])
  }

  /** `^[\w.%+-]+@[a-zA-Z0-9.-]+\.[a-zA-Z]{2,}$` (neither side admits `@`, so the `@` splits the string). */
  predicate EmailMatches(s: string) {
    exists k :: 1 <= k < |s| && s[k] == '@'
      && (forall i :: 0 <= i < k ==> IsLocalChar(s[i]))
      && DomainMatches(s[k + 1..])
  }

  /** The string without one leading `+`: what follows `^\+?` when the rest cannot match `+`. */
  function AfterOptionalPlus(s: string): string {
    if s != [] && s[0] == '+' then s[1..] else s
  }

  /** `^\+?\d{7,15}$`. */
  predicate DigitsPhoneMatches(s: string) {
    var body := AfterOptionalPlus(s);
    7 <= |body| <= 15 && forall i :: 0 <= i < |body| ==> IsDigit(body[i])
  }

  /** `^\+?[0-9\s-]{8,}$`. */
  predicate SchemaPhoneMatches(s: string) {
    var body := AfterOptionalPlus(s);
    |body| >= 8 && forall i :: 0 <= i < |body| ==> IsPhoneChar(body[i])
  }

  /** `^\+?[0-9\s-]*$`. */
  predicate PhoneCharsMatch(s: string) {
    var body := AfterOptionalPlus(s);
    forall i :: 0 <= i < |body| ==> IsPhoneChar(body[i])
  }

  /** An address the e-mail pattern accepts is not blank: its `@` is not white space. */
  lemma EmailMatchIsNotBlank(s: string)
    requires EmailMatches(s)
    ensures !IsBlank(s)
  {
    var k :| 1 <= k < |s| && s[k] == '@';
    BlankIffAllSpace(s);
  }

  /** A phone the digit pattern accepts is not blank: it holds at least seven digits. */
  lemma DigitsPhoneIsNotBlank(s: string)
    requires DigitsPhoneMatches(s)
    ensures !IsBlank(s)
  {
    var body := AfterOptionalPlus(s);
    assert IsDigit(body[0]);
    assert body[0] in s;
    BlankIffAllSpace(s);
  }

  /** What the schema phone pattern accepts, the character pre-check of the contact page accepts too. */
  lemma SchemaPhoneHasPhoneChars(s: string)
    requires SchemaPhoneMatches(s)
    ensures PhoneCharsMatch(s)
  {
  }
}
