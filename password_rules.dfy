/** The text rules the account forms share: the strong-password pattern
    `^(?=.*[a-z])(?=.*[A-Z])(?=.*\d)(?=.*[@#$!%*?&])` with a length of at least
    eight, and the phone pattern `^[+]?[\d\s\-()]{10,}$`. */
module PasswordRules {
  import JsString
  import JsNumber

  /** The characters `.` does not match. */
  predicate IsLineBreak(c: char) {
    c == '\n' || c == '\r' || c == '\U{2028}' || c == '\U{2029}'
  }

  /** The text before the first line break: what `^.*` can see. */
  function LineHead(s: string): (r: string)
    ensures r <= s
    ensures forall i :: 0 <= i < |r| ==> !IsLineBreak(r[i])
    ensures |r| < |s| ==> IsLineBreak(s[|r|])
  {
    if s == [] || IsLineBreak(s[0]) then [] else [s[0]] + LineHead(s[1..])
  }

  predicate IsSpecial(c: char) {
    c == '@' || c == '#' || c == '$' || c == '!' || c == '%' || c == '*' || c == '?' || c == '&'
  }

  predicate HasLower(s: string) { exists i | 0 <= i < |s| :: JsString.IsLower(s[i]) }
  predicate HasUpper(s: string) { exists i | 0 <= i < |s| :: JsString.IsUpper(s[i]) }
  predicate HasDigit(s: string) { exists i | 0 <= i < |s| :: JsNumber.IsDigit(s[i]) }
  predicate HasSpecial(s: string) { exists i | 0 <= i < |s| :: IsSpecial(s[i]) }

  /** The four look-aheads: each kind of character occurs on the first line. */
  predicate StrongPattern(s: string) {
    var h := LineHead(s);
    HasLower(h) && HasUpper(h) && HasDigit(h) && HasSpecial(h)
  }

  /** `min(8)` together with the pattern. */
  predicate StrongPassword(s: string)
    ensures StrongPassword(s) ==> HasLower(s) && HasUpper(s) && HasDigit(s) && HasSpecial(s)
  {
    if StrongPattern(s) then HeadKinds(s); |s| >= 8 else false
  }

  /** A kind of character on the first line occurs in the whole text. */
  lemma HeadKinds(s: string)
    requires StrongPattern(s)
    ensures HasLower(s) && HasUpper(s) && HasDigit(s) && HasSpecial(s)
  {
    var h := LineHead(s);
    assert forall i | 0 <= i < |h| :: h[i] == s[i];
  }

  lemma {:induction false} LineHeadPrefix(s: string, t: string)
    ensures LineHead(s) <= LineHead(s + t)
  {
    if s != [] && !IsLineBreak(s[0]) {
      assert (s + t)[1..] == s[1..] + t;
      LineHeadPrefix(s[1..], t);
    }
  }

  /** Typing more characters never makes a strong password weak. */
  lemma StrongExtends(s: string, t: string)
    requires StrongPassword(s)
    ensures StrongPassword(s + t)
  {
    assert StrongPattern(s);
    var h, h' := LineHead(s), LineHead(s + t);
    LineHeadPrefix(s, t);
    var a :| 0 <= a < |h| && JsString.IsLower(h[a]);
    var b :| 0 <= b < |h| && JsString.IsUpper(h[b]);
    var c :| 0 <= c < |h| && JsNumber.IsDigit(h[c]);
    var d :| 0 <= d < |h| && IsSpecial(h[d]);
    assert h'[a] == h[a] && h'[b] == h[b] && h'[c] == h[c] && h'[d] == h[d];
    assert HasLower(h') && HasUpper(h') && HasDigit(h') && HasSpecial(h');
    assert StrongPattern(s + t) && |s + t| >= 8;
  }

  lemma {:induction false} LineHeadWhole(s: string)
    requires forall i :: 0 <= i < |s| ==> !IsLineBreak(s[i])
    ensures LineHead(s) == s
  {
    if s != [] {
      LineHeadWhole(s[1..]);
    }
  }

  /** A typical password passes. */
  lemma StrongExample()
    ensures StrongPassword("Passw0rd!")
  {
    var p := "Passw0rd!";
    assert forall i | 0 <= i < |p| :: !IsLineBreak(p[i]);
    LineHeadWhole(p);
    StrongAt(p, 1, 0, 5, 8);
  }

  /** A first line holding each kind of character at some position passes. */
  lemma StrongAt(s: string, a: nat, b: nat, c: nat, d: nat)
    requires LineHead(s) == s && |s| >= 8
    requires a < |s| && b < |s| && c < |s| && d < |s|
    requires JsString.IsLower(s[a]) && JsString.IsUpper(s[b]) && JsNumber.IsDigit(s[c]) && IsSpecial(s[d])
    ensures StrongPassword(s)
  {
  }

  /** Without an upper-case letter the pattern fails. */
  lemma NoUpperExample()
    ensures !StrongPassword("password1!")
  {
    var q := "password1!";
    assert forall i | 0 <= i < |q| :: !JsString.IsUpper(q[i]);
    NoUpperRejected(q);
  }

  /** A text without an upper-case letter fails the pattern. */
  lemma NoUpperRejected(s: string)
    requires forall i | 0 <= i < |s| :: !JsString.IsUpper(s[i])
    ensures !StrongPattern(s)
  {
    var h := LineHead(s);
    assert forall i | 0 <= i < |h| :: h[i] == s[i];
  }

  /** A special character after a line break is not seen. */
  lemma LineBreakExample()
    ensures !StrongPassword("Passw0rd\n!")
  {
    var h := "Passw0rd";
    LineHeadStops(h, "\n!");
    assert "Passw0rd\n!" == h + "\n!";
    assert forall i | 0 <= i < |h| :: !IsSpecial(h[i]);
  }

  lemma {:induction false} LineHeadStops(h: string, t: string)
    requires forall i :: 0 <= i < |h| ==> !IsLineBreak(h[i])
    requires t != [] && IsLineBreak(t[0])
    ensures LineHead(h + t) == h
  {
    if h != [] {
      assert (h + t)[1..] == h[1..] + t;
      LineHeadStops(h[1..], t);
    } else {
      assert h + t == t;
    }
  }

  /** `\s`: the white-space characters of JavaScript regular expressions. */
  predicate IsSpace(c: char) {
    c == ' ' || c == '\t' || c == '\n' || c == '\r' || c == '\U{000B}' || c == '\U{000C}' ||
    c == '\U{00A0}' || c == '\U{1680}' || ('\U{2000}' <= c <= '\U{200A}') ||
    c == '\U{2028}' || c == '\U{2029}' || c == '\U{202F}' || c == '\U{205F}' ||
    c == '\U{3000}' || c == '\U{FEFF}'
  }

  predicate IsPhoneChar(c: char) {
    JsNumber.IsDigit(c) || IsSpace(c) || c == '-' || c == '(' || c == ')'
  }

  /** An optional "+" and then ten or more digits, spaces, hyphens or
      parentheses. */
  predicate PhonePattern(s: string) {
    PhoneBody(if |s| > 0 && s[0] == '+' then s[1..] else s)
  }

  /** Ten or more digits, spaces, hyphens or parentheses. */
  predicate PhoneBody(body: string) {
    |body| >= 10 && forall i | 0 <= i < |body| :: IsPhoneChar(body[i])
  }

  /** A number with a country code and spaces passes. */
  lemma PhoneExample()
    ensures PhonePattern("+852 1234 5678")
  {
    var p := "+852 1234 5678";
    assert p[1..] == "852 1234 5678";
    assert forall i | 0 <= i < |p[1..]| :: IsPhoneChar(p[1..][i]);
  }

  /** A character other than a digit, a space, a hyphen or a parenthesis after
      the first position fails the pattern. */
  lemma PhoneRejects(s: string, i: nat)
    requires 0 < i < |s| && !IsPhoneChar(s[i])
    ensures !PhonePattern(s)
  {
    var body := if |s| > 0 && s[0] == '+' then s[1..] else s;
    var j := if s[0] == '+' then i - 1 else i;
    assert body[j] == s[i];
  }

  /** A "+" counts only at the start. */
  lemma InnerPlusRejected()
    ensures !PhonePattern("1234+567890")
  {
    var s := "1234+567890";
    assert s[4] == '+';
    PhoneRejects(s, 4);
  }
}
