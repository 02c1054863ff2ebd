/** `validateOperatorInput`, the middleware in routes/operators.js that
    screens an operator registration before it reaches the database. */
module Validation {

  const MissingFields := "Please enter all fields"
  const BadEmail := "Please enter a valid email"
  const ShortPassword := "Password must be at least 6 characters"
  const MinPasswordLength: nat := 6

  /** The middleware either answers with a status and a message, or calls
      `next()` and answers nothing. */
  datatype Verdict = Next | Reject(status: nat, message: string)

  /** The class `\s` of a JavaScript regular expression: the ECMAScript
      white-space and line-terminator characters. */
  predicate IsSpace(c: char) {
    || c == '\t' || c == '\n' || c == '\U{000B}' || c == '\U{000C}' || c == '\r' || c == ' '
    || c == '\U{00A0}' || c == '\U{1680}' || ('\U{2000}' <= c <= '\U{200A}')
    || c == '\U{2028}' || c == '\U{2029}' || c == '\U{202F}' || c == '\U{205F}'
    || c == '\U{3000}' || c == '\U{FEFF}'
  }

  /** The class `[^\s@]`. */
  predicate Plain(c: char) {
    !IsSpace(c) && c != '@'
  }

  /** `[^\s@]+`. */
  ghost predicate Segment(s: string) {
    |s| > 0 && forall i :: 0 <= i < |s| ==> Plain(s[i])
  }

  /** `^[^\s@]+@[^\s@]+\.[^\s@]+$`, read as the regular expression reads:
      three non-empty segments, joined by an `@` and a `.`. */
  ghost predicate EmailPattern(s: string) {
    exists at, dot :: 0 < at && at + 1 < dot < |s| - 1 && s[at] == '@' && s[dot] == '.' &&
      Segment(s[..at]) && Segment(s[at + 1..dot]) && Segment(s[dot + 1..])
  }

  /** The same language described by its consequences: no white space,
      exactly one `@` with something before it, and a `.` after the `@`
      that is neither the first nor the last character of the domain. */
  ghost predicate EmailShape(s: string) {
    && (forall i :: 0 <= i < |s| ==> !IsSpace(s[i]))
    && exists at :: 0 < at < |s| && s[at] == '@'
         && (forall i :: 0 <= i < |s| && i != at ==> s[i] != '@')
         && exists dot :: at + 1 < dot < |s| - 1 && s[dot] == '.'
  }

  lemma EmailPatternMeaning(s: string)
    ensures EmailPattern(s) <==> EmailShape(s)
  {
    if EmailPattern(s) {
      PatternHasShape(s);
    }
    if EmailShape(s) {
      ShapeMatchesPattern(s);
    }
  }

  lemma PatternHasShape(s: string)
    requires EmailPattern(s)
    ensures EmailShape(s)
  {
    var at, dot :| 0 < at && at + 1 < dot < |s| - 1 && s[at] == '@' && s[dot] == '.' &&
      Segment(s[..at]) && Segment(s[at + 1..dot]) && Segment(s[dot + 1..]);
    forall i | 0 <= i < |s|
      ensures !IsSpace(s[i]) && (i != at ==> s[i] != '@')
    {
      if i < at {
        assert s[..at][i] == s[i];
      } else if at < i < dot {
        assert s[at + 1..dot][i - at - 1] == s[i];
      } else if dot < i {
        assert s[dot + 1..][i - dot - 1] == s[i];
      }
    }
    assert at + 1 < dot < |s| - 1 && s[dot] == '.';
  }

  lemma ShapeMatchesPattern(s: string)
    requires EmailShape(s)
    ensures EmailPattern(s)
  {
    var at :| 0 < at < |s| && s[at] == '@'
       && (forall i :: 0 <= i < |s| && i != at ==> s[i] != '@')
       && exists dot :: at + 1 < dot < |s| - 1 && s[dot] == '.';
    var dot :| at + 1 < dot < |s| - 1 && s[dot] == '.';
    assert Segment(s[..at]);
    assert Segment(s[at + 1..dot]);
    assert Segment(s[dot + 1..]);
  }

  /** Decides the email pattern in one left-to-right pass. */
  method IsValidEmail(s: string) returns (ok: bool)
    ensures ok <==> EmailPattern(s)
  {
    var space := false;
    var ats := 0;
    var at := 0;
    var dotSeen := false;
    for i := 0 to |s|
      invariant space <==> exists j :: 0 <= j < i && IsSpace(s[j])
      invariant ats <= 2
      invariant ats == 0 <==> forall j :: 0 <= j < i ==> s[j] != '@'
      invariant ats == 1 ==> at < i && s[at] == '@' && forall j :: 0 <= j < i && j != at ==> s[j] != '@'
      invariant ats == 2 ==> exists j, k :: 0 <= j < k < i && s[j] == '@' && s[k] == '@'
      invariant ats == 1 ==> (dotSeen <==> exists d :: at + 1 < d < i && d < |s| - 1 && s[d] == '.')
    {
      if IsSpace(s[i]) {
        space := true;
      } else if s[i] == '@' {
        if ats == 1 {
          assert s[at] == '@' && at < i;
        }
        ats := if ats == 0 then 1 else 2;
        at := i;
        dotSeen := false;
      } else if s[i] == '.' && at + 1 < i < |s| - 1 {
        dotSeen := true;
      }
    }
    ok := !space && ats == 1 && at > 0 && dotSeen;
    EmailPatternMeaning(s);
  }

  /** JavaScript's `.length`: UTF-16 code units, so a character outside
      the Basic Multilingual Plane counts twice. */
  function Utf16Length(s: string): (n: nat)
    ensures |s| <= n <= 2 * |s|
  {
    if s == [] then 0 else (if s[0] as int > 0xFFFF then 2 else 1) + Utf16Length(s[1..])
  }

  /** The middleware on the body fields `username`, `email`, `password`
      ("" for a missing one): the first failing check alone answers. */
  method ValidateOperatorInput(username: string, email: string, password: string) returns (v: Verdict)
    ensures username == "" || email == "" || password == "" ==> v == Reject(400, MissingFields)
    ensures username != "" && email != "" && password != "" && !EmailPattern(email) ==>
              v == Reject(400, BadEmail)
    ensures (username != "" && email != "" && password != "" && EmailPattern(email) &&
             Utf16Length(password) < MinPasswordLength) ==> v == Reject(400, ShortPassword)
    ensures v == Next <==>
              username != "" && email != "" && password != "" && EmailPattern(email) &&
              Utf16Length(password) >= MinPasswordLength
  {
    if username == "" || email == "" || password == "" {
      return Reject(400, MissingFields);
    }
    var ok := IsValidEmail(email);
    if !ok {
      return Reject(400, BadEmail);
    }
    if Utf16Length(password) < MinPasswordLength {
      return Reject(400, ShortPassword);
    }
    return Next;
  }

  /** Six characters always meet the minimum; five characters of the
      Basic Multilingual Plane never do. */
  lemma PasswordBoundary(p: string)
    ensures |p| >= MinPasswordLength ==> Utf16Length(p) >= MinPasswordLength
    ensures |p| == 5 && (forall i :: 0 <= i < |p| ==> p[i] as int <= 0xFFFF) ==> Utf16Length(p) < MinPasswordLength
  {
    if |p| == 5 && (forall i :: 0 <= i < |p| ==> p[i] as int <= 0xFFFF) {
      assert Utf16Length(p) == 1 + Utf16Length(p[1..]);
      assert Utf16Length(p[1..]) == 1 + Utf16Length(p[2..]);
      assert Utf16Length(p[2..]) == 1 + Utf16Length(p[3..]);
      assert Utf16Length(p[3..]) == 1 + Utf16Length(p[4..]);
      assert Utf16Length(p[4..]) == 1 + Utf16Length(p[5..]);
    }
  }
}
