/** The checks the sign-in and sign-up forms share: the e-mail pattern
    `^[^\s@]+@[^\s@]+\.[^\s@]+$`, the password rules, and the choice of the
    message shown when the call behind the form fails. */
module Validation {
  import opened Text

  const PASSWORD_REQUIRED := "Please enter your password!"
  const PASSWORD_TOO_SHORT := "Password must be at least 6 characters!"
  const MIN_PASSWORD_LENGTH := 6

  /** The class `[^\s@]`. */
  predicate Plain(c: char) {
    !IsSpace(c) && c != '@'
  }

  predicate AllPlain(s: string) {
    forall k :: 0 <= k < |s| ==> Plain(s[k])
  }

  /** What the pattern matches, read off it: a non-empty plain run, `@`, a
      non-empty plain run, `.`, and a non-empty plain run, covering the whole
      text. */
  ghost predicate PatternMatches(s: string) {
    exists i, j :: 0 < i && i + 1 < j && j + 1 < |s| &&
      AllPlain(s[..i]) && s[i] == '@' && AllPlain(s[i + 1..j]) && s[j] == '.' && AllPlain(s[j + 1..])
  }

  /** The pattern's test, computed from the first `@`. */
  predicate IsEmail(s: string) {
    '@' in s &&
    var i := IndexOf(s, '@');
    0 < i && i + 3 <= |s| && AllPlain(s[..i]) && AllPlain(s[i + 1..]) && '.' in s[i + 2..|s| - 1]
  }

  lemma AllPlainSlice(s: string, a: nat, b: nat, c: nat, d: nat)
    requires a <= c <= d <= b <= |s| && AllPlain(s[a..b])
    ensures AllPlain(s[c..d])
  {
    forall k | 0 <= k < d - c ensures Plain(s[c..d][k]) {
      assert s[c..d][k] == s[a..b][k + c - a];
    }
  }

  lemma AllPlainJoin(s: string, a: nat, j: nat, b: nat)
    requires a <= j < b <= |s| && AllPlain(s[a..j]) && Plain(s[j]) && AllPlain(s[j + 1..b])
    ensures AllPlain(s[a..b])
  {
    forall k | 0 <= k < b - a ensures Plain(s[a..b][k]) {
      if k < j - a {
        assert s[a..b][k] == s[a..j][k];
      } else if k > j - a {
        assert s[a..b][k] == s[j + 1..b][k - (j - a) - 1];
      }
    }
  }

  /** The computed test and the pattern agree on every text. */
  lemma IsEmailIffPattern(s: string)
    ensures IsEmail(s) <==> PatternMatches(s)
  {
    if IsEmail(s) {
      EmailMatchesPattern(s);
    }
    if PatternMatches(s) {
      var i, j :| 0 < i && i + 1 < j && j + 1 < |s| &&
        AllPlain(s[..i]) && s[i] == '@' && AllPlain(s[i + 1..j]) && s[j] == '.' && AllPlain(s[j + 1..]);
      PatternIsEmail(s, i, j);
    }
  }

  lemma EmailMatchesPattern(s: string)
    requires IsEmail(s)
    ensures PatternMatches(s)
  {
    var i := IndexOf(s, '@');
    var d := s[i + 2..|s| - 1];
    var j := i + 2 + IndexOf(d, '.');
    assert s[j] == d[j - (i + 2)];
    assert s[i + 1..] == s[i + 1..|s|];
    AllPlainSlice(s, i + 1, |s|, i + 1, j);
    AllPlainSlice(s, i + 1, |s|, j + 1, |s|);
    assert s[j + 1..] == s[j + 1..|s|];
  }

  lemma PatternIsEmail(s: string, i: nat, j: nat)
    requires 0 < i && i + 1 < j && j + 1 < |s|
    requires AllPlain(s[..i]) && s[i] == '@' && AllPlain(s[i + 1..j]) && s[j] == '.' && AllPlain(s[j + 1..])
    ensures IsEmail(s)
  {
    assert '@' !in s[..i] by {
      forall k | 0 <= k < i ensures s[..i][k] != '@' {
        assert Plain(s[..i][k]);
      }
    }
    assert IndexOf(s, '@') == i;
    assert s[j + 1..] == s[j + 1..|s|];
    AllPlainJoin(s, i + 1, j, |s|);
    assert s[i + 1..] == s[i + 1..|s|];
    assert s[i + 2..|s| - 1][j - (i + 2)] == '.';
  }

  /** The shape the pattern accepts, stated on the whole text: no white space,
      exactly one `@` that is not first, and a `.` after the character that
      follows the `@` and before the last character. */
  predicate EmailShape(s: string) {
    && (forall k :: 0 <= k < |s| ==> !IsSpace(s[k]))
    && exists i :: 0 < i < |s| && s[i] == '@' && (forall k :: 0 <= k < |s| && s[k] == '@' ==> k == i) &&
                   exists j :: i + 1 < j < |s| - 1 && s[j] == '.'
  }

  lemma EmailHasShape(s: string)
    requires IsEmail(s)
    ensures EmailShape(s)
  {
    var i := IndexOf(s, '@');
    forall k | 0 <= k < |s| ensures !IsSpace(s[k]) && (s[k] == '@' ==> k == i) {
      if k < i {
        assert Plain(s[..i][k]);
      } else if k > i {
        assert Plain(s[i + 1..][k - i - 1]);
      }
    }
    var d := s[i + 2..|s| - 1];
    var j := i + 2 + IndexOf(d, '.');
    assert s[j] == '.';
  }

  lemma ShapeIsEmail(s: string)
    requires EmailShape(s)
    ensures IsEmail(s)
  {
    var i :| 0 < i < |s| && s[i] == '@' && (forall k :: 0 <= k < |s| && s[k] == '@' ==> k == i) &&
             exists j :: i + 1 < j < |s| - 1 && s[j] == '.';
    var j :| i + 1 < j < |s| - 1 && s[j] == '.';
    assert IndexOf(s, '@') == i;
    forall k | 0 <= k < i ensures Plain(s[..i][k]) {
      assert s[..i][k] == s[k];
    }
    var after := s[i + 1..];
    forall k | 0 <= k < |after| ensures Plain(after[k]) {
      assert after[k] == s[k + i + 1];
    }
    assert s[i + 2..|s| - 1][j - (i + 2)] == '.';
  }

  /** The pattern's test holds exactly for texts of that shape. */
  lemma IsEmailShape(s: string)
    ensures IsEmail(s) <==> EmailShape(s)
  {
    if IsEmail(s) {
      EmailHasShape(s);
    }
    if EmailShape(s) {
      ShapeIsEmail(s);
    }
  }

  /** Two texts the pattern rejects: a missing dot after the `@`, and a space. */
  lemma RejectedEmails()
    ensures !IsEmail("a@b")
    ensures !IsEmail("a b@c.d")
    ensures IsEmail("a@b.c")
  {
    SpaceBeforeAtRejected();
    SimpleEmailAccepted();
  }

  lemma SpaceBeforeAtRejected()
    ensures !IsEmail("a b@c.d")
  {
    var s := "a b@c.d";
    assert s[1..][1..][1..] == "@c.d";
    assert IndexOf(s, '@') == 3;
    assert !Plain(s[..3][1]);
  }

  lemma SimpleEmailAccepted()
    ensures IsEmail("a@b.c")
  {
    var s := "a@b.c";
    assert IndexOf(s, '@') == 1;
    assert AllPlain(s[..1]) && AllPlain(s[2..]);
    assert s[3..4] == ".";
  }

  /** `s.length`: the number of UTF-16 code units, two for a character outside
      the Basic Multilingual Plane. */
  function Utf16Length(s: string): (n: nat)
    ensures |s| <= n <= 2 * |s|
  {
    if s == [] then 0
    else (if s[0] as int > 0xFFFF then 2 else 1) + Utf16Length(s[1..])
  }

  /** The password's error text; empty when it passes. */
  function PasswordError(password: string): (e: string)
    ensures e == "" <==> password != "" && Utf16Length(password) >= MIN_PASSWORD_LENGTH
    ensures password == "" ==> e == PASSWORD_REQUIRED
    ensures password != "" && Utf16Length(password) < MIN_PASSWORD_LENGTH ==> e == PASSWORD_TOO_SHORT
  {
    if password == "" then PASSWORD_REQUIRED
    else if Utf16Length(password) < MIN_PASSWORD_LENGTH then PASSWORD_TOO_SHORT
    else ""
  }

  /** Six characters always pass the length rule; three characters outside
      the Basic Multilingual Plane pass it too, though they are three
      characters. */
  lemma PasswordLengthCountsCodeUnits(password: string)
    ensures |password| >= MIN_PASSWORD_LENGTH ==> PasswordError(password) == ""
    ensures PasswordError("\U{1F600}\U{1F600}\U{1F600}") == ""
  {
  }

  /** What the call behind a form threw. */
  datatype Thrown =
    | WithResponse(message: string)   // an `Error` with a `response` field; `""` when it has no message
    | PlainError(message: string)     // any other `Error`
    | NotAnError                      // any other value

  /** The message shown for a failure: the server's message, else the error's
      own message, else `fallback`; an empty message counts as none. */
  function FailureMessage(e: Thrown, fallback: string): (m: string)
    ensures fallback != "" ==> m != ""
    ensures e.NotAnError? ==> m == fallback
    ensures !e.NotAnError? && e.message != "" ==> m == e.message
    ensures !e.NotAnError? && e.message == "" ==> m == fallback
  {
    match e
    case WithResponse(message) => if message != "" then message else fallback
    case PlainError(message) => if message != "" then message else fallback
    case NotAnError => fallback
  }
}
