/** The three input formats the registration dialog checks
    (messageHandler.js `isValidEmail`, `isValidPhoneNumber`, `isValidPIN`).
    Each is a JavaScript regular expression tested against the raw message text;
    here each is written as the split of the text that the expression describes. */
module Validation {
  import opened Strings

  /** `[a-zA-Z0-9._%+-]` */
  predicate IsLocalChar(c: char) {
    IsAsciiLetter(c) || IsDigit(c) || c == '.' || c == '_' || c == '%' || c == '+' || c == '-'
  }

  /** `[a-zA-Z0-9.-]` */
  predicate IsDomainChar(c: char) {
    IsAsciiLetter(c) || IsDigit(c) || c == '.' || c == '-'
  }

  /** The text splits as local `@` domain `.` tld at positions `at` and `dot`. */
  predicate EmailSplit(s: string, at: nat, dot: nat)
    requires at < dot < |s|
  {
    && 0 < at && s[at] == '@' && at + 1 < dot && s[dot] == '.' && dot + 2 < |s|
    && (forall k | 0 <= k < at :: IsLocalChar(s[k]))
    && (forall k | at < k < dot :: IsDomainChar(s[k]))
    && (forall k | dot < k < |s| :: IsAsciiLetter(s[k]))
  }

  /** `/^[a-zA-Z0-9._%+-]+@[a-zA-Z0-9.-]+\.[a-zA-Z]{2,}$/.test(s)` */
  predicate IsValidEmail(s: string) {
    exists at: nat, dot: nat | at < dot < |s| :: EmailSplit(s, at, dot)
  }

  /** `/^0[789][01]\d{8}$/.test(s)` */
  predicate IsValidPhoneNumber(s: string) {
    && |s| == 11 && s[0] == '0' && (s[1] == '7' || s[1] == '8' || s[1] == '9')
    && (s[2] == '0' || s[2] == '1')
    && (forall k | 3 <= k < 11 :: IsDigit(s[k]))
  }

  /** `/^\d{4,6}$/.test(s)` */
  predicate IsValidPIN(s: string) {
    4 <= |s| <= 6 && AllDigits(s)
  }

  /** Every character of a valid e-mail address other than its `@` is a
      local, domain or top-level-domain character. */
  lemma EmailCharClasses(s: string, at: nat, dot: nat, k: nat)
    requires at < dot < |s| && EmailSplit(s, at, dot)
    requires k < |s| && k != at
    ensures s[k] != '@' && !IsSpace(s[k])
  {
    if k < at {
      assert IsLocalChar(s[k]);
    } else if k < dot {
      assert IsDomainChar(s[k]);
    } else if k > dot {
      assert IsAsciiLetter(s[k]);
    }
  }

  /** A valid e-mail address has exactly one `@`. */
  lemma ValidEmailSingleAt(s: string)
    requires IsValidEmail(s)
    ensures exists at | 0 < at < |s| :: s[at] == '@' && forall k | 0 <= k < |s| && k != at :: s[k] != '@'
  {
    var at: nat, dot: nat :| at < dot < |s| && EmailSplit(s, at, dot);
    forall k: nat | k < |s| && k != at ensures s[k] != '@' {
      EmailCharClasses(s, at, dot, k);
    }
    assert 0 < at < |s| && s[at] == '@';
  }

  /** A valid e-mail address holds no white space, so the `trim` the dialog
      applies after validating it stores the text unchanged. */
  lemma ValidEmailTrimmed(s: string)
    requires IsValidEmail(s)
    ensures forall k | 0 <= k < |s| :: !IsSpace(s[k])
    ensures Trim(s) == s
  {
    var at: nat, dot: nat :| at < dot < |s| && EmailSplit(s, at, dot);
    forall k: nat | k < |s| ensures !IsSpace(s[k]) {
      if k != at { EmailCharClasses(s, at, dot, k); }
    }
    TrimNoSpace(s);
  }

  /** A valid phone number is eleven decimal digits and is stored unchanged. */
  lemma ValidPhoneShape(s: string)
    requires IsValidPhoneNumber(s)
    ensures |s| == 11 && AllDigits(s)
    ensures Trim(s) == s
  {
    assert forall k | 0 <= k < |s| :: IsDigit(s[k]) by {
      forall k | 0 <= k < |s| ensures IsDigit(s[k]) {
        if k >= 3 { assert IsDigit(s[k]); }
      }
    }
    TrimNoSpace(s);
  }

  /** A valid PIN is four to six digits and is hashed unchanged. */
  lemma ValidPINShape(s: string)
    requires IsValidPIN(s)
    ensures Trim(s) == s && 4 <= |s| <= 6
  {
    TrimNoSpace(s);
  }

  /** The registration trigger `/start` is not an e-mail address. */
  lemma StartIsNotAnEmail()
    ensures !IsValidEmail("/start")
  {
    var s := "/start";
    forall at: nat, dot: nat | at < dot < |s| ensures !EmailSplit(s, at, dot) {
      assert s[at] != '@';
    }
  }

  /** The example the e-mail prompt shows is accepted. */
  lemma ExampleEmailIsValid()
    ensures IsValidEmail("john@gmail.com")
  {
    assert EmailSplit("john@gmail.com", 4, 10);
  }

  /** The example the phone prompt shows is accepted. */
  lemma ExamplePhoneIsValid()
    ensures IsValidPhoneNumber("08123456789")
  {
  }
}
