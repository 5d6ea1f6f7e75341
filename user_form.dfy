/**
 * The lead form (app/components/UserForm.tsx): the field validators, the
 * live phone mask, the fill-in progress bar and the submit flow.  The
 * 800 ms pause before the record reaches the session is a pending
 * submission with a method of its own, run when the delay has passed.
 */
module UserFormView {
  import opened Wrappers
  import opened Decimal
  import opened QuizData
  import opened QuizContext

  /**
   * The white space of ECMAScript (`String.prototype.trim` and the class
   * `\s`): tab, line feed, vertical tab, form feed, carriage return, space,
   * no-break space, the Unicode space separators, the line and paragraph
   * separators and the byte-order mark.
   */
  predicate IsJsSpace(c: char): (space: bool)
    ensures space ==> !IsDigit(c) && c != '@' && c != '.' && c != '(' && c != ')' && c != '-'
  {
    || ('\U{0009}' <= c <= '\U{000D}')
    || c == '\U{0020}' || c == '\U{00A0}' || c == '\U{1680}'
    || ('\U{2000}' <= c <= '\U{200A}')
    || c == '\U{2028}' || c == '\U{2029}' || c == '\U{202F}' || c == '\U{205F}'
    || c == '\U{3000}' || c == '\U{FEFF}'
  }

  /** The leading white space of `s` removed: a suffix of `s`, empty exactly when `s` is all white space. */
  function TrimStart(s: string): (r: string)
    ensures |r| <= |s| && r == s[|s| - |r|..]
    ensures r == [] || !IsJsSpace(r[0])
    ensures r == [] <==> forall k :: 0 <= k < |s| ==> IsJsSpace(s[k])
    decreases |s|
  {
    if s != [] && IsJsSpace(s[0]) then
      var r := TrimStart(s[1..]);
      assert forall k :: 1 <= k < |s| ==> s[k] == s[1..][k - 1];
      r
    else s
  }

  /** The trailing white space of `s` removed: a prefix of `s`, empty exactly when `s` is all white space. */
  function TrimEnd(s: string): (r: string)
    ensures |r| <= |s| && r == s[..|r|]
    ensures r == [] || !IsJsSpace(r[|r| - 1])
    ensures r == [] <==> forall k :: 0 <= k < |s| ==> IsJsSpace(s[k])
    decreases |s|
  {
    if s != [] && IsJsSpace(s[|s| - 1]) then
      var r := TrimEnd(s[..|s| - 1]);
      assert forall k :: 0 <= k < |s| - 1 ==> s[k] == s[..|s| - 1][k];
      r
    else s
  }

  /** `String.prototype.trim`: white space removed from both ends, so the result neither starts nor ends with any. */
  function Trim(s: string): (r: string)
    ensures |r| <= |s|
    ensures r == [] || (!IsJsSpace(r[0]) && !IsJsSpace(r[|r| - 1]))
  {
    TrimEnd(TrimStart(s))
  }

  /** `!s.trim()`: nothing but white space, the empty string included. */
  predicate Blank(s: string) {
    forall k :: 0 <= k < |s| ==> IsJsSpace(s[k])
  }

  /** Blank is `!s.trim()`: the trimmed text is empty exactly for a blank value. */
  lemma BlankIffTrimmedEmpty(s: string)
    ensures Blank(s) <==> Trim(s) == []
  {
  }

  /**
   * `/\S+@\S+\.\S+/.test(s)`, unanchored: somewhere in `s` a non-space
   * character, then `@`, then a non-empty run of non-space characters, then
   * `.`, then a non-space character.
   */
  predicate LooksLikeEmail(s: string): (matched: bool)
    ensures matched ==> |s| >= 5 && '@' in s && !Blank(s)
  {
    exists at, dot | 0 <= at < |s| && 0 <= dot < |s| :: EmailAt(s, at, dot)
  }

  /** The pattern of LooksLikeEmail matched with its `@` at `at` and its `.` at `dot`. */
  predicate EmailAt(s: string, at: int, dot: int) {
    && 1 <= at && at + 1 < dot && dot + 1 < |s|
    && !IsJsSpace(s[at - 1]) && s[at] == '@' && s[dot] == '.' && !IsJsSpace(s[dot + 1])
    && forall k :: at < k < dot ==> !IsJsSpace(s[k])
  }

  /** `/^\(\d{2}\) \d{5}-\d{4}$/`: the masked form `(DD) DDDDD-DDDD`. */
  predicate MatchesMaskedPhone(s: string): (matched: bool)
    ensures matched ==> !MatchesDigitPhone(s)
  {
    && |s| == 15
    && s[0] == '(' && s[3] == ')' && s[4] == ' ' && s[10] == '-'
    && AllDigits(s[1..3]) && AllDigits(s[5..10]) && AllDigits(s[11..])
  }

  /** `/^\d{10,11}$/`: ten or eleven bare digits. */
  predicate MatchesDigitPhone(s: string): (matched: bool)
    ensures matched ==> s != [] && IsDigit(s[0]) && IsDigit(s[|s| - 1])
  {
    10 <= |s| <= 11 && AllDigits(s)
  }

  /** Either phone pattern; neither accepts a blank value. */
  predicate PhoneAccepted(s: string): (accepted: bool)
    ensures accepted ==> !Blank(s)
  {
    MatchesMaskedPhone(s) || MatchesDigitPhone(s)
  }

  const NameRequired := "Nome é obrigatório"
  const EmailRequired := "Email é obrigatório"
  const EmailInvalid := "Email inválido"
  const PhoneRequired := "Telefone é obrigatório"
  const PhoneInvalid := "Telefone inválido"
  const ProfessionRequired := "Profissão é obrigatória"

  function NameError(name: string): (msg: string)
    ensures msg == "" <==> !Blank(name)
    ensures msg != "" ==> msg == NameRequired
  {
    if Blank(name) then NameRequired else ""
  }

  /** The email message: the missing value is reported before the malformed one. */
  function EmailError(email: string): (msg: string)
    ensures msg == EmailRequired <==> Blank(email)
    ensures msg == EmailInvalid <==> !Blank(email) && !LooksLikeEmail(email)
    ensures msg == "" <==> LooksLikeEmail(email)
  {
    if Blank(email) then
      EmailRequired
    else if !LooksLikeEmail(email) then EmailInvalid
    else ""
  }

  /** The phone message: the missing value is reported before the malformed one. */
  function PhoneError(phone: string): (msg: string)
    ensures msg == PhoneRequired <==> Blank(phone)
    ensures msg == PhoneInvalid <==> !Blank(phone) && !PhoneAccepted(phone)
    ensures msg == "" <==> PhoneAccepted(phone)
  {
    if Blank(phone) then
      PhoneRequired
    else if !PhoneAccepted(phone) then PhoneInvalid
    else ""
  }

  /** The profession is the value of a select; only the empty choice is missing. */
  function ProfessionError(profession: string): (msg: string)
    ensures msg == "" <==> profession != ""
    ensures msg != "" ==> msg == ProfessionRequired
  {
    if profession == "" then ProfessionRequired else ""
  }

  /** The error record `validateForm` builds, one message per field. */
  function ExpectedErrors(data: UserInfo): UserInfo {
    UserInfo(NameError(data.name), EmailError(data.email), PhoneError(data.phone), ProfessionError(data.profession))
  }

  /** A complete, well-formed contact record. */
  predicate FormValid(data: UserInfo) {
    !Blank(data.name) && LooksLikeEmail(data.email) && PhoneAccepted(data.phone) && data.profession != ""
  }

  /** The form is valid exactly when the error record is all empty. */
  lemma NoErrorsIffValid(data: UserInfo)
    ensures ExpectedErrors(data) == EmptyUserInfo <==> FormValid(data)
  {
  }

  /** `replace(/\D/g, '')`: the digits of `s`, in order. */
  function StripNonDigits(s: string): (r: string)
    ensures AllDigits(r) && |r| <= |s|
    decreases |s|
  {
    if s == [] then []
    else (if IsDigit(s[0]) then [s[0]] else []) + StripNonDigits(s[1..])
  }

  lemma {:induction false} StripNonDigitsAppend(a: string, b: string)
    ensures StripNonDigits(a + b) == StripNonDigits(a) + StripNonDigits(b)
    decreases |a|
  {
    if a != [] {
      var x := if IsDigit(a[0]) then [a[0]] else [];
      assert (a + b)[0] == a[0];
      assert (a + b)[1..] == a[1..] + b;
      calc {
        StripNonDigits(a + b);
        x + StripNonDigits(a[1..] + b);
        { StripNonDigitsAppend(a[1..], b); }
        x + (StripNonDigits(a[1..]) + StripNonDigits(b));
        (x + StripNonDigits(a[1..])) + StripNonDigits(b);
        StripNonDigits(a) + StripNonDigits(b);
      }
    } else {
      assert a + b == b;
    }
  }

  /** A digit string strips to itself. */
  lemma {:induction false} StripNonDigitsOfDigits(d: string)
    requires AllDigits(d)
    ensures StripNonDigits(d) == d
    decreases |d|
  {
    if d != [] {
      StripNonDigitsOfDigits(d[1..]);
    }
  }

  /** Stripping keeps every digit: a string of digits only is a fixed point, and nothing but digits survives. */
  lemma StripNonDigitsIdempotent(s: string)
    ensures StripNonDigits(StripNonDigits(s)) == StripNonDigits(s)
  {
    StripNonDigitsOfDigits(StripNonDigits(s));
  }

  /**
   * The mask `(99) 99999-9999` applied to a digit string, as the input
   * handler builds it: up to two digits stay bare, up to six get the area
   * code in parentheses, and from the eighth digit on a dash follows the
   * fifth digit after the area code.
   */
  function FormatPhone(d: string): (r: string)
    ensures |d| <= 2 ==> |r| == |d|
    ensures 2 < |d| <= 7 ==> |r| == |d| + 3
    ensures 7 < |d| ==> |r| == |d| + 4
  {
    if |d| <= 2 then d
    else if |d| <= 7 then "(" + d[..2] + ") " + d[2..]
    else "(" + d[..2] + ") " + d[2..7] + "-" + d[7..]
  }

  /** A character that is not a digit disappears when stripping. */
  lemma StripNonDigit(c: char, x: string)
    requires !IsDigit(c)
    ensures StripNonDigits([c] + x) == StripNonDigits(x)
  {
    assert ([c] + x)[1..] == x;
  }

  /** Stripping `(` + area code + `) `, the head of the mask, leaves the area code. */
  lemma StripMaskHead(area: string)
    requires AllDigits(area)
    ensures StripNonDigits("(" + area + ") ") == area
  {
    StripNonDigitsAppend("(" + area, ") ");
    StripNonDigit(')', " ");
    StripNonDigit(' ', "");
    assert ") " == [')'] + " ";
    assert " " == [' '] + "";
    StripNonDigit('(', area);
    assert "(" + area == ['('] + area;
    StripNonDigitsOfDigits(area);
  }

  /** The round trip for up to seven digits: the mask without the dash. */
  lemma ShortMaskRoundTrip(d: string)
    requires AllDigits(d) && 2 < |d|
    ensures StripNonDigits("(" + d[..2] + ") " + d[2..]) == d
  {
    StripNonDigitsAppend("(" + d[..2] + ") ", d[2..]);
    StripMaskHead(d[..2]);
    StripNonDigitsOfDigits(d[2..]);
    assert d[..2] + d[2..] == d;
  }

  /** The round trip from eight digits on: the mask with the dash. */
  lemma LongMaskRoundTrip(d: string)
    requires AllDigits(d) && 7 < |d|
    ensures StripNonDigits("(" + d[..2] + ") " + d[2..7] + "-" + d[7..]) == d
  {
    var head, middle, tail := "(" + d[..2] + ") " + d[2..7], d[2..7], d[7..];
    assert head + "-" + tail == head + (['-'] + tail);
    StripNonDigitsAppend(head, ['-'] + tail);
    StripNonDigit('-', tail);
    StripNonDigitsOfDigits(tail);
    StripNonDigitsAppend("(" + d[..2] + ") ", middle);
    StripMaskHead(d[..2]);
    StripNonDigitsOfDigits(middle);
    assert d[..2] + middle + tail == d;
  }

  /** The mask only adds punctuation: stripping it gives the digits back. */
  lemma FormatPhoneRoundTrip(d: string)
    requires AllDigits(d)
    ensures StripNonDigits(FormatPhone(d)) == d
  {
    if |d| <= 2 {
      StripNonDigitsOfDigits(d);
    } else if |d| <= 7 {
      ShortMaskRoundTrip(d);
    } else {
      LongMaskRoundTrip(d);
    }
  }

  /** Typing into a masked phone re-masks it to the same text. */
  lemma FormatPhoneStable(d: string)
    requires AllDigits(d)
    ensures FormatPhone(StripNonDigits(FormatPhone(d))) == FormatPhone(d)
  {
    FormatPhoneRoundTrip(d);
  }

  /**
   * Of the texts the mask produces, the validator accepts exactly the
   * eleven-digit ones: ten digits come out as `(DD) DDDDD-DDD`, which
   * neither pattern matches, although the bare-digit pattern admits ten.
   */
  lemma FormattedPhoneAcceptedIff11(d: string)
    requires AllDigits(d) && |d| <= 11
    ensures PhoneError(FormatPhone(d)) == "" <==> |d| == 11
  {
    var r := FormatPhone(d);
    if |d| == 11 {
      assert r[1..3] == d[..2];
      assert r[5..10] == d[2..7];
      assert r[11..] == d[7..];
      assert MatchesMaskedPhone(r);
    } else if |d| <= 2 {
      assert !PhoneAccepted(r);
    } else {
      assert r[0] == '(';
      assert !IsDigit(r[0]);
      assert !PhoneAccepted(r);
    }
  }

  /**
   * The other direction: a text of the masked pattern holds eleven digits
   * and is exactly what the mask makes of them.
   */
  lemma MaskedPhoneIsFixedPoint(s: string)
    requires MatchesMaskedPhone(s)
    ensures |StripNonDigits(s)| == 11 && FormatPhone(StripNonDigits(s)) == s
  {
    var d := s[1..3] + s[5..10] + s[11..];
    assert AllDigits(d) by {
      forall k | 0 <= k < |d| ensures IsDigit(d[k]) {
        if k < 2 { assert d[k] == s[1..3][k]; }
        else if k < 7 { assert d[k] == s[5..10][k - 2]; }
        else { assert d[k] == s[11..][k - 7]; }
      }
    }
    assert d[..2] == s[1..3] && d[2..7] == s[5..10] && d[7..] == s[11..];
    assert s == "(" + d[..2] + ") " + d[2..7] + "-" + d[7..];
    LongMaskRoundTrip(d);
  }

  /** The number of filled-in fields. */
  function FilledFields(data: UserInfo): (n: nat)
    ensures n <= 4
    ensures n == 4 <==> data.name != "" && data.email != "" && data.phone != "" && data.profession != ""
    ensures n == 0 <==> data.name == "" && data.email == "" && data.phone == "" && data.profession == ""
  {
    (if data.name != "" then 1 else 0) + (if data.email != "" then 1 else 0)
    + (if data.phone != "" then 1 else 0) + (if data.profession != "" then 1 else 0)
  }

  /** A valid record fills every field, so the bar is then full. */
  lemma ValidFormIsFull(data: UserInfo)
    requires FormValid(data)
    ensures FilledFields(data) == 4
  {
    assert data.name != "" && data.email != "" && data.phone != "";
  }

  class UserFormScreen {
    const session: Session
    var formData: UserInfo
    /** One message per field, "" where the field is fine. */
    var errors: UserInfo
    var isSubmitting: bool
    /** The record captured by a submit whose 800 ms pause has not yet passed. */
    var pendingSubmission: Option<UserInfo>

    ghost predicate Valid()
      reads this, session
    {
      && session.Valid()
      && (isSubmitting <==> pendingSubmission.Some?)
      && (pendingSubmission.Some? ==> FormValid(pendingSubmission.value))
    }

    constructor (session: Session)
      requires session.Valid()
      ensures Valid() && this.session == session
      ensures formData == EmptyUserInfo && errors == EmptyUserInfo
      ensures !isSubmitting && pendingSubmission == None
    {
      this.session := session;
      formData := EmptyUserInfo;
      errors := EmptyUserInfo;
      isSubmitting := false;
      pendingSubmission := None;
    }

    /** `validateForm`: rebuild every message and report whether none was raised. */
    method ValidateForm() returns (isValid: bool)
      requires Valid()
      modifies this
      ensures Valid()
      ensures errors == ExpectedErrors(formData)
      ensures isValid <==> FormValid(formData)
      ensures isValid <==> errors == EmptyUserInfo
      ensures formData == old(formData) && isSubmitting == old(isSubmitting)
      ensures pendingSubmission == old(pendingSubmission)
    {
      var newErrors := EmptyUserInfo;
      isValid := true;
      if Blank(formData.name) {
        newErrors := newErrors.(name := NameRequired);
        isValid := false;
      }
      if Blank(formData.email) {
        newErrors := newErrors.(email := EmailRequired);
        isValid := false;
      } else if !LooksLikeEmail(formData.email) {
        newErrors := newErrors.(email := EmailInvalid);
        isValid := false;
      }
      if Blank(formData.phone) {
        newErrors := newErrors.(phone := PhoneRequired);
        isValid := false;
      } else if !MatchesMaskedPhone(formData.phone) && !MatchesDigitPhone(formData.phone) {
        newErrors := newErrors.(phone := PhoneInvalid);
        isValid := false;
      }
      if formData.profession == "" {
        newErrors := newErrors.(profession := ProfessionRequired);
        isValid := false;
      }
      errors := newErrors;
    }

    /** `handleChange`: store the value and clear that field's message if one is shown. */
    method HandleChange(field: Field, value: string)
      requires Valid()
      modifies this
      ensures Valid()
      ensures formData == old(formData).With(field, value)
      ensures errors.Get(field) == ""
      ensures forall g :: g != field ==> errors.Get(g) == old(errors).Get(g)
      ensures isSubmitting == old(isSubmitting) && pendingSubmission == old(pendingSubmission)
    {
      formData := formData.With(field, value);
      if errors.Get(field) != "" {
        errors := errors.With(field, "");
      }
    }

    /**
     * `handlePhoneChange`: keep the digits; with at most eleven of them
     * apply the mask in two steps and clear the phone message; with more,
     * ignore the keystroke.
     */
    method HandlePhoneChange(input: string)
      requires Valid()
      modifies this
      ensures Valid()
      ensures |StripNonDigits(input)| <= 11 ==>
        && formData == old(formData).(phone := FormatPhone(StripNonDigits(input)))
        && errors == old(errors).(phone := "")
      ensures |StripNonDigits(input)| > 11 ==> formData == old(formData) && errors == old(errors)
      ensures isSubmitting == old(isSubmitting) && pendingSubmission == old(pendingSubmission)
    {
      var digits := StripNonDigits(input);
      var value := digits;
      if |value| <= 11 {
        if |value| > 2 {
          value := "(" + value[..2] + ") " + value[2..];
          assert |value| == |digits| + 3;
        }
        if |value| > 10 {
          assert 7 < |digits|;
          assert value[..10] == "(" + digits[..2] + ") " + digits[2..7];
          assert value[10..] == digits[7..];
          value := value[..10] + "-" + value[10..];
          assert value == FormatPhone(digits);
        } else if |digits| > 2 {
          assert value == FormatPhone(digits);
        }
        formData := formData.(phone := value);
        if errors.phone != "" {
          errors := errors.(phone := "");
        }
      }
    }

    /** `calculateProgress`: the share of filled-in fields, in percent. */
    method CalculateProgress() returns (progress: int)
      ensures progress == 25 * FilledFields(formData)
      ensures progress == 100 <==> FilledFields(formData) == 4
      ensures 0 <= progress <= 100 && progress % 25 == 0
    {
      var filledFields := 0;
      if formData.name != "" { filledFields := filledFields + 1; }
      if formData.email != "" { filledFields := filledFields + 1; }
      if formData.phone != "" { filledFields := filledFields + 1; }
      if formData.profession != "" { filledFields := filledFields + 1; }
      progress := filledFields * 100 / 4;
    }

    /**
     * `handleSubmit`: validate; when the record is good, show the sending
     * state and keep the record for the end of the pause.  The button is
     * disabled while a submission is pending.
     */
    method HandleSubmit() returns (accepted: bool)
      requires Valid()
      requires !isSubmitting
      modifies this
      ensures Valid()
      ensures errors == ExpectedErrors(old(formData)) && formData == old(formData)
      ensures accepted <==> FormValid(old(formData))
      ensures accepted ==> isSubmitting && pendingSubmission == Some(old(formData))
      ensures !accepted ==> !isSubmitting && pendingSubmission == None
    {
      accepted := ValidateForm();
      if accepted {
        isSubmitting := true;
        pendingSubmission := Some(formData);
      }
    }

    /** The pause has passed: the captured record goes to the session, which shows the results. */
    method SubmitDelayElapsed()
      requires Valid()
      requires isSubmitting
      modifies this, session
      ensures Valid()
      ensures session.userInfo == Some(old(pendingSubmission).value) && session.currentStep == Results
      ensures FormValid(session.userInfo.value)
      ensures !isSubmitting && pendingSubmission == None
      ensures formData == old(formData) && errors == old(errors)
      ensures session.State() == old(session.State()).(userInfo := Some(old(pendingSubmission).value), currentStep := Results)
    {
      session.SetUserData(pendingSubmission.value);
      isSubmitting := false;
      pendingSubmission := None;
    }
  }

  /** Sample emails: a complete address passes, a blank or a dotless one does not. */
  lemma EmailExamples()
    ensures EmailError("ana@exemplo.com") == ""
    ensures EmailError("a@b") == EmailInvalid
    ensures EmailError("   ") == EmailRequired
  {
    assert EmailAt("ana@exemplo.com", 3, 11);
    assert !IsJsSpace("a@b"[0]);
  }

  /** Sample phones: the masked and the bare forms pass, a short mask does not. */
  lemma PhoneExamples()
    ensures PhoneError("(11) 98765-4321") == ""
    ensures PhoneError("1198765432") == ""
    ensures PhoneError("(11) 9876-5432") == PhoneInvalid
  {
    var p := "(11) 98765-4321";
    assert p[1..3] == "11" && p[5..10] == "98765" && p[11..] == "4321";
    assert !IsJsSpace("(11) 9876-5432"[0]);
  }

  /** The mask applied to eleven typed digits. */
  lemma FormatPhoneExample()
    ensures FormatPhone("11987654321") == "(11) 98765-4321"
  {
    var d := "11987654321";
    assert d[..2] == "11" && d[2..7] == "98765" && d[7..] == "4321";
  }
}
