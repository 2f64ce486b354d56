/** The one-time-code page: six single-digit input boxes, the focus moves
    between them, the verification request once all six are filled, and
    the password reset that follows.  The server's answer to each request
    is a parameter. */
module OtpVerification {
  import opened Text
  import opened Records

  /** The number of input boxes. */
  const Slots := 6

  /** A box holds nothing or one decimal digit. */
  predicate SlotValue(v: string) {
    v == "" || (|v| == 1 && IsDigit(v[0]))
  }

  /** `value.slice(0, 1)` when the value is longer than one character. */
  function FirstChar(value: string): (r: string)
    ensures |r| <= 1
    ensures |value| <= 1 ==> r == value
    ensures |value| > 1 ==> r == value[..1]
  {
    if |value| > 1 then value[..1] else value
  }

  /** Cutting the input to its first character keeps a box's own value,
      is empty only for empty input, and cutting twice is cutting once; the
      cut input is a valid box value exactly when it is empty or a digit. */
  lemma FirstCharLaws(value: string)
    ensures SlotValue(value) ==> FirstChar(value) == value
    ensures FirstChar(value) == "" <==> value == ""
    ensures FirstChar(FirstChar(value)) == FirstChar(value)
    ensures SlotValue(FirstChar(value)) <==> value == "" || IsDigit(value[0])
  {
  }

  /** The text the boxes make together, `otp.join('')`. */
  function Join(slots: seq<string>): string {
    if slots == [] then "" else Join(slots[..|slots| - 1]) + slots[|slots| - 1]
  }

  /** With every box holding at most one character, the joined code is as
      long as the number of boxes exactly when every box is filled. */
  lemma {:induction false} JoinFull(slots: seq<string>)
    requires forall i :: 0 <= i < |slots| ==> |slots[i]| <= 1
    ensures |Join(slots)| <= |slots|
    ensures |Join(slots)| == |slots| <==> forall i :: 0 <= i < |slots| ==> |slots[i]| == 1
  {
    if slots != [] {
      var init := slots[..|slots| - 1];
      JoinFull(init);
      if |Join(slots)| == |slots| {
        forall i | 0 <= i < |slots| ensures |slots[i]| == 1 {
          if i < |init| {
            assert slots[i] == init[i];
          }
        }
      }
    }
  }

  /** The joined code of valid boxes holds only digits. */
  lemma {:induction false} JoinDigits(slots: seq<string>)
    requires forall i :: 0 <= i < |slots| ==> SlotValue(slots[i])
    ensures forall k :: 0 <= k < |Join(slots)| ==> IsDigit(Join(slots)[k])
  {
    if slots != [] {
      JoinDigits(slots[..|slots| - 1]);
    }
  }

  /** Typing a code one character per box joins back to that code. */
  lemma {:induction false} TypedCodeJoins(code: string)
    ensures Join(seq(|code|, i requires 0 <= i < |code| => [code[i]])) == code
  {
    if code != [] {
      var init := code[..|code| - 1];
      TypedCodeJoins(init);
      var slots := seq(|code|, i requires 0 <= i < |code| => [code[i]]);
      assert slots[..|slots| - 1] == seq(|init|, i requires 0 <= i < |init| => [init[i]]);
      assert code == init + [code[|code| - 1]];
    }
  }

  datatype VerifyRequest = VerifyRequest(email: string, otp: string)

  datatype ResetRequest = ResetRequest(email: string, otp: string, newPassword: string)

  class OtpPage {
    var otp: seq<string>
    var newPassword: string
    var confirmPassword: string
    var otpVerified: bool
    var loading: bool
    /** The address the previous page passed on, or empty. */
    const email: string

    /** There are six boxes, each empty or holding one digit. */
    ghost predicate Valid()
      reads this
    {
      |otp| == Slots && forall i :: 0 <= i < |otp| ==> SlotValue(otp[i])
    }

    constructor (email: string)
      ensures Valid()
      ensures otp == ["", "", "", "", "", ""]
      ensures newPassword == "" && confirmPassword == ""
      ensures !otpVerified && !loading
      ensures this.email == email
    {
      otp := ["", "", "", "", "", ""];
      newPassword := "";
      confirmPassword := "";
      otpVerified := false;
      loading := false;
      this.email := email;
    }

    /** `handleOtpChange`: keeps the first character of the input; anything
        but a digit or nothing is ignored; otherwise only box `index` is
        written.  `focus` is the box that gets focus next, if any. */
    method HandleOtpChange(index: nat, value: string) returns (focus: Option<nat>)
      requires Valid() && index < Slots
      modifies this`otp
      ensures Valid()
      ensures var v := FirstChar(value);
        !SlotValue(v) ==> otp == old(otp) && focus.None?
      ensures var v := FirstChar(value);
        SlotValue(v) ==> otp == old(otp)[index := v]
      ensures var v := FirstChar(value);
        focus == if SlotValue(v) && v != "" && index < Slots - 1 then Some(index + 1) else None
    {
      var v := FirstChar(value);
      if v != "" && !IsDigit(v[0]) {
        return None;
      }
      otp := otp[index := v];
      focus := if v != "" && index < Slots - 1 then Some(index + 1) else None;
    }

    /** `handleKeyDown`: Backspace in an empty box other than the first
        moves focus one box back.  Nothing is changed. */
    method HandleKeyDown(index: nat, key: string) returns (focus: Option<nat>)
      requires Valid() && index < Slots
      ensures focus.Some? <==> key == "Backspace" && otp[index] == "" && index > 0
      ensures focus.Some? ==> focus.value == index - 1 && focus.value < Slots
    {
      if key == "Backspace" && otp[index] == "" && index > 0 {
        focus := Some(index - 1);
      } else {
        focus := None;
      }
    }

    /** `handleVerifyOtp`: sends the joined code only when it has six
        characters; `accepted` is the server's answer.  The page marks the
        code verified only on acceptance, and a failure leaves it as it was. */
    method HandleVerifyOtp(accepted: bool) returns (sent: Option<VerifyRequest>)
      requires Valid()
      modifies this`otpVerified, this`loading
      ensures |Join(otp)| != Slots ==> sent.None? && otpVerified == old(otpVerified) && loading == old(loading)
      ensures |Join(otp)| == Slots ==> sent == Some(VerifyRequest(email, Join(otp))) && !loading
      ensures |Join(otp)| == Slots ==> otpVerified == (old(otpVerified) || accepted)
    {
      var code := Join(otp);
      if |code| != Slots {
        return None;
      }
      loading := true;
      sent := Some(VerifyRequest(email, code));
      if accepted {
        otpVerified := true;
      }
      loading := false;
    }

    /** `handleResetPassword`: refuses a new password shorter than six
        characters or different from its confirmation; otherwise sends the
        address, the joined code and the new password.  `done` is whether
        the page goes on to the login page. */
    method HandleResetPassword(accepted: bool) returns (sent: Option<ResetRequest>, done: bool)
      modifies this`loading
      ensures |newPassword| < 6 || newPassword != confirmPassword ==>
        sent.None? && !done && loading == old(loading)
      ensures |newPassword| >= 6 && newPassword == confirmPassword ==>
        sent == Some(ResetRequest(email, Join(otp), newPassword)) && done == accepted && !loading
    {
      if |newPassword| < 6 {
        return None, false;
      }
      if newPassword != confirmPassword {
        return None, false;
      }
      loading := true;
      sent := Some(ResetRequest(email, Join(otp), newPassword));
      done := accepted;
      loading := false;
    }
  }

  /** A verification request is sent exactly when all six boxes are
      filled, and what it carries is a six-digit code. */
  lemma SentOnlyWhenFull(otp: seq<string>)
    requires |otp| == Slots && forall i :: 0 <= i < |otp| ==> SlotValue(otp[i])
    ensures |Join(otp)| == Slots <==> forall i :: 0 <= i < Slots ==> otp[i] != ""
    ensures forall k :: 0 <= k < |Join(otp)| ==> IsDigit(Join(otp)[k])
  {
    JoinFull(otp);
    JoinDigits(otp);
  }

  /** Focus moves forward after a digit and back again on Backspace in the
      empty box it reached: the two handlers are inverse moves, and the
      Backspace changes no box. */
  method TypeThenBackspace(page: OtpPage, index: nat, digit: char)
    returns (forward: Option<nat>, back: Option<nat>)
    requires page.Valid() && index + 1 < Slots && IsDigit(digit)
    requires page.otp[index + 1] == ""
    modifies page
    ensures forward == Some(index + 1)
    ensures back == Some(index)
    ensures page.otp == old(page.otp)[index := [digit]]
  {
    forward := page.HandleOtpChange(index, [digit]);
    back := page.HandleKeyDown(index + 1, "Backspace");
  }

  /** Typing six digits into the six boxes in turn fills them with the
      code and moves focus forward after each box but the last. */
  method TypeCode(page: OtpPage, code: string)
    requires page.Valid()
    requires |code| == Slots && forall k :: 0 <= k < |code| ==> IsDigit(code[k])
    modifies page
    ensures page.Valid()
    ensures Join(page.otp) == code
  {
    var i := 0;
    while i < Slots
      invariant 0 <= i <= Slots
      invariant page.Valid()
      invariant forall k :: 0 <= k < i ==> page.otp[k] == [code[k]]
    {
      var focus := page.HandleOtpChange(i, [code[i]]);
      assert focus == if i < Slots - 1 then Some(i + 1) else None;
      i := i + 1;
    }
    assert page.otp == seq(|code|, k requires 0 <= k < |code| => [code[k]]);
    TypedCodeJoins(code);
  }
}
