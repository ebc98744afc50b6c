/** The one-time-password form: four single-digit boxes, a submit that
    verifies the joined code, and a resend button locked by a countdown. */
module OtpVerification {
  import opened Common

  const Boxes: nat := 4
  const IncompleteOtp: string := "Please enter the complete 4-digit OTP"
  const VerifiedNotice: string := "Login successful! Redirecting..."
  const InvalidOtp: string := "Invalid OTP. Please try again."
  const ResentNotice: string := "New OTP sent to your email!"
  const ResendFailed: string := "Failed to resend OTP. Please try again."
  const ResendLockSeconds: nat := 60

  /** What `/^\d?$/` accepts: the empty string or one ASCII digit */
  predicate IsBoxValue(value: string) {
    value == "" || (|value| == 1 && IsDigit(value[0]))
  }

  /** A row of boxes each holding an accepted value */
  predicate AllBoxValues(boxes: seq<string>) {
    forall i :: 0 <= i < |boxes| ==> IsBoxValue(boxes[i])
  }

  /** Number of boxes that hold a digit */
  function FilledCount(boxes: seq<string>): (n: nat)
    ensures n <= |boxes|
  {
    if boxes == [] then 0 else (if boxes[0] != "" then 1 else 0) + FilledCount(boxes[1..])
  }

  /** `otp.join('')` is as long as the number of filled boxes */
  lemma {:induction false} JoinedLength(boxes: seq<string>)
    requires AllBoxValues(boxes)
    ensures |Join(boxes, "")| == FilledCount(boxes)
  {
    if |boxes| > 1 {
      assert AllBoxValues(boxes[1..]) by {
        forall i | 0 <= i < |boxes[1..]| ensures IsBoxValue(boxes[1..][i]) {
          assert boxes[1..][i] == boxes[i + 1];
        }
      }
      JoinedLength(boxes[1..]);
    } else if |boxes| == 1 {
      assert boxes[1..] == [];
    }
  }

  lemma {:induction false} FilledCountFull(boxes: seq<string>)
    ensures FilledCount(boxes) == |boxes| <==> forall i :: 0 <= i < |boxes| ==> boxes[i] != ""
  {
    if boxes != [] {
      FilledCountFull(boxes[1..]);
      assert forall i :: 1 <= i < |boxes| ==> boxes[i] == boxes[1..][i - 1];
    }
  }

  /** The code is complete exactly when every box holds a digit */
  lemma CompleteIffAllFilled(boxes: seq<string>)
    requires AllBoxValues(boxes)
    ensures |Join(boxes, "")| == |boxes| <==> forall i :: 0 <= i < |boxes| ==> boxes[i] != ""
  {
    JoinedLength(boxes);
    FilledCountFull(boxes);
  }

  /** A joined row of box values is made of digits */
  lemma {:induction false} JoinedDigits(boxes: seq<string>)
    requires AllBoxValues(boxes)
    ensures forall i :: 0 <= i < |Join(boxes, "")| ==> IsDigit(Join(boxes, "")[i])
  {
    if |boxes| > 1 {
      assert AllBoxValues(boxes[1..]) by {
        forall i | 0 <= i < |boxes[1..]| ensures IsBoxValue(boxes[1..][i]) {
          assert boxes[1..][i] == boxes[i + 1];
        }
      }
      JoinedDigits(boxes[1..]);
    }
  }

  /** `text.replace(/\D/g, '').slice(0, 4).split('')` */
  function PastedDigits(text: string): (boxes: seq<string>)
    ensures |boxes| == if |Filter(text, IsDigit)| < Boxes then |Filter(text, IsDigit)| else Boxes
    ensures forall i :: 0 <= i < |boxes| ==> boxes[i] == [Filter(text, IsDigit)[i]]
  {
    var digits := SliceTo(Filter(text, IsDigit), Boxes);
    seq(|digits|, i requires 0 <= i < |digits| => [digits[i]])
  }

  /** The 'Resend' button caption */
  function ResendLabel(countdown: nat): (caption: string)
    ensures countdown == 0 <==> caption == "Resend OTP"
    ensures countdown > 0 ==> caption == "Resend in " + NatToString(countdown) + "s"
  {
    if countdown > 0 then "Resend in " + NatToString(countdown) + "s" else "Resend OTP"
  }

  /** One second of the countdown effect: it stops at 0 */
  function TickDown(countdown: nat): nat {
    if countdown > 0 then countdown - 1 else countdown
  }

  /** The countdown after `k` seconds */
  function CountdownAfter(countdown: nat, k: nat): nat
    decreases k
  {
    if k == 0 then countdown else CountdownAfter(TickDown(countdown), k - 1)
  }

  /** The countdown runs down one per second and then stays at 0 */
  lemma {:induction false} CountdownClosedForm(countdown: nat, k: nat)
    ensures CountdownAfter(countdown, k) == if k < countdown then countdown - k else 0
    decreases k
  {
    if k > 0 {
      CountdownClosedForm(TickDown(countdown), k - 1);
    }
  }

  /** After a resend the button stays locked for exactly 60 seconds */
  lemma ResendLockedSixtySeconds(k: nat)
    ensures CountdownAfter(ResendLockSeconds, k) > 0 <==> k < ResendLockSeconds
  {
    CountdownClosedForm(ResendLockSeconds, k);
  }

  class OtpForm {
    var otp: seq<string>
    var isLoading: bool
    var isResending: bool
    var error: string
    var success: string
    var countdown: nat

    ghost predicate Valid()
      reads this
    {
      |otp| == Boxes && AllBoxValues(otp)
    }

    constructor ()
      ensures Valid()
      ensures otp == ["", "", "", ""] && !isLoading && !isResending
      ensures error == "" && success == "" && countdown == 0
    {
      otp := ["", "", "", ""];
      isLoading := false;
      isResending := false;
      error := "";
      success := "";
      countdown := 0;
    }

    /** The submit button's `disabled` */
    predicate SubmitDisabled()
      reads this
    {
      isLoading || |Join(otp, "")| != Boxes
    }

    /** The resend button's `disabled` */
    predicate ResendDisabled()
      reads this
    {
      isResending || countdown > 0
    }

    /** Typing into box `index`: anything but one digit or nothing is ignored;
        a typed digit moves the focus to the next box */
    method Change(value: string, index: nat) returns (focus: Option<nat>)
      requires Valid() && index < Boxes
      modifies this
      ensures Valid()
      ensures IsBoxValue(value) ==> otp == old(otp)[index := value]
      ensures !IsBoxValue(value) ==> otp == old(otp)
      ensures focus.Some? <==> IsBoxValue(value) && value != "" && index < Boxes - 1
      ensures focus.Some? ==> focus.value == index + 1
      ensures isLoading == old(isLoading) && isResending == old(isResending)
      ensures error == old(error) && success == old(success) && countdown == old(countdown)
    {
      focus := None;
      if !IsBoxValue(value) {
        return;
      }
      otp := otp[index := value];
      if value != "" && index < Boxes - 1 {
        focus := Some(index + 1);
      }
    }

    /** Backspace in an empty box moves the focus back one box */
    method KeyDown(key: string, index: nat) returns (focus: Option<nat>)
      requires Valid() && index < Boxes
      ensures focus.Some? <==> key == "Backspace" && otp[index] == "" && index > 0
      ensures focus.Some? ==> focus.value == index - 1
    {
      focus := None;
      if key == "Backspace" && otp[index] == "" && index > 0 {
        focus := Some(index - 1);
      }
    }

    /** Pasting fills all four boxes when the text holds at least four
        digits, and otherwise does nothing */
    method Paste(text: string) returns (focus: Option<nat>)
      requires Valid()
      modifies this
      ensures Valid()
      ensures |Filter(text, IsDigit)| >= Boxes ==>
                Join(otp, "") == Filter(text, IsDigit)[..Boxes] && focus == Some(Boxes - 1)
      ensures |Filter(text, IsDigit)| >= Boxes ==> !SubmitDisabled() || isLoading
      ensures |Filter(text, IsDigit)| < Boxes ==> otp == old(otp) && focus == None
      ensures isLoading == old(isLoading) && isResending == old(isResending)
      ensures error == old(error) && success == old(success) && countdown == old(countdown)
    {
      var pastedNumbers := PastedDigits(text);
      focus := None;
      if |pastedNumbers| == Boxes {
        var digits := Filter(text, IsDigit);
        otp := pastedNumbers;
        assert otp == [[digits[0]], [digits[1]], [digits[2]], [digits[3]]];
        assert otp[1..] == [[digits[1]], [digits[2]], [digits[3]]];
        assert otp[1..][1..] == [[digits[2]], [digits[3]]];
        assert otp[1..][1..][1..] == [[digits[3]]];
        assert Join(otp[1..][1..], "") == [digits[2]] + "" + [digits[3]];
        assert Join(otp, "") == [digits[0], digits[1], digits[2], digits[3]];
        focus := Some(Boxes - 1);
      }
    }

    /** Submitting: an incomplete code is refused with a message and nothing
        is sent; a complete one clears the error, starts loading, and is the
        four-digit string sent for verification */
    method BeginSubmit() returns (sent: Option<string>)
      requires Valid()
      modifies this
      ensures Valid() && otp == old(otp)
      ensures sent.None? <==> |Join(otp, "")| != Boxes
      ensures sent.None? ==> error == IncompleteOtp && isLoading == old(isLoading)
      ensures sent.Some? ==> sent.value == Join(otp, "") && error == "" && isLoading
      ensures sent.Some? ==> |sent.value| == Boxes &&
                             forall i :: 0 <= i < Boxes ==> IsDigit(sent.value[i])
      ensures isResending == old(isResending) && success == old(success) && countdown == old(countdown)
    {
      var otpString := Join(otp, "");
      if |otpString| != Boxes {
        error := IncompleteOtp;
        sent := None;
        return;
      }
      JoinedDigits(otp);
      error := "";
      isLoading := true;
      sent := Some(otpString);
    }

    /** The verification's outcome: success announces the redirect, failure
        shows the message (or the fallback) and empties the boxes; loading ends */
    method EndSubmit(outcome: Result<()>) returns (redirect: bool)
      requires Valid()
      modifies this
      ensures Valid() && !isLoading
      ensures redirect <==> outcome.Ok?
      ensures outcome.Ok? ==> success == VerifiedNotice && otp == old(otp) && error == old(error)
      ensures outcome.Err? ==> error == MessageOr(outcome.message, InvalidOtp) &&
                               otp == ["", "", "", ""] && success == old(success)
      ensures isResending == old(isResending) && countdown == old(countdown)
    {
      match outcome {
        case Ok(_) =>
          success := VerifiedNotice;
          redirect := true;
        case Err(message) =>
          error := MessageOr(message, InvalidOtp);
          otp := ["", "", "", ""];
          redirect := false;
      }
      isLoading := false;
    }

    /** Resending starts: the error is cleared */
    method BeginResend()
      modifies this
      ensures isResending && error == ""
      ensures otp == old(otp) && isLoading == old(isLoading)
      ensures success == old(success) && countdown == old(countdown)
    {
      isResending := true;
      error := "";
    }

    /** The resend's outcome: success locks the button for 60 seconds */
    method EndResend(outcome: Result<()>)
      modifies this
      ensures !isResending
      ensures outcome.Ok? ==> countdown == ResendLockSeconds && success == ResentNotice && ResendDisabled()
      ensures outcome.Ok? ==> error == old(error)
      ensures outcome.Err? ==> error == MessageOr(outcome.message, ResendFailed) &&
                               countdown == old(countdown) && success == old(success)
      ensures otp == old(otp) && isLoading == old(isLoading)
    {
      match outcome {
        case Ok(_) =>
          countdown := ResendLockSeconds;
          success := ResentNotice;
        case Err(message) =>
          error := MessageOr(message, ResendFailed);
      }
      isResending := false;
    }

    /** One second of the countdown effect */
    method Tick()
      modifies this
      ensures countdown == TickDown(old(countdown))
      ensures old(countdown) > 0 ==> countdown == old(countdown) - 1
      ensures otp == old(otp) && isLoading == old(isLoading) && isResending == old(isResending)
      ensures error == old(error) && success == old(success)
    {
      if countdown > 0 {
        countdown := countdown - 1;
      }
    }
  }
}
