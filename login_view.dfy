/** The login page (client/src/views/login.jsx): the mobile-number step, the six one-character OTP
    boxes with their focus moves, and the completeness guard before verification. Which box has
    the keyboard focus is kept as a field. */
module LoginView {
  import opened Js

  const Boxes := 6

  /** What the boxes spell: `otp.join("")`. */
  function Join(boxes: seq<string>): string {
    if boxes == [] then "" else Join(boxes[..|boxes| - 1]) + boxes[|boxes| - 1]
  }

  /** With at most one character per box (`maxLength={1}`), the joined code is as long as the
      number of boxes exactly when no box is empty. */
  lemma {:induction false} JoinFull(boxes: seq<string>)
    requires forall i :: 0 <= i < |boxes| ==> |boxes[i]| <= 1
    ensures |Join(boxes)| <= |boxes|
    ensures |Join(boxes)| == |boxes| <==> forall i :: 0 <= i < |boxes| ==> boxes[i] != ""
  {
    if boxes != [] {
      var front := boxes[..|boxes| - 1];
      JoinFull(front);
      assert forall i :: 0 <= i < |front| ==> front[i] == boxes[i];
    }
  }

  /** Typing a code one character per box spells that code. */
  lemma {:induction false} JoinCharacters(code: string)
    ensures Join(seq(|code|, i requires 0 <= i < |code| => [code[i]])) == code
  {
    if code != [] {
      var front := code[..|code| - 1];
      var boxes := seq(|code|, i requires 0 <= i < |code| => [code[i]]);
      assert boxes[..|boxes| - 1] == seq(|front|, i requires 0 <= i < |front| => [front[i]]);
      JoinCharacters(front);
      assert code == front + [code[|code| - 1]];
    }
  }

  /** The keys `handleKeyDown` reacts to. */
  datatype Key = ArrowRight | ArrowLeft | Backspace | OtherKey

  /** The box that has the focus after `handleOtpChange(index, value)`: the next one when a
      character was typed and there is a next one, otherwise where it was. */
  function FocusAfterChange(focus: nat, index: nat, value: string): (r: nat)
    ensures r != focus ==> value != "" && index < Boxes - 1 && r == index + 1
    ensures value != "" && index < Boxes - 1 ==> r == index + 1
  {
    if value != "" && index < Boxes - 1 then index + 1 else focus
  }

  /** The box that has the focus after `handleKeyDown` in box `index`, whose content is `content`. */
  function FocusAfterKey(focus: nat, key: Key, index: nat, content: string): (r: nat)
    ensures key == ArrowRight && index < Boxes - 1 ==> r == index + 1
    ensures key == ArrowLeft && index > 0 ==> r == index - 1
    ensures key == Backspace && content == "" && index > 0 ==> r == index - 1
    ensures key == Backspace && content != "" ==> r == focus
    ensures key == OtherKey ==> r == focus
    ensures index == 0 && key != ArrowRight ==> r == focus
  {
    match key
    case ArrowRight => if index < Boxes - 1 then index + 1 else focus
    case ArrowLeft => if index > 0 then index - 1 else focus
    case Backspace => if content == "" && index > 0 then index - 1 else focus
    case OtherKey => focus
  }

  /** The body of `POST /api/verify`. */
  datatype VerifyBody = VerifyBody(phone: string, otp: string)

  /** `handleVerifyOTP`: an incomplete code sends nothing; otherwise `GET /api/current-otp` must
      answer with a hash that `compare` (bcrypt's) matches against the code before the verify
      request is sent with it. `current` is that answer's `otp`, `None` when the request fails. */
  function VerifyRequest(boxes: seq<string>, phone: string, current: Option<string>,
                         compare: (string, string) -> bool): (r: Option<VerifyBody>)
    ensures r.Some? <==> |Join(boxes)| == |boxes| && current.Some? && compare(Join(boxes), current.value)
    ensures r.Some? ==> r.value == VerifyBody(phone, Join(boxes))
  {
    var code := Join(boxes);
    if |code| != |boxes| then None
    else if current.None? || !compare(code, current.value) then None
    else Some(VerifyBody(phone, code))
  }

  class OtpForm {
    var step: nat
    var mobileNumber: string
    var otp: seq<string>
    var focus: nat

    ghost predicate Valid()
      reads this
    {
      |otp| == Boxes && focus < Boxes
    }

    /** `useState(1)`, `useState("")` and `Array(6).fill("")`. */
    constructor ()
      ensures Valid() && step == 1 && mobileNumber == "" && focus == 0
      ensures otp == seq(Boxes, _ => "")
    {
      step := 1;
      mobileNumber := "";
      otp := seq(Boxes, _ => "");
      focus := 0;
    }

    method EnterMobile(number: string)
      modifies this
      ensures mobileNumber == number && step == old(step) && otp == old(otp) && focus == old(focus)
    {
      mobileNumber := number;
    }

    /** `handleMobileSubmit`: an empty number sends nothing; otherwise the number is sent and the
        page moves to the code step if the send succeeded. */
    method SubmitMobile(succeeded: bool) returns (request: Option<string>)
      modifies this
      ensures mobileNumber == "" ==> request.None? && step == old(step)
      ensures mobileNumber != "" ==> request == Some(mobileNumber) && step == (if succeeded then 2 else old(step))
      ensures mobileNumber == old(mobileNumber) && otp == old(otp) && focus == old(focus)
    {
      if mobileNumber == "" {
        return None;
      }
      request := Some(mobileNumber);
      if succeeded {
        step := 2;
      }
    }

    /** `handleOtpChange`: only box `index` changes. */
    method OtpChange(index: nat, value: string)
      requires Valid() && index < Boxes
      modifies this
      ensures Valid()
      ensures otp == old(otp)[index := value] && focus == FocusAfterChange(old(focus), index, value)
      ensures step == old(step) && mobileNumber == old(mobileNumber)
    {
      otp := otp[index := value];
      focus := FocusAfterChange(focus, index, value);
    }

    /** `handleKeyDown`: only the focus moves. */
    method KeyDown(key: Key, index: nat)
      requires Valid() && index < Boxes
      modifies this
      ensures Valid()
      ensures focus == FocusAfterKey(old(focus), key, index, otp[index])
      ensures otp == old(otp) && step == old(step) && mobileNumber == old(mobileNumber)
    {
      focus := FocusAfterKey(focus, key, index, otp[index]);
    }

    /** The verify request the button would send now, given the current-code answer. */
    method VerifyPressed(current: Option<string>, compare: (string, string) -> bool) returns (r: Option<VerifyBody>)
      requires Valid()
      ensures r == VerifyRequest(otp, mobileNumber, current, compare)
      ensures r.Some? ==> |r.value.otp| == Boxes
    {
      var code := Join(otp);
      if |code| != |otp| || current.None? || !compare(code, current.value) {
        r := None;
      } else {
        r := Some(VerifyBody(mobileNumber, code));
      }
    }
  }

  /** A six-character code typed box by box is complete and, once the current hash matches it, is
      sent as it was typed. */
  lemma TypedCodeIsSent(code: string, phone: string, hash: string, compare: (string, string) -> bool)
    requires |code| == Boxes && compare(code, hash)
    ensures VerifyRequest(seq(|code|, i requires 0 <= i < |code| => [code[i]]), phone, Some(hash), compare)
      == Some(VerifyBody(phone, code))
  {
    JoinCharacters(code);
  }

  /** A box left empty blocks the request whatever the server answers. */
  lemma EmptyBoxBlocks(boxes: seq<string>, phone: string, current: Option<string>,
                       compare: (string, string) -> bool, k: nat)
    requires forall i :: 0 <= i < |boxes| ==> |boxes[i]| <= 1
    requires k < |boxes| && boxes[k] == ""
    ensures VerifyRequest(boxes, phone, current, compare).None?
  {
    JoinFull(boxes);
  }
}
