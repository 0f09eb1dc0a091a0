/**
 * The one-time-code editor: a fixed number of one-character slots, edited
 * one slot at a time, emitting the concatenated code after every accepted
 * edit and moving the focus between slots.
 */
module OtpInput {
  import opened Wrappers

  /** `/^\d$/`: exactly one ASCII digit. */
  predicate IsDigitString(text: string) {
    |text| == 1 && '0' <= text[0] <= '9'
  }

  /** A slot is empty or holds one digit. */
  predicate IsSlot(text: string) {
    text == "" || IsDigitString(text)
  }

  /** `Array.prototype.join('')` over the slots. */
  function Join(slots: seq<string>): string {
    if slots == [] then "" else slots[0] + Join(slots[1..])
  }

  predicate AllDigits(s: string) {
    forall i :: 0 <= i < |s| ==> '0' <= s[i] <= '9'
  }

  /** The emitted code of well-formed slots is all digits and no longer than the number of slots. */
  lemma {:induction false} JoinOfSlots(slots: seq<string>)
    requires forall i :: 0 <= i < |slots| ==> IsSlot(slots[i])
    ensures AllDigits(Join(slots)) && |Join(slots)| <= |slots|
  {
    if slots != [] {
      JoinOfSlots(slots[1..]);
    }
  }

  /** With every slot filled, the code has exactly one digit per slot, in slot order. */
  lemma {:induction false} JoinOfFullSlots(slots: seq<string>)
    requires forall i :: 0 <= i < |slots| ==> |slots[i]| == 1 && '0' <= slots[i][0] <= '9'
    ensures |Join(slots)| == |slots|
    ensures forall i :: 0 <= i < |slots| ==> Join(slots)[i] == slots[i][0]
  {
    if slots != [] {
      JoinOfFullSlots(slots[1..]);
    }
  }

  class OtpField {
    /** The `length` prop: how many slots are rendered. */
    const length: nat
    /** The `otp` state: one string per slot. */
    var otp: seq<string>

    ghost predicate Valid()
      reads this
    {
      |otp| == length && forall i :: 0 <= i < |otp| ==> IsSlot(otp[i])
    }

    /** `useState(Array(length).fill(''))`: every slot starts empty. */
    constructor (length: nat)
      ensures Valid() && this.length == length
      ensures otp == seq(length, _ => "")
    {
      this.length := length;
      otp := seq(length, _ => "");
    }

    /**
     * `handleChange(text, index)`. Non-empty text that is not one digit is
     * ignored. Otherwise slot `index` takes the text, the focus moves to the
     * next slot when a digit was typed and one follows, and the new code is
     * emitted.
     */
    method HandleChange(text: string, index: nat) returns (focus: Option<nat>, emitted: Option<string>)
      requires Valid() && index < length
      modifies this
      ensures Valid()
      ensures text != "" && !IsDigitString(text) ==> otp == old(otp) && focus.None? && emitted.None?
      ensures IsSlot(text) ==>
                otp == old(otp)[index := text]
                && (focus.Some? <==> text != "" && index < length - 1)
                && (focus.Some? ==> focus.value == index + 1)
                && emitted == Some(Join(otp))
    {
      if text != "" && !IsDigitString(text) {
        return None, None;
      }
      var newOtp := otp[index := text];
      otp := newOtp;
      focus := None;
      if text != "" && index < length - 1 {
        focus := Some(index + 1);
      }
      emitted := Some(Join(newOtp));
    }

    /**
     * `handleKeyPress(key, index)`. Backspace empties slot `index`, moves the
     * focus back one slot unless on the first, and emits the new code; any
     * other key does nothing.
     */
    method HandleKeyPress(key: string, index: nat) returns (focus: Option<nat>, emitted: Option<string>)
      requires Valid() && index < length
      modifies this
      ensures Valid()
      ensures key != "Backspace" ==> otp == old(otp) && focus.None? && emitted.None?
      ensures key == "Backspace" ==>
                otp == old(otp)[index := ""]
                && (focus.Some? <==> index > 0)
                && (focus.Some? ==> focus.value == index - 1)
                && emitted == Some(Join(otp))
    {
      if key != "Backspace" {
        return None, None;
      }
      var newOtp := otp[index := ""];
      otp := newOtp;
      focus := None;
      if index > 0 {
        focus := Some(index - 1);
      }
      emitted := Some(Join(newOtp));
    }

    /** What the field emits is always a code of at most `length` digits. */
    lemma EmittedIsDigits()
      requires Valid()
      ensures AllDigits(Join(otp)) && |Join(otp)| <= length
    {
      JoinOfSlots(otp);
    }
  }
}
