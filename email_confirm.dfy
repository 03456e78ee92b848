/** The e-mail confirmation page: four one-character code cells, a resend
    countdown and the "continue" button that checks the code is complete. */
module EmailConfirm {
  import opened Wrappers
  import opened Strings

  /** The cells the page starts with, and returns to on a resend. */
  const InitialCode: seq<string> := ["1", "2", "5", "0"]

  /** Seconds before "Resend Code" appears. */
  const ResendDelay: nat := 10

  const IncompleteMessage: string := "Please enter the complete 4-digit code"
  const InvalidMessage: string := "Invalid verification code. Please try again."

  /** Where a successful verification navigates. */
  const NextPage: string := "/enable-permission"

  /** `code.join('')`. */
  function Join(cells: seq<string>): (r: string)
    ensures |r| == 0 <==> forall i :: 0 <= i < |cells| ==> cells[i] == ""
  {
    if cells == [] then "" else cells[0] + Join(cells[1..])
  }

  /** With cells of at most one character, the joined length is at most the
      number of cells, and reaches it exactly when no cell is empty. */
  lemma {:induction false} JoinLength(cells: seq<string>)
    requires forall i :: 0 <= i < |cells| ==> |cells[i]| <= 1
    ensures |Join(cells)| <= |cells|
    ensures |Join(cells)| == |cells| <==> forall i :: 0 <= i < |cells| ==> cells[i] != ""
  {
    if cells != [] {
      JoinLength(cells[1..]);
      assert forall i :: 1 <= i < |cells| ==> cells[i] == cells[1..][i - 1];
    }
  }

  /** The characters a paste writes: its digits, at most the first four. */
  function PasteDigits(text: string): (r: string)
    ensures |r| <= 4 && AllDigits(r)
    ensures |r| == if |DigitsOnly(text)| < 4 then |DigitsOnly(text)| else 4
    ensures r == DigitsOnly(text)[..|r|]
  {
    Slice(DigitsOnly(text), 0, 4)
  }

  /** The cells after pasting `p`: cell `i` holds `p[i]` for `i < |p|`, the
      other cells keep their contents. */
  function Pasted(cells: seq<string>, p: string): (r: seq<string>)
    requires |p| <= |cells|
    ensures |r| == |cells|
    ensures forall i :: 0 <= i < |p| ==> r[i] == [p[i]]
    ensures forall i :: |p| <= i < |cells| ==> r[i] == cells[i]
  {
    seq(|cells|, i requires 0 <= i < |cells| => if i < |p| then [p[i]] else cells[i])
  }

  /** A paste of four digits fills the code with exactly those digits. */
  lemma PasteFour(cells: seq<string>, p: string)
    requires |cells| == 4 && |p| == 4
    ensures Join(Pasted(cells, p)) == p
  {
    var r := Pasted(cells, p);
    assert r[1..][1..][1..][1..] == [];
    assert Join(r[1..][1..][1..]) == [p[3]];
    assert Join(r[1..][1..]) == [p[2]] + [p[3]];
    assert Join(r) == [p[0]] + [p[1]] + [p[2]] + [p[3]];
  }

  /** What the continue button leads to: the code is rejected as incomplete,
      or verification starts with the code as it was when clicked. */
  datatype ContinueOutcome = Incomplete | Verifying(fullCode: string)

  class EmailConfirmPage {
    const code: array<string>
    var countdown: nat
    var canResend: bool
    var isLoading: bool
    var error: string
    /** The cell that has the focus; `None` before any handler moved it. */
    var focus: Option<nat>

    /** Four cells of at most one character each; "Resend Code" is offered
        exactly when the countdown has run out. */
    ghost predicate Valid()
      reads this, code
    {
      code.Length == 4
      && (forall i :: 0 <= i < 4 ==> |code[i]| <= 1)
      && (canResend <==> countdown == 0)
      && (focus.Some? ==> focus.value < 4)
    }

    constructor ()
      ensures Valid() && fresh(code)
      ensures code[..] == InitialCode && countdown == ResendDelay
      ensures !canResend && !isLoading && error == "" && focus == None
    {
      code := new string[] ["1", "2", "5", "0"];
      countdown := ResendDelay;
      canResend := false;
      isLoading := false;
      error := "";
      focus := None;
    }

    /** The continue button is disabled while verifying or while the joined
        code is not four characters long, that is, while a cell is empty. */
    function ContinueDisabled(): (disabled: bool)
      requires Valid()
      reads this, code
      ensures disabled <==> isLoading || exists i :: 0 <= i < 4 && code[i] == ""
    {
      JoinLength(code[..]);
      assert forall i :: 0 <= i < 4 ==> code[..][i] == code[i];
      isLoading || |Join(code[..])| != 4
    }

    /** `handleInputChange(index, value)`: a value longer than one character
        is ignored; otherwise only cell `index` changes, the error is cleared,
        and the focus moves on when the value is non-empty and a next cell
        exists. */
    method InputChange(index: nat, value: string)
      requires Valid() && index < 4
      modifies this, code
      ensures Valid()
      ensures |value| > 1 ==> code[..] == old(code[..]) && error == old(error) && focus == old(focus)
      ensures |value| <= 1 ==>
                code[..] == old(code[..])[index := value] && error == ""
                && focus == if value != "" && index < 3 then Some(index + 1) else old(focus)
      ensures countdown == old(countdown) && canResend == old(canResend)
      ensures isLoading == old(isLoading)
    {
      if |value| > 1 {
        return;
      }
      code[index] := value;
      error := "";
      if value != "" && index < 3 {
        focus := Some(index + 1);
      }
    }

    /** `handleKeyDown`: Backspace in an empty cell moves the focus back one
        cell, except in the first. */
    method KeyDown(index: nat, key: string)
      requires Valid() && index < 4
      modifies this
      ensures Valid()
      ensures focus == if key == "Backspace" && code[index] == "" && index > 0
                       then Some(index - 1) else old(focus)
      ensures countdown == old(countdown) && canResend == old(canResend)
      ensures isLoading == old(isLoading) && error == old(error)
    {
      if key == "Backspace" && code[index] == "" && index > 0 {
        focus := Some(index - 1);
      }
    }

    /** `handlePaste`: the first four digits of the pasted text go into the
        first cells, the remaining cells keep their contents, and the focus
        goes to the cell after the last one written (at most the last cell). */
    method Paste(text: string)
      requires Valid()
      modifies this, code
      ensures Valid()
      ensures code[..] == Pasted(old(code[..]), PasteDigits(text))
      ensures focus == Some(if |PasteDigits(text)| < 3 then |PasteDigits(text)| else 3)
      ensures countdown == old(countdown) && canResend == old(canResend)
      ensures isLoading == old(isLoading) && error == old(error)
    {
      var pasted := PasteDigits(text);
      for i := 0 to |pasted|
        modifies code
        invariant code[..] == Pasted(old(code[..]), pasted[..i])
      {
        code[i] := [pasted[i]];
      }
      assert pasted[..|pasted|] == pasted;
      focus := Some(if |pasted| < 3 then |pasted| else 3);
    }

    /** The validation part of `handleContinue`: an incomplete code sets the
        error and changes nothing else; a complete one clears the error and
        starts verifying with the joined code. */
    method Continue() returns (outcome: ContinueOutcome)
      requires Valid()
      modifies this
      ensures Valid()
      ensures |Join(code[..])| != 4 ==>
                outcome == Incomplete && error == IncompleteMessage && isLoading == old(isLoading)
      ensures |Join(code[..])| == 4 ==>
                outcome == Verifying(Join(code[..])) && isLoading && error == ""
      ensures outcome.Verifying? ==> |outcome.fullCode| == 4
      ensures countdown == old(countdown) && canResend == old(canResend) && focus == old(focus)
    {
      var fullCode := Join(code[..]);
      if |fullCode| != 4 {
        error := IncompleteMessage;
        outcome := Incomplete;
        return;
      }
      isLoading := true;
      error := "";
      outcome := Verifying(fullCode);
    }

    /** The part of `handleContinue` after the simulated delay, on the code
        captured when the button was clicked: any four-character code is
        accepted and the page navigates on; verifying stops either way. */
    method FinishVerification(fullCode: string) returns (destination: Option<string>)
      requires Valid()
      modifies this
      ensures Valid()
      ensures !isLoading
      ensures |fullCode| == 4 ==> destination == Some(NextPage) && error == old(error)
      ensures |fullCode| != 4 ==> destination == None && error == InvalidMessage
      ensures countdown == old(countdown) && canResend == old(canResend) && focus == old(focus)
    {
      if |fullCode| == 4 {
        destination := Some(NextPage);
      } else {
        error := InvalidMessage;
        destination := None;
      }
      isLoading := false;
    }

    /** One second of the countdown effect: the count drops by one while it
        is positive, and "Resend Code" is offered once it reaches zero. */
    method Tick()
      requires Valid()
      modifies this
      ensures Valid()
      ensures countdown == if old(countdown) > 0 then old(countdown) - 1 else 0
      ensures canResend <==> countdown == 0
      ensures isLoading == old(isLoading) && error == old(error) && focus == old(focus)
    {
      if countdown > 0 {
        countdown := countdown - 1;
      }
      if countdown == 0 {
        canResend := true;
      }
    }

    /** `handleResend`: the countdown restarts, the code returns to its
        initial cells, the error is cleared and the first cell gets the
        focus. */
    method Resend()
      requires Valid()
      modifies this, code
      ensures Valid()
      ensures countdown == ResendDelay && !canResend
      ensures code[..] == InitialCode && error == "" && focus == Some(0)
      ensures isLoading == old(isLoading)
    {
      countdown := ResendDelay;
      canResend := false;
      code[0], code[1], code[2], code[3] := "1", "2", "5", "0";
      error := "";
      focus := Some(0);
    }
  }
}
