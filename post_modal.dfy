/**
 * The post composer dialog: a draft of at most 300 characters, and a
 * confirmation step before an unsent draft is thrown away. Its two
 * callbacks, `onCreatePost` and `onClose`, belong to the shell; each
 * handler returns which of them it invoked, in order.
 */
module PostModal {
  import opened Common

  /** The textarea's `maxLength`. */
  const MaxLength := 300

  /** The remaining count turns red below this many characters. */
  const LowThreshold := 50

  /** The callbacks a handler invokes: `onCreatePost(created)` if present, then `onClose()` if `closed`. */
  datatype Effects = Effects(created: Option<string>, closed: bool)

  const NoEffects := Effects(None, false)

  /**
   * `remainingCharacters`: how many more characters the draft may take.
   * It is 300 only for the empty draft, and never negative within the cap.
   */
  function Remaining(draft: string): (r: int)
    ensures r <= MaxLength
    ensures r == MaxLength <==> draft == ""
    ensures |draft| <= MaxLength ==> r >= 0
  {
    MaxLength - |draft|
  }

  /** `isLowOnCharacters`: the count turns red exactly when the draft is longer than 250 characters. */
  function IsLow(draft: string): (low: bool)
    ensures low <==> |draft| > 250
  {
    Remaining(draft) < LowThreshold
  }

  /** Within the textarea's cap the remaining count is between 0 and 300, and counts down by one per character. */
  lemma RemainingBounds(draft: string, c: char)
    requires |draft| <= MaxLength
    ensures 0 <= Remaining(draft) <= MaxLength
    ensures Remaining(draft) == MaxLength <==> draft == ""
    ensures Remaining(draft + [c]) == Remaining(draft) - 1
  {
  }

  /** What the dialog shows: nothing while closed, otherwise the counter and whether the confirmation is up. */
  datatype View = View(remaining: int, low: bool, confirmOpen: bool)

  function Render(isOpen: bool, draft: string, confirmOpen: bool): (r: Option<View>)
    ensures r.None? <==> !isOpen
    ensures r.Some? ==> (r.value.low <==> |draft| > 250)
    ensures r.Some? ==> r.value.remaining + |draft| == MaxLength && r.value.confirmOpen == confirmOpen
  {
    if !isOpen then None else Some(View(Remaining(draft), IsLow(draft), confirmOpen))
  }

  /** The state of the composer component. */
  class Composer {
    var newPost: string
    var isConfirmOpen: bool

    ghost predicate Valid()
      reads this
    {
      |newPost| <= MaxLength
    }

    constructor ()
      ensures Valid() && newPost == "" && !isConfirmOpen
    {
      newPost := "";
      isConfirmOpen := false;
    }

    /** The textarea's `onChange`; the browser keeps the value within `maxLength`. */
    method SetDraft(value: string)
      requires |value| <= MaxLength
      modifies this
      ensures Valid() && newPost == value && isConfirmOpen == old(isConfirmOpen)
    {
      newPost := value;
    }

    /**
     * `handleSubmit`: a draft that is not blank is handed to `onCreatePost`
     * exactly as typed, then the draft is cleared and `onClose` called; a
     * blank draft does nothing at all.
     */
    method Submit() returns (e: Effects)
      requires Valid()
      modifies this
      ensures Valid() && isConfirmOpen == old(isConfirmOpen)
      ensures !IsBlank(old(newPost)) ==> e == Effects(Some(old(newPost)), true) && newPost == ""
      ensures IsBlank(old(newPost)) ==> e == NoEffects && newPost == old(newPost)
    {
      if !IsBlank(newPost) {
        e := Effects(Some(newPost), true);
        newPost := "";
      } else {
        e := NoEffects;
      }
    }

    /**
     * `handleClose`: any non-empty draft, even one of white space only,
     * opens the confirmation instead of closing; an empty draft closes.
     */
    method Close() returns (e: Effects)
      requires Valid()
      modifies this
      ensures Valid() && newPost == old(newPost)
      ensures old(newPost) != "" ==> isConfirmOpen && e == NoEffects
      ensures old(newPost) == "" ==> isConfirmOpen == old(isConfirmOpen) && e == Effects(None, true)
    {
      if newPost != "" {
        isConfirmOpen := true;
        e := NoEffects;
      } else {
        newPost := "";
        e := Effects(None, true);
      }
    }

    /** `handleConfirmDiscard`: the draft is dropped, the dialog closed and the confirmation hidden. */
    method ConfirmDiscard() returns (e: Effects)
      modifies this
      ensures Valid() && newPost == "" && !isConfirmOpen && e == Effects(None, true)
    {
      newPost := "";
      e := Effects(None, true);
      isConfirmOpen := false;
    }

    /** `handleCancelDiscard`: only the confirmation goes away; the draft stays. */
    method CancelDiscard()
      modifies this
      ensures !isConfirmOpen && newPost == old(newPost)
    {
      isConfirmOpen := false;
    }

    /** The window `keydown` listener: Escape acts exactly as `handleClose`; other keys do nothing. */
    method KeyDown(key: string) returns (e: Effects)
      requires Valid()
      modifies this
      ensures Valid() && newPost == old(newPost)
      ensures key == "Escape" && old(newPost) != "" ==> isConfirmOpen && e == NoEffects
      ensures key == "Escape" && old(newPost) == "" ==> isConfirmOpen == old(isConfirmOpen) && e == Effects(None, true)
      ensures key != "Escape" ==> isConfirmOpen == old(isConfirmOpen) && e == NoEffects
    {
      if key == "Escape" {
        e := Close();
      } else {
        e := NoEffects;
      }
    }
  }
}
