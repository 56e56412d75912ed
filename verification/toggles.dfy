/**
 * The two expand/collapse buttons of the review card: one for the review
 * message, one for the supplier's reply. Each flips a flag, adds or removes
 * the `is-close` class on its message and relabels its button with the
 * tool's current "see more" or "show less" text.
 */
module Toggles {

  const IsClose: string := "is-close"

  /** One toggle step on values: the flag, the class set and the label. */
  datatype Toggle = Toggle(expanded: bool, classes: set<string>, caption: string)

  /**
   * The step both toggles take, with the tool's two label texts: the flag
   * flips, `is-close` follows it, the button offers the other state, and no
   * other class changes.
   */
  function Flip(t: Toggle, moreText: string, moreCloseText: string): (r: Toggle)
    ensures r.expanded == !t.expanded
    ensures r.expanded <==> IsClose !in r.classes
    ensures r.caption == (if r.expanded then moreCloseText else moreText)
    ensures r.classes - {IsClose} == t.classes - {IsClose}
  {
    if t.expanded then Toggle(false, t.classes + {IsClose}, moreText)
    else Toggle(true, t.classes - {IsClose}, moreCloseText)
  }

  predicate Coherent(t: Toggle, moreText: string, moreCloseText: string) {
    (t.expanded <==> IsClose !in t.classes) && t.caption == (if t.expanded then moreCloseText else moreText)
  }

  /** The state `toggleMore` and `toggleReplyMore` read and write. */
  class MessageToggles {
    var isMore: bool
    var messageClasses: set<string>
    var moreLabel: string
    var isReplyMore: bool
    var replyClasses: set<string>
    var replyLabel: string
    /** The label texts, after any guest-language override. */
    var moreText: string
    var moreCloseText: string

    /** The message toggle as a value. */
    function Message(): Toggle
      reads this
    {
      Toggle(isMore, messageClasses, moreLabel)
    }

    /** The reply toggle as a value. */
    function Reply(): Toggle
      reads this
    {
      Toggle(isReplyMore, replyClasses, replyLabel)
    }

    /**
     * The state once `addReviewData` has run: both flags false, the buttons
     * showing "see more", and `is-close` on each message taller than 70 px.
     */
    constructor (messageOverflows: bool, replyOverflows: bool, messageBase: set<string>, replyBase: set<string>,
                 moreText: string, moreCloseText: string)
      ensures !isMore && !isReplyMore
      ensures messageClasses == messageBase + (if messageOverflows then {IsClose} else {})
      ensures replyClasses == replyBase + (if replyOverflows then {IsClose} else {})
      ensures moreLabel == moreText && replyLabel == moreText
      ensures this.moreText == moreText && this.moreCloseText == moreCloseText
      ensures messageOverflows ==> Coherent(Message(), moreText, moreCloseText)
      ensures replyOverflows ==> Coherent(Reply(), moreText, moreCloseText)
    {
      isMore := false;
      isReplyMore := false;
      messageClasses := messageBase + (if messageOverflows then {IsClose} else {});
      replyClasses := replyBase + (if replyOverflows then {IsClose} else {});
      moreLabel := moreText;
      replyLabel := moreText;
      this.moreText := moreText;
      this.moreCloseText := moreCloseText;
    }

    /** `toggleMore`: collapse an expanded message, expand a collapsed one; the reply is untouched. */
    method ToggleMore()
      modifies this`isMore, this`messageClasses, this`moreLabel
      ensures Message() == Flip(old(Message()), moreText, moreCloseText)
    {
      if isMore {
        messageClasses := messageClasses + {IsClose};
        moreLabel := moreText;
        isMore := false;
        return;
      }
      messageClasses := messageClasses - {IsClose};
      moreLabel := moreCloseText;
      isMore := true;
    }

    /** `toggleReplyMore`: the same for the supplier's reply; the message is untouched. */
    method ToggleReplyMore()
      modifies this`isReplyMore, this`replyClasses, this`replyLabel
      ensures Reply() == Flip(old(Reply()), moreText, moreCloseText)
    {
      if isReplyMore {
        replyClasses := replyClasses + {IsClose};
        replyLabel := moreText;
        isReplyMore := false;
        return;
      }
      replyClasses := replyClasses - {IsClose};
      replyLabel := moreCloseText;
      isReplyMore := true;
    }
  }

  /** Flipping twice is the identity on coherent states, and only on them. */
  lemma FlipTwice(t: Toggle, moreText: string, moreCloseText: string)
    ensures Flip(Flip(t, moreText, moreCloseText), moreText, moreCloseText) == t <==> Coherent(t, moreText, moreCloseText)
  {
    var once := Flip(t, moreText, moreCloseText);
    var twice := Flip(once, moreText, moreCloseText);
    if Coherent(t, moreText, moreCloseText) {
      if t.expanded {
        assert twice.classes == t.classes;
      } else {
        assert twice.classes == t.classes;
      }
    }
  }

  /**
   * A short message never got `is-close` and its button is never shown; were
   * it clicked, the first click would only relabel the button, leaving the
   * message as it is.
   */
  lemma ShortMessageFirstFlip(base: set<string>, moreText: string, moreCloseText: string)
    requires IsClose !in base
    ensures Flip(Toggle(false, base, moreText), moreText, moreCloseText) == Toggle(true, base, moreCloseText)
  {
  }
}
