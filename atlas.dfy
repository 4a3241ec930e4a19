/**
 * The Atlas chat panel (src/components/Atlas/AtlasModal.tsx): a transcript of
 * messages and an input buffer. The deferred canned reply that `handleSend`
 * schedules with `setTimeout` is a separate `Reply` step; `pendingReplies`
 * counts the replies scheduled and not yet delivered.
 */
module Atlas {
  import Text

  /** One bubble of the transcript. */
  datatype Message = Message(text: string, isUser: bool)

  const GreetingOpening: string := "Here's a summary of reviews for "

  const GreetingBody: string :=
    ":\n\n"
    + "• Excellent service and atmosphere\n"
    + "• Clean and well-maintained facilities\n"
    + "• Friendly and professional staff\n"
    + "• Reasonable pricing for the quality\n\n"
    + "Feel free to ask any specific questions!"

  /** The text of the assistant reply that follows every accepted send. */
  const CannedReply: string :=
    "Based on customer reviews, I can help answer that. What specific aspect would you like to know more about?"

  /** The assistant message the transcript is reset to when the panel is shown. */
  function Greeting(placeName: string): (m: Message)
    ensures !m.isUser
    ensures var o := GreetingOpening + placeName;
      |o| <= |m.text| && m.text[..|o|] == o
  {
    var o := GreetingOpening + placeName;
    var m := Message(o + GreetingBody, false);
    assert m.text[..|o|] == o;
    m
  }

  /** A send is accepted exactly when the input is not empty after JavaScript's `trim()`. */
  predicate Sendable(input: string) {
    !Text.AllIn(input, Text.JsWhitespace)
  }

  lemma SendableIffTrimNonEmpty(input: string)
    ensures Sendable(input) <==> Text.Strip(input, Text.JsWhitespace) != ""
  {
  }

  /**
   * What every transcript looks like: user messages carry sendable text, and an
   * assistant message is either the canned reply or, in first place, a greeting
   * (a text opening with "Here's a summary of reviews for ").
   */
  ghost predicate WellFormed(ms: seq<Message>) {
    forall i :: 0 <= i < |ms| ==>
      if ms[i].isUser then Sendable(ms[i].text)
      else ms[i].text == CannedReply || (i == 0 && GreetingOpening <= ms[i].text)
  }

  /** The number of user messages in a transcript. */
  function UserCount(ms: seq<Message>): nat
    decreases |ms|
  {
    if ms == [] then 0 else UserCount(ms[..|ms| - 1]) + (if ms[|ms| - 1].isUser then 1 else 0)
  }

  class AtlasModal {
    /** The `isVisible` and `placeName` props of the last render. */
    var isVisible: bool
    var placeName: string
    /** The controlled value of the text field. */
    var input: string
    var messages: seq<Message>
    /** Canned replies scheduled by accepted sends and not yet appended. */
    var pendingReplies: nat

    ghost predicate Valid()
      reads this
    {
      WellFormed(messages)
    }

    /** First render: state starts empty, then the effect runs once with the initial props. */
    constructor (isVisible: bool, placeName: string)
      ensures Valid()
      ensures this.isVisible == isVisible && this.placeName == placeName
      ensures input == "" && pendingReplies == 0
      ensures messages == if isVisible then [Greeting(placeName)] else []
    {
      this.isVisible := isVisible;
      this.placeName := placeName;
      input := "";
      pendingReplies := 0;
      messages := if isVisible then [Greeting(placeName)] else [];
    }

    /**
     * A render with new props. The effect depends on `isVisible` and `placeName`:
     * when either differs from the last render and the panel is visible, the
     * transcript becomes the single greeting for the new name. Hiding the panel,
     * or a render with unchanged props, keeps the transcript. Scheduled replies
     * are not cancelled and the input is kept.
     */
    method Rerender(visible: bool, name: string)
      requires Valid()
      modifies this
      ensures Valid()
      ensures isVisible == visible && placeName == name
      ensures input == old(input) && pendingReplies == old(pendingReplies)
      ensures messages ==
        if visible && (visible != old(isVisible) || name != old(placeName))
        then [Greeting(name)] else old(messages)
    {
      var changed := visible != isVisible || name != placeName;
      isVisible, placeName := visible, name;
      if visible && changed {
        messages := [Greeting(name)];
      }
    }

    /** The text field's `onChange`. */
    method Type(text: string)
      requires Valid()
      modifies this`input
      ensures Valid() && input == text
    {
      input := text;
    }

    /**
     * `handleSend`, from the Send button or the Enter key. A blank input changes
     * nothing. Otherwise the untrimmed input is appended as a user message, the
     * input is cleared, and one canned reply is scheduled.
     */
    method Send()
      requires Valid()
      modifies this
      ensures Valid()
      ensures isVisible == old(isVisible) && placeName == old(placeName)
      ensures !Sendable(old(input)) ==>
        messages == old(messages) && input == old(input) && pendingReplies == old(pendingReplies)
      ensures Sendable(old(input)) ==>
        messages == old(messages) + [Message(old(input), true)]
        && input == "" && pendingReplies == old(pendingReplies) + 1
    {
      if !Sendable(input) {
        return;
      }
      messages := messages + [Message(input, true)];
      input := "";
      pendingReplies := pendingReplies + 1;
    }

    /** A scheduled reply fires: the canned assistant message is appended at the end. */
    method Reply()
      requires Valid() && pendingReplies > 0
      modifies this
      ensures Valid()
      ensures messages == old(messages) + [Message(CannedReply, false)]
      ensures pendingReplies == old(pendingReplies) - 1
      ensures input == old(input) && isVisible == old(isVisible) && placeName == old(placeName)
    {
      messages := messages + [Message(CannedReply, false)];
      pendingReplies := pendingReplies - 1;
    }
  }

  /** A transcript only grows between resets: sends and replies keep every earlier message. */
  method SendThenReply(m: AtlasModal, text: string)
    requires m.Valid() && Sendable(text)
    modifies m
    ensures m.Valid()
    ensures |m.messages| == |old(m.messages)| + 2
    ensures m.messages[..|old(m.messages)|] == old(m.messages)
    ensures m.messages[|old(m.messages)|] == Message(text, true)
    ensures m.messages[|old(m.messages)| + 1] == Message(CannedReply, false)
    ensures UserCount(m.messages) == UserCount(old(m.messages)) + 1
    ensures m.input == "" && m.pendingReplies == old(m.pendingReplies)
    ensures m.isVisible == old(m.isVisible) && m.placeName == old(m.placeName)
  {
    m.Type(text);
    m.Send();
    m.Reply();
    var before := old(m.messages);
    assert m.messages == before + [Message(text, true)] + [Message(CannedReply, false)];
    assert m.messages[..|m.messages| - 1] == before + [Message(text, true)];
    assert (before + [Message(text, true)])[..|before|] == before;
  }
}
