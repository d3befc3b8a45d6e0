/**
 * The HR assistant screen (`HRChatbot`): the chat log, the send guard on
 * blank input, the delayed bot reply, and the status banner chosen from the
 * number of faces the camera sees.
 *
 * The face detector is outside the model: its result is the `count`
 * argument of `FacesDetected`.  The one-second reply timer is the explicit
 * step `DeliverReply`; message ids come from the clock and are a parameter.
 */
module HRChatbot {

  datatype Message = Message(id: int, sender: string, text: string)

  const UserSender: string := "user"
  const BotSender: string := "bot"
  const SystemSender: string := "system"
  const BotReplyText: string := "Thank you for your message!"

  // ------------------------------------------------------------- trimming

  /** The characters `String.prototype.trim` removes: WhiteSpace and LineTerminator. */
  predicate IsJsWhitespace(c: char) {
    || c == '\t' || c == '\n' || c == '\U{B}' || c == '\U{C}' || c == '\r' || c == ' '
    || c == '\U{A0}' || c == '\U{1680}' || ('\U{2000}' <= c <= '\U{200A}')
    || c == '\U{2028}' || c == '\U{2029}' || c == '\U{202F}' || c == '\U{205F}'
    || c == '\U{3000}' || c == '\U{FEFF}'
  }

  /** Drops leading whitespace: the rest is a suffix that starts with a visible character. */
  function TrimStart(s: string): (r: string)
    ensures |r| <= |s| && r == s[|s| - |r|..]
    ensures forall i :: 0 <= i < |s| - |r| ==> IsJsWhitespace(s[i])
    ensures r != [] ==> !IsJsWhitespace(r[0])
    decreases |s|
  {
    if s != [] && IsJsWhitespace(s[0]) then TrimStart(s[1..]) else s
  }

  /** Drops trailing whitespace: the rest is a prefix that ends with a visible character. */
  function TrimEnd(s: string): (r: string)
    ensures |r| <= |s| && r == s[..|r|]
    ensures forall i :: |r| <= i < |s| ==> IsJsWhitespace(s[i])
    ensures r != [] ==> !IsJsWhitespace(r[|r| - 1])
    decreases |s|
  {
    if s != [] && IsJsWhitespace(s[|s| - 1]) then TrimEnd(s[..|s| - 1]) else s
  }

  /** `String.prototype.trim`: no whitespace is left at either end. */
  function Trim(s: string): (r: string)
    ensures |r| <= |s|
    ensures r != [] ==> !IsJsWhitespace(r[0]) && !IsJsWhitespace(r[|r| - 1])
  {
    TrimEnd(TrimStart(s))
  }

  /** `input.trim()` is falsy exactly when every character of the input is whitespace. */
  lemma TrimEmptyIffBlank(s: string)
    ensures Trim(s) == "" <==> forall i :: 0 <= i < |s| ==> IsJsWhitespace(s[i])
  {
    var t := TrimStart(s);
    var k := |s| - |t|;
    if Trim(s) == "" {
      // TrimStart leaves a visible first character, which TrimEnd would keep.
      assert t == [];
    } else {
      assert t != [];
      assert s[k] == t[0];
    }
  }

  // ----------------------------------------------------------- face status

  /** The two flags the sync effect derives from the face count. */
  datatype Flags = Flags(inFrame: bool, multiple: bool)

  function FlagsOf(count: nat): (r: Flags)
    ensures r.inFrame <==> count > 0
    ensures r.multiple <==> count > 1
    ensures r.multiple ==> r.inFrame
  {
    Flags(count > 0, count > 1)
  }

  datatype Banner = NoUser | MultipleFaces | UserInFrame

  /** The status panel: three independent conditional banners, in page order. */
  function Banners(f: Flags): (r: seq<Banner>)
    ensures NoUser in r <==> !f.inFrame
    ensures MultipleFaces in r <==> f.multiple
    ensures UserInFrame in r <==> f.inFrame && !f.multiple
  {
    (if !f.inFrame then [NoUser] else [])
    + (if f.multiple then [MultipleFaces] else [])
    + (if f.inFrame && !f.multiple then [UserInFrame] else [])
  }

  /** For flags derived from a face count exactly one banner is shown. */
  lemma ExactlyOneBanner(count: nat)
    ensures |Banners(FlagsOf(count))| == 1
    ensures count == 0 ==> Banners(FlagsOf(count)) == [NoUser]
    ensures count == 1 ==> Banners(FlagsOf(count)) == [UserInFrame]
    ensures count > 1 ==> Banners(FlagsOf(count)) == [MultipleFaces]
  {
  }

  /** Only the flag derivation rules out the two-banner combination. */
  lemma InconsistentFlagsShowTwo()
    ensures Banners(Flags(false, true)) == [NoUser, MultipleFaces]
  {
  }

  // ---------------------------------------------------------------- styles

  datatype Style = UserStyle | BotStyle | SystemStyle

  /** The chat bubble class: user, bot, and everything else as system. */
  function StyleOf(sender: string): (r: Style)
    ensures r == UserStyle <==> sender == UserSender
    ensures r == BotStyle <==> sender == BotSender
    ensures r == SystemStyle <==> sender != UserSender && sender != BotSender
  {
    if sender == UserSender then UserStyle
    else if sender == BotSender then BotStyle
    else SystemStyle
  }

  // --------------------------------------------------------------- the log

  /** How many messages in `msgs` come from `sender`. */
  function CountSender(msgs: seq<Message>, sender: string): (n: nat)
    ensures n <= |msgs|
    decreases |msgs|
  {
    if msgs == [] then 0
    else CountSender(msgs[..|msgs| - 1], sender) + (if msgs[|msgs| - 1].sender == sender then 1 else 0)
  }

  lemma CountAppend(msgs: seq<Message>, m: Message, sender: string)
    ensures CountSender(msgs + [m], sender) == CountSender(msgs, sender) + (if m.sender == sender then 1 else 0)
  {
    assert (msgs + [m])[..|msgs|] == msgs;
  }

  /** The chat screen's state, one field per `useState`. */
  class Chat {
    var messages: seq<Message>
    var input: string
    var facesDetected: nat
    var isUserInFrame: bool
    var multipleFacesDetected: bool
    var pendingReplies: nat   // bot replies scheduled and not yet delivered

    /**
     * The flags agree with the face count, and every user message has had
     * its reply delivered or has one still scheduled.
     */
    ghost predicate Valid()
      reads this
    {
      && Flags(isUserInFrame, multipleFacesDetected) == FlagsOf(facesDetected)
      && CountSender(messages, BotSender) + pendingReplies == CountSender(messages, UserSender)
    }

    constructor ()
      ensures Valid()
      ensures messages == [] && input == "" && facesDetected == 0 && pendingReplies == 0
    {
      messages, input, facesDetected := [], "", 0;
      isUserInFrame, multipleFacesDetected, pendingReplies := false, false, 0;
    }

    /** The text field's change handler. */
    method SetInput(text: string)
      modifies this`input
      ensures input == text
    {
      input := text;
    }

    /**
     * `handleSendMessage`: blank input changes nothing; otherwise one user
     * message with the untrimmed text is appended, the field is cleared and
     * a reply is scheduled.
     */
    method SendMessage(now: int)
      requires Valid()
      modifies this
      ensures Valid()
      ensures Trim(old(input)) == "" ==>
        messages == old(messages) && input == old(input) && pendingReplies == old(pendingReplies)
      ensures Trim(old(input)) != "" ==>
        && messages == old(messages) + [Message(now, UserSender, old(input))]
        && input == ""
        && pendingReplies == old(pendingReplies) + 1
      ensures facesDetected == old(facesDetected)
    {
      if Trim(input) != "" {
        CountAppend(messages, Message(now, UserSender, input), UserSender);
        CountAppend(messages, Message(now, UserSender, input), BotSender);
        messages := messages + [Message(now, UserSender, input)];
        input := "";
        pendingReplies := pendingReplies + 1;
      }
    }

    /** The reply timer firing: one bot message goes to the end of the log. */
    method DeliverReply(now: int)
      requires Valid() && pendingReplies > 0
      modifies this
      ensures Valid()
      ensures messages == old(messages) + [Message(now, BotSender, BotReplyText)]
      ensures pendingReplies == old(pendingReplies) - 1
      ensures input == old(input) && facesDetected == old(facesDetected)
    {
      CountAppend(messages, Message(now, BotSender, BotReplyText), UserSender);
      CountAppend(messages, Message(now, BotSender, BotReplyText), BotSender);
      messages := messages + [Message(now, BotSender, BotReplyText)];
      pendingReplies := pendingReplies - 1;
    }

    /** `addSystemMessage`: one system message goes to the end of the log. */
    method AddSystemMessage(text: string, now: int)
      requires Valid()
      modifies this
      ensures Valid()
      ensures messages == old(messages) + [Message(now, SystemSender, text)]
      ensures input == old(input) && pendingReplies == old(pendingReplies)
      ensures facesDetected == old(facesDetected)
    {
      CountAppend(messages, Message(now, SystemSender, text), UserSender);
      CountAppend(messages, Message(now, SystemSender, text), BotSender);
      messages := messages + [Message(now, SystemSender, text)];
    }

    /** A detector result followed by the effect that derives the two flags. */
    method FacesDetected(count: nat)
      requires Valid()
      modifies this
      ensures Valid()
      ensures facesDetected == count
      ensures isUserInFrame == (count > 0) && multipleFacesDetected == (count > 1)
      ensures messages == old(messages) && input == old(input) && pendingReplies == old(pendingReplies)
    {
      facesDetected := count;
      isUserInFrame := count > 0;
      multipleFacesDetected := count > 1;
    }

    /** The banners on screen; exactly one in every valid state. */
    method StatusBanners() returns (r: seq<Banner>)
      requires Valid()
      ensures |r| == 1
      ensures r == [NoUser] <==> facesDetected == 0
      ensures r == [UserInFrame] <==> facesDetected == 1
      ensures r == [MultipleFaces] <==> facesDetected > 1
    {
      r := Banners(Flags(isUserInFrame, multipleFacesDetected));
      ExactlyOneBanner(facesDetected);
    }
  }
}
