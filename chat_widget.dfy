/** The browser chat widget (src/scripts/app.js): the offline category classifier, the canned
    response pools and the draw from them, and the `ChatApp` turn state machine around
    `sendMessage`. DOM rendering is reduced to the sequence of messages the widget shows. */
module ChatWidget {

  import opened Wrappers
  import opened Text

  // ---------------------------------------------------------------------------------
  // Classifier
  // ---------------------------------------------------------------------------------

  datatype Category = Greeting | Help | Thanks | Weather | Time | Name | Capabilities | Default

  /** Position of a category in the classifier's chain; `Default` comes after every rule. */
  function Rank(c: Category): nat
  {
    match c
    case Greeting => 0
    case Help => 1
    case Thanks => 2
    case Weather => 3
    case Time => 4
    case Name => 5
    case Capabilities => 6
    case Default => 7
  }

  /** One of the words `good\s*(morning|afternoon|evening)` expects after the white space. */
  predicate DayWord(t: String)
  {
    StartsWith(t, "morning") || StartsWith(t, "afternoon") || StartsWith(t, "evening")
  }

  /** `good\s*(morning|afternoon|evening)` at the start of `t`, skipping the white space greedily. */
  predicate GoodDayRule(t: String)
  {
    StartsWith(t, "good") && DayWord(TrimStart(t[4..], IsJsSpace))
  }

  /** The same pattern read as a regular expression: some run of white space, of any length,
      between "good" and the word. */
  ghost predicate GoodDayRegex(t: String)
  {
    exists k :: 4 <= k <= |t| && StartsWith(t, "good") && AllSpace(t[4..k], IsJsSpace) && DayWord(t[k..])
  }

  /** `^(hi|hello|hey|greetings|good\s*(morning|afternoon|evening))`: a prefix test. */
  predicate GreetingRule(t: String)
  {
    StartsWith(t, "hi") || StartsWith(t, "hello") || StartsWith(t, "hey")
    || StartsWith(t, "greetings") || GoodDayRule(t)
  }

  /** `help|assist|what can you do|how do you work`. */
  predicate HelpRule(t: String)
  {
    Contains(t, "help") || Contains(t, "assist") || Contains(t, "what can you do")
    || Contains(t, "how do you work")
  }

  /** `thank|thanks|appreciate`. */
  predicate ThanksRule(t: String)
  {
    Contains(t, "thank") || Contains(t, "thanks") || Contains(t, "appreciate")
  }

  /** `weather|forecast|temperature|rain|sunny|cloudy`. */
  predicate WeatherRule(t: String)
  {
    Contains(t, "weather") || Contains(t, "forecast") || Contains(t, "temperature")
    || Contains(t, "rain") || Contains(t, "sunny") || Contains(t, "cloudy")
  }

  /** `time|what.*time|current.*time`, whose last two alternatives each contain "time". */
  predicate TimeRule(t: String)
  {
    Contains(t, "time")
  }

  /** `w.*time`: `w`, then characters other than line terminators, then "time". */
  ghost predicate ThenTime(t: String, w: String)
  {
    exists i, j :: OccursAt(t, w, i) && i + |w| <= j && OccursAt(t, "time", j)
                   && (forall k :: i + |w| <= k < j ==> !IsJsLineTerminator(t[k]))
  }

  /** The time pattern with all three of its alternatives. */
  ghost predicate TimeRegex(t: String)
  {
    Contains(t, "time") || ThenTime(t, "what") || ThenTime(t, "current")
  }

  /** `your name|who are you|what are you`. */
  predicate NameRule(t: String)
  {
    Contains(t, "your name") || Contains(t, "who are you") || Contains(t, "what are you")
  }

  /** `what can you|capabilities|features|abilities`. */
  predicate CapabilitiesRule(t: String)
  {
    Contains(t, "what can you") || Contains(t, "capabilities") || Contains(t, "features")
    || Contains(t, "abilities")
  }

  /** Whether the rule of category `c` accepts the lower-cased text `t`; `Default` accepts all. */
  predicate RuleMatches(c: Category, t: String)
  {
    match c
    case Greeting => GreetingRule(t)
    case Help => HelpRule(t)
    case Thanks => ThanksRule(t)
    case Weather => WeatherRule(t)
    case Time => TimeRule(t)
    case Name => NameRule(t)
    case Capabilities => CapabilitiesRule(t)
    case Default => true
  }

  /** The category of a lower-cased text: the first rule, in chain order, that accepts it;
      `Default` when none does. */
  function ClassifyText(t: String): (c: Category)
    ensures RuleMatches(c, t)
    ensures forall d :: Rank(d) < Rank(c) ==> !RuleMatches(d, t)
  {
    if GreetingRule(t) then Greeting
    else if HelpRule(t) then Help
    else if ThanksRule(t) then Thanks
    else if WeatherRule(t) then Weather
    else if TimeRule(t) then Time
    else if NameRule(t) then Name
    else if CapabilitiesRule(t) then Capabilities
    else Default
  }

  /** The category of a message, decided on its lower-case form. */
  function Classify(message: String): (c: Category)
    ensures RuleMatches(c, ToLower(message))
    ensures forall d :: Rank(d) < Rank(c) ==> !RuleMatches(d, ToLower(message))
  {
    ClassifyText(ToLower(message))
  }

  /** First match wins, in both directions: a category is the classification exactly when its
      rule accepts the message and no earlier rule does. */
  lemma ClassifyFirstMatch(message: String, c: Category)
    ensures Classify(message) == c <==>
            RuleMatches(c, ToLower(message))
            && forall d :: Rank(d) < Rank(c) ==> !RuleMatches(d, ToLower(message))
  {
  }

  /** The greedy skip finds the day word whenever some run of white space leads to it. */
  lemma GoodDayRegexImpliesRule(t: String)
    requires GoodDayRegex(t)
    ensures GoodDayRule(t)
  {
    var k :| 4 <= k <= |t| && StartsWith(t, "good") && AllSpace(t[4..k], IsJsSpace) && DayWord(t[k..]);
    DayWordStart(t[k..]);
    assert t[4..][..k - 4] == t[4..k];
    assert t[4..][k - 4..] == t[k..];
    TrimStartSkip(t[4..], IsJsSpace, k - 4);
  }

  /** A day word starts with a letter, which is not white space. */
  lemma DayWordStart(s: String)
    requires DayWord(s)
    ensures s != [] && !IsJsSpace(s[0])
  {
    if StartsWith(s, "morning") {
      assert s[..7][0] == s[0];
    } else if StartsWith(s, "afternoon") {
      assert s[..9][0] == s[0];
    } else {
      assert s[..7][0] == s[0];
    }
  }

  /** The prefix test for "good ... day-word" agrees with the regular expression's meaning. */
  lemma GoodDayRuleIsRegex(t: String)
    ensures GoodDayRule(t) <==> GoodDayRegex(t)
  {
    if GoodDayRule(t) {
      var rest := t[4..];
      TrimStartParts(rest, IsJsSpace);
      var r := TrimStart(rest, IsJsSpace);
      var m := |rest| - |r|;
      assert t[4 + m..] == r;
      assert t[4..4 + m] == rest[..m];
      assert 4 <= 4 + m <= |t| && AllSpace(t[4..4 + m], IsJsSpace) && DayWord(t[4 + m..]);
    }
    if GoodDayRegex(t) {
      GoodDayRegexImpliesRule(t);
    }
  }

  /** The two longer alternatives of the time pattern add nothing to "time" alone. */
  lemma TimeRuleIsRegex(t: String)
    ensures TimeRule(t) <==> TimeRegex(t)
  {
    if ThenTime(t, "what") || ThenTime(t, "current") {
      var w := if ThenTime(t, "what") then "what" else "current";
      var i, j :| OccursAt(t, w, i) && i + |w| <= j && OccursAt(t, "time", j)
                  && (forall k :: i + |w| <= k < j ==> !IsJsLineTerminator(t[k]));
      OccursAtContains(t, "time", j);
    }
  }

  // Worked examples. Each message is a parameter fixed by its precondition, and each fact
  // about it has a lemma of its own, which keeps the literal text from being unfolded
  // everywhere at once.

  /** The example messages are written in lower case already, so lower-casing keeps them. */
  lemma ExampleIsLower(m: String)
    requires m == "hello" || m == "good  morning" || m == "thanks a lot" || m == "thanks for the help"
    ensures ToLower(m) == m
  {
    if m == "hello" {
      ToLowerOfPlain(m);
    } else if m == "good  morning" {
      ToLowerOfPlain(m);
    } else if m == "thanks a lot" {
      ToLowerOfPlain(m);
    } else {
      ToLowerOfPlain(m);
    }
  }

  lemma HelloIsGreeting(m: String)
    requires m == "hello"
    ensures GreetingRule(m)
  {
    assert StartsWith(m, "hello");
  }

  lemma ClassifyHello(m: String)
    requires m == "hello"
    ensures Classify(m) == Greeting
  {
    ExampleIsLower(m);
    HelloIsGreeting(m);
    ClassifyFirstMatch(m, Greeting);
  }

  lemma GoodMorningIsGreeting(m: String)
    requires m == "good  morning"
    ensures GreetingRule(m)
  {
    assert m[4..] == "  morning";
    TrimStartSkip("  morning", IsJsSpace, 2);
  }

  /** "good", two spaces, "morning": the run of white space may be longer than one. */
  lemma ClassifyGoodMorning(m: String)
    requires m == "good  morning"
    ensures Classify(m) == Greeting
  {
    ExampleIsLower(m);
    GoodMorningIsGreeting(m);
    ClassifyFirstMatch(m, Greeting);
  }

  /** None of the greeting words starts a text whose first letter is `t`. */
  lemma NotGreetingT(t: String)
    requires |t| >= 2 && t[0] == 't'
    ensures !GreetingRule(t)
  {
    NotStartsWith(t, "hi", 0);
    NotStartsWith(t, "hello", 0);
    NotStartsWith(t, "hey", 0);
    NotStartsWith(t, "greetings", 0);
    NotStartsWith(t, "good", 0);
  }

  lemma ThanksALotIsNotHelp(m: String)
    requires m == "thanks a lot"
    ensures !HelpRule(m)
  {
    LackingCharNotContained(m, "help", 'p');
    LackingCharNotContained(m, "assist", 'i');
    LackingCharNotContained(m, "what can you do", 'w');
    LackingCharNotContained(m, "how do you work", 'w');
  }

  lemma ThanksALotIsThanks(m: String)
    requires m == "thanks a lot"
    ensures ThanksRule(m)
  {
    assert StartsWith(m, "thank");
  }

  lemma ClassifyThanks(m: String)
    requires m == "thanks a lot"
    ensures Classify(m) == Thanks
  {
    ExampleIsLower(m);
    NotGreetingT(m);
    ThanksALotIsNotHelp(m);
    ThanksALotIsThanks(m);
    ClassifyFirstMatch(m, Thanks);
  }

  lemma ThanksForTheHelpAsksHelp(m: String)
    requires m == "thanks for the help"
    ensures HelpRule(m)
  {
    OccursAtContains(m, "help", 15);
  }

  /** A message that both thanks and asks for help is a help request: help is tested first. */
  lemma ClassifyThanksForHelp(m: String)
    requires m == "thanks for the help"
    ensures Classify(m) == Help
  {
    ExampleIsLower(m);
    NotGreetingT(m);
    ThanksForTheHelpAsksHelp(m);
    ClassifyFirstMatch(m, Help);
  }

  // ---------------------------------------------------------------------------------
  // Canned responses
  // ---------------------------------------------------------------------------------

  /** Number of canned replies of each category. */
  function PoolSize(c: Category): nat
  {
    match c
    case Greeting => 3
    case Help => 2
    case Thanks => 3
    case Weather => 2
    case Time => 2
    case Name => 2
    case Capabilities => 2
    case Default => 4
  }

  /** Canned reply `k` of category `c`; `clock` is the device's local time text that the two
      time replies interpolate. */
  function Reply(c: Category, k: nat, clock: String): String
    requires k < PoolSize(c)
  {
    match c
    case Greeting =>
      if k == 0 then "Hello! How can I assist you today?"
      else if k == 1 then "Hi there! I'm here to help. What can I do for you?"
      else "Greetings! What would you like to know?"
    case Help =>
      if k == 0 then "I'm your personal assistant and I can help you with various tasks. You can ask me questions, get information, or just have a conversation. What would you like to explore?"
      else "I'm here to assist you! Feel free to ask me anything - I can help with information, answer questions, or provide guidance on various topics."
    case Thanks =>
      if k == 0 then "You're welcome! Is there anything else I can help you with?"
      else if k == 1 then "Happy to help! Let me know if you need anything else."
      else "My pleasure! Feel free to ask if you have more questions."
    case Weather =>
      if k == 0 then "I don't have access to real-time weather data yet, but once I'm connected to a weather service, I'll be able to give you accurate forecasts. Is there anything else I can help with?"
      else "Weather information isn't available in my current setup, but this feature will be added soon. What else can I assist you with?"
    case Time =>
      if k == 0 then "Based on your device, the current time appears to be " + clock + ". Is there anything else you'd like to know?"
      else "It looks like it's " + clock + " according to your system. How else can I help?"
    case Name =>
      if k == 0 then "I'm your Personal Assistant, designed to help you with various tasks and questions. You can call me PA if you'd like!"
      else "I go by Personal Assistant. I'm here to make your life easier by answering questions and helping with tasks."
    case Capabilities =>
      if k == 0 then "I'm a chat interface designed to assist you with various queries. Currently, I'm running in demo mode with simulated responses. Once connected to a backend, I'll be able to provide much more comprehensive assistance!"
      else "Right now, I'm demonstrating the chat interface capabilities. In the full version, I'll be able to help with a wide range of tasks, from answering questions to providing personalized recommendations."
    case Default =>
      if k == 0 then "That's an interesting question! Once I'm fully connected to the backend services, I'll be able to provide more detailed and accurate responses. Is there anything specific I can help clarify?"
      else if k == 1 then "I appreciate your message. In the full implementation, I'll have access to more resources to give you comprehensive answers. What else would you like to explore?"
      else if k == 2 then "Thanks for reaching out! While I'm currently in demo mode, I'm designed to handle a wide variety of questions and tasks. Feel free to ask anything!"
      else "I'm here to help! Although I'm running with simulated responses right now, the full version will provide much more detailed assistance. What else can I do for you?"
  }

  /** The canned replies of a category, in the order of the widget's table. */
  function Pool(c: Category, clock: String): (p: seq<String>)
    ensures |p| == PoolSize(c) && |p| > 0
    ensures forall k :: 0 <= k < |p| ==> p[k] == Reply(c, k, clock)
  {
    seq(PoolSize(c), k requires 0 <= k < PoolSize(c) => Reply(c, k, clock))
  }

  /** `Math.floor(r * len)` for a draw `r` of `Math.random()`: an index of the pool. */
  function PickIndex(r: real, len: nat): (i: nat)
    requires 0.0 <= r < 1.0 && len > 0
    ensures i < len
  {
    var x := r * len as real;
    assert x < len as real by {
      assert r * len as real < 1.0 * len as real;
    }
    x.Floor
  }

  /** Every index of a pool is drawn by some value of `Math.random()`. */
  lemma PickIndexCovers(len: nat, k: nat)
    requires k < len
    ensures var r := k as real / len as real; 0.0 <= r < 1.0 && PickIndex(r, len) == k
  {
    var r := k as real / len as real;
    assert r * len as real == k as real;
  }

  /** The mock backend reply to a message: a draw from the pool of the message's category. */
  function GetAssistantResponse(userMessage: String, draw: real, clock: String): (reply: String)
    requires 0.0 <= draw < 1.0
    ensures reply in Pool(Classify(userMessage), clock)
  {
    var pool := Pool(Classify(userMessage), clock);
    pool[PickIndex(draw, |pool|)]
  }

  /** Every canned reply of the message's category can be the answer. */
  lemma EveryPoolReplyReachable(userMessage: String, clock: String, k: nat)
    requires k < PoolSize(Classify(userMessage))
    ensures exists draw :: 0.0 <= draw < 1.0
                           && GetAssistantResponse(userMessage, draw, clock) == Pool(Classify(userMessage), clock)[k]
  {
    var len := PoolSize(Classify(userMessage));
    PickIndexCovers(len, k);
    var draw := k as real / len as real;
    assert GetAssistantResponse(userMessage, draw, clock) == Pool(Classify(userMessage), clock)[k];
  }

  // ---------------------------------------------------------------------------------
  // The widget
  // ---------------------------------------------------------------------------------

  datatype Role = User | Assistant

  datatype Message = Message(role: Role, content: String)

  /** How the awaited `getAssistantResponse` promise settles: with a reply, or by throwing. */
  datatype Settlement = Resolved(response: String) | Rejected

  const Apology: String := "Sorry, I encountered an error. Please try again."

  const MaxTextareaHeight: nat := 150

  function Min(a: nat, b: nat): nat
  {
    if a <= b then a else b
  }

  /** Entry `i` of a history is in place: a user entry is non-empty, and an assistant entry
      comes right after a user entry, whose reply it is. */
  ghost predicate PairedAt(h: seq<Message>, i: nat)
    requires i < |h|
  {
    if h[i].role == User then h[i].content != []
    else i > 0 && h[i - 1].role == User
  }

  /** Every entry of a history is in place. */
  ghost predicate WellPaired(h: seq<Message>)
  {
    forall i :: 0 <= i < |h| ==> PairedAt(h, i)
  }

  /** Appending an entry that is in place after `h` keeps a history well paired. */
  lemma WellPairedAppend(h: seq<Message>, e: Message)
    requires WellPaired(h) && PairedAt(h + [e], |h|)
    ensures WellPaired(h + [e])
  {
    var h' := h + [e];
    forall i | 0 <= i < |h'|
      ensures PairedAt(h', i)
    {
      if i < |h| {
        assert h'[i] == h[i];
        if i > 0 {
          assert h'[i - 1] == h[i - 1];
        }
        assert PairedAt(h, i);
      }
    }
  }

  class ChatApp {
    /** True while a reply is awaited (between the typing indicator being shown and hidden). */
    var isTyping: bool
    var messageHistory: seq<Message>
    /** The messages the page shows, in order: what `addMessage` appends. */
    var transcript: seq<Message>
    /** The text of the message textarea. */
    var inputValue: String
    var sendDisabled: bool
    /** The textarea's height in pixels. */
    var textareaHeight: nat
    /** The message whose reply the suspended `sendMessage` awaits. */
    var pending: Option<String>

    ghost predicate Valid()
      reads this
    {
      && (isTyping <==> pending.Some?)
      && (pending.Some? ==>
            |messageHistory| > 0 && messageHistory[|messageHistory| - 1] == Message(User, pending.value))
      && WellPaired(messageHistory)
    }

    /** The page loads with an empty history; `init` sizes the textarea. */
    constructor (scrollHeight: nat, initiallyDisabled: bool)
      ensures Valid()
      ensures !isTyping && pending == None && messageHistory == [] && transcript == []
      ensures inputValue == [] && sendDisabled == initiallyDisabled
      ensures textareaHeight == Min(scrollHeight, MaxTextareaHeight)
    {
      isTyping := false;
      messageHistory := [];
      transcript := [];
      inputValue := [];
      sendDisabled := initiallyDisabled;
      pending := None;
      textareaHeight := Min(scrollHeight, MaxTextareaHeight);
    }

    /** The textarea grows with its content up to 150 pixels; `scrollHeight` is the content's
        height measured after the height was reset to `auto`. */
    method AdjustTextareaHeight(scrollHeight: nat)
      modifies this`textareaHeight
      ensures textareaHeight <= MaxTextareaHeight
      ensures textareaHeight == scrollHeight || (scrollHeight > MaxTextareaHeight && textareaHeight == MaxTextareaHeight)
    {
      textareaHeight := Min(scrollHeight, MaxTextareaHeight);
    }

    /** The send button is disabled exactly when the input is white space only. */
    method ToggleSendButton()
      modifies this`sendDisabled
      ensures sendDisabled <==> AllSpace(inputValue, IsJsSpace)
    {
      TrimEmptyIff(inputValue, IsJsSpace);
      sendDisabled := !(|JsTrim(inputValue)| > 0);
    }

    method ShowTypingIndicator()
      modifies this`isTyping
      ensures isTyping
    {
      isTyping := true;
    }

    method HideTypingIndicator()
      modifies this`isTyping
      ensures !isTyping
    {
      isTyping := false;
    }

    /** The user edits the textarea; the `input` listener resizes it and updates the button. */
    method Type(value: String, scrollHeight: nat)
      requires Valid()
      modifies this`inputValue, this`textareaHeight, this`sendDisabled
      ensures Valid()
      ensures inputValue == value && textareaHeight == Min(scrollHeight, MaxTextareaHeight)
      ensures sendDisabled <==> AllSpace(value, IsJsSpace)
    {
      inputValue := value;
      AdjustTextareaHeight(scrollHeight);
      ToggleSendButton();
    }

    /** `sendMessage` up to its `await`: a non-blank input is accepted only when no reply is
        awaited; it is shown, pushed to the history, cleared from the textarea, and the
        typing indicator is shown. A rejected call changes nothing. */
    method SendMessage(scrollHeight: nat) returns (accepted: bool)
      requires Valid()
      modifies this
      ensures Valid()
      ensures accepted <==> !AllSpace(old(inputValue), IsJsSpace) && !old(isTyping)
      ensures !accepted ==> unchanged(this)
      ensures accepted ==>
        var m := JsTrim(old(inputValue));
        && m != []
        && messageHistory == old(messageHistory) + [Message(User, m)]
        && transcript == old(transcript) + [Message(User, m)]
        && inputValue == [] && sendDisabled && textareaHeight == Min(scrollHeight, MaxTextareaHeight)
        && isTyping && pending == Some(m)
    {
      var message := JsTrim(inputValue);
      TrimEmptyIff(inputValue, IsJsSpace);
      if message == [] || isTyping {
        return false;
      }
      WellPairedAppend(messageHistory, Message(User, message));
      transcript := transcript + [Message(User, message)];
      messageHistory := messageHistory + [Message(User, message)];
      inputValue := [];
      AdjustTextareaHeight(scrollHeight);
      ToggleSendButton();
      ShowTypingIndicator();
      pending := Some(message);
      accepted := true;
    }

    /** `sendMessage` after its `await`: the typing indicator is hidden on both outcomes; a reply
        is shown and pushed to the history, while the apology after an error is only shown. */
    method SettleResponse(outcome: Settlement)
      requires Valid() && pending.Some?
      modifies this`isTyping, this`messageHistory, this`transcript, this`pending
      ensures Valid()
      ensures !isTyping && pending == None
      ensures outcome.Resolved? ==>
        && messageHistory == old(messageHistory) + [Message(Assistant, outcome.response)]
        && transcript == old(transcript) + [Message(Assistant, outcome.response)]
      ensures outcome.Rejected? ==>
        && messageHistory == old(messageHistory)
        && transcript == old(transcript) + [Message(Assistant, Apology)]
    {
      match outcome {
        case Resolved(response) =>
          HideTypingIndicator();
          WellPairedAppend(messageHistory, Message(Assistant, response));
          transcript := transcript + [Message(Assistant, response)];
          messageHistory := messageHistory + [Message(Assistant, response)];
        case Rejected =>
          HideTypingIndicator();
          transcript := transcript + [Message(Assistant, Apology)];
      }
      pending := None;
    }

    /** A whole `sendMessage` call that is not interleaved with another event. The awaited
        `getAssistantResponse(message)` never throws: it resolves with a reply from the pool of
        the message's category, drawn with `draw` (the value of `Math.random()`) at the time
        `clock`. An accepted turn shows and pushes the user's message and then that reply,
        clears the textarea, and leaves no reply awaited; a refused one changes nothing. */
    method SendMessageToCompletion(scrollHeight: nat, draw: real, clock: String) returns (accepted: bool)
      requires Valid() && 0.0 <= draw < 1.0
      modifies this
      ensures Valid()
      ensures accepted <==> !AllSpace(old(inputValue), IsJsSpace) && !old(isTyping)
      ensures !accepted ==> unchanged(this)
      ensures accepted ==>
        var m := JsTrim(old(inputValue));
        var reply := GetAssistantResponse(m, draw, clock);
        && m != [] && reply in Pool(Classify(m), clock)
        && messageHistory == old(messageHistory) + [Message(User, m), Message(Assistant, reply)]
        && transcript == old(transcript) + [Message(User, m), Message(Assistant, reply)]
        && inputValue == [] && sendDisabled && textareaHeight == Min(scrollHeight, MaxTextareaHeight)
        && !isTyping && pending == None
    {
      accepted := SendMessage(scrollHeight);
      if accepted {
        var response := GetAssistantResponse(pending.value, draw, clock);
        SettleResponse(Resolved(response));
      }
    }
  }
}
