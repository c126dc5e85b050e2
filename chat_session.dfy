/**
 * The Streamlit session of chatbot.py: the chat history of `Message`s, the
 * text box `user_input`, and the `current_view` chosen in the sidebar.
 *
 * `st.session_state` is a dictionary whose keys may be missing; the two keys
 * that `initialize_session_state` fills in are `Option` fields here, `None`
 * while the key is absent. The text box always holds a string.
 */
module ChatSession {
  import opened Wrappers
  import opened PyStr
  import opened ChatbotModel

  datatype Origin = User | Bot

  /** One entry of the chat history. */
  datatype Message = Message(origin: Origin, content: string)

  /** The message `handle_chat_input` records for what the user typed: a
      user entry labelled "User: " from which the typed text reads back. */
  function UserMessage(text: string): (m: Message)
    ensures m.origin == User && WellLabelled(m)
    ensures m.content[|UserPrefix|..] == text
  {
    Message(User, UserPrefix + text)
  }

  /** The message `handle_chat_input` records for the bot's answer: a bot
      entry labelled "Bot: " from which the answer reads back, a `None` answer
      being formatted by the f-string as the text "None". */
  function BotMessage(r: Reply): (m: Message)
    requires r != IndexError
    ensures m.origin == Bot && WellLabelled(m)
    ensures m.content[|BotPrefix|..] == if r.Text? then r.value else "None"
  {
    match r
    case Text(t) => Message(Bot, BotPrefix + t)
    case NoneReturned => Message(Bot, BotPrefix + "None")
  }

  /** Distinct inputs give distinct user entries. */
  lemma UserMessageInjective(a: string, b: string)
    requires UserMessage(a) == UserMessage(b)
    ensures a == b
  {
  }

  /** A `None` reply and a literal "None" response are recorded as the same
      entry, so the history and the log cannot tell them apart. */
  lemma NoneLooksLikeText()
    ensures BotMessage(NoneReturned) == BotMessage(Text("None"))
  {
  }

  const UserPrefix: string := "User: "
  const BotPrefix: string := "Bot: "

  /** Each message's text starts with the prefix of its origin. */
  predicate WellLabelled(m: Message)
  {
    match m.origin
    case User => UserPrefix <= m.content
    case Bot => BotPrefix <= m.content
  }

  predicate Labelled(h: seq<Message>)
  {
    forall k :: 0 <= k < |h| ==> WellLabelled(h[k])
  }

  /** The history is a sequence of complete turns: user, bot, user, bot, ... */
  predicate Alternating(h: seq<Message>)
  {
    |h| % 2 == 0 && forall k :: 0 <= k < |h| ==> h[k].origin == (if k % 2 == 0 then User else Bot)
  }

  /** A complete turn appended to a history of complete turns gives one. */
  lemma TurnKeepsAlternating(h: seq<Message>, u: string, b: string)
    requires Alternating(h)
    ensures Alternating(h + [Message(User, u), Message(Bot, b)])
  {
  }

  // ---------------------------------------------------------------------
  // Views

  const ChatView: string := "Chat"
  const HistoryView: string := "Chat History"
  const EvaluationView: string := "Model Evaluation"
  const AboutView: string := "About"

  /** The four labels the sidebar buttons assign to `current_view`. */
  predicate IsView(v: string)
  {
    v == ChatView || v == HistoryView || v == EvaluationView || v == AboutView
  }

  /** What `main` renders below the sidebar. */
  datatype Screen = ChatScreen | HistoryScreen | EvaluationScreen | AboutScreen | NoScreen

  /** The `if`/`elif` chain of `main`: one screen per view label, and nothing
      for any other value. */
  function Dispatch(view: string): (s: Screen)
    ensures s == NoScreen <==> !IsView(view)
  {
    if view == ChatView then ChatScreen
    else if view == HistoryView then HistoryScreen
    else if view == EvaluationView then EvaluationScreen
    else if view == AboutView then AboutScreen
    else NoScreen
  }

  /** The view label that selects a screen. */
  function Label(s: Screen): (v: string)
    requires s != NoScreen
    ensures IsView(v)
  {
    match s
    case ChatScreen => ChatView
    case HistoryScreen => HistoryView
    case EvaluationScreen => EvaluationView
    case AboutScreen => AboutView
  }

  /** `Dispatch` and `Label` are inverse: each label selects exactly one
      screen, and distinct labels select distinct screens. */
  lemma DispatchLabel(v: string, s: Screen)
    ensures IsView(v) ==> Label(Dispatch(v)) == v
    ensures s != NoScreen ==> Dispatch(Label(s)) == s
  {
  }

  /** Which sidebar buttons were clicked on this run of the script. */
  datatype Clicks = Clicks(chat: bool, history: bool, evaluation: bool, about: bool)

  class Session {
    var chatHistory: Option<seq<Message>>
    var currentView: Option<string>
    var userInput: string

    /** `current_view`, once set, is one of the four labels, and every
        recorded message carries its origin's prefix. */
    ghost predicate Valid()
      reads this
    {
      (currentView.Some? ==> IsView(currentView.value)) &&
      (chatHistory.Some? ==> Labelled(chatHistory.value))
    }

    /** A fresh browser session: no keys set, an empty text box. */
    constructor ()
      ensures Valid()
      ensures chatHistory == None && currentView == None && userInput == ""
    {
      chatHistory, currentView, userInput := None, None, "";
    }

    /** `initialize_session_state`: fill in the defaults of the keys that are
        missing and leave present keys alone, so calling it again changes
        nothing. */
    method InitializeSessionState()
      requires Valid()
      modifies this`chatHistory, this`currentView
      ensures Valid()
      ensures chatHistory == if old(chatHistory).None? then Some([]) else old(chatHistory)
      ensures currentView == if old(currentView).None? then Some(ChatView) else old(currentView)
    {
      if chatHistory.None? {
        chatHistory := Some([]);
      }
      if currentView.None? {
        currentView := Some(ChatView);
      }
    }

    /** `handle_chat_input`. Blank input changes nothing. Otherwise the user's
        message is appended first, then the bot is asked; if it answers (with
        text or `None`) its message is appended and the text box is cleared,
        and if `random.choice` raises, the exception leaves the history with
        the user's message alone and the text box as it was. `reply` is `None`
        exactly when the input was blank. */
    method HandleChatInput(corpus: seq<Intent>, predict: string -> string) returns (reply: Option<Reply>)
      requires Valid() && chatHistory.Some?
      modifies this`chatHistory, this`userInput
      ensures Valid() && chatHistory.Some?
      ensures var input := Strip(old(userInput));
              var before := old(chatHistory).value;
              if input == [] then
                reply == None && chatHistory == old(chatHistory) && userInput == old(userInput)
              else
                reply.Some? && IsReply(corpus, predict(input), reply.value) &&
                if reply.value == IndexError then
                  chatHistory == Some(before + [UserMessage(input)]) && userInput == old(userInput)
                else
                  chatHistory == Some(before + [UserMessage(input), BotMessage(reply.value)]) &&
                  userInput == ""
      ensures reply != Some(IndexError) && Alternating(old(chatHistory).value) ==>
                Alternating(chatHistory.value)
    {
      var input := Strip(userInput);
      if input == [] {
        return None;
      }
      var before := chatHistory.value;
      chatHistory := Some(before + [UserMessage(input)]);
      var r := ChatBot(corpus, predict, input);
      reply := Some(r);
      if r == IndexError {
        return;
      }
      chatHistory := Some(before + [UserMessage(input), BotMessage(r)]);
      userInput := "";
      if Alternating(before) {
        TurnKeepsAlternating(before, UserMessage(input).content, BotMessage(r).content);
      }
    }

    /** `sidebar_navigation`: each clicked button sets `current_view` to its
        own label; the buttons are tested in order, so the last one clicked
        wins, and with no click the view is kept. */
    method SidebarNavigation(clicks: Clicks)
      requires Valid()
      modifies this`currentView
      ensures Valid()
      ensures currentView ==
                if clicks.about then Some(AboutView)
                else if clicks.evaluation then Some(EvaluationView)
                else if clicks.history then Some(HistoryView)
                else if clicks.chat then Some(ChatView)
                else old(currentView)
    {
      if clicks.chat {
        currentView := Some(ChatView);
      }
      if clicks.history {
        currentView := Some(HistoryView);
      }
      if clicks.evaluation {
        currentView := Some(EvaluationView);
      }
      if clicks.about {
        currentView := Some(AboutView);
      }
    }

    /** `main`, run by Streamlit on every interaction: initialise, apply the
        sidebar, and render exactly one of the four screens. */
    method RunScript(clicks: Clicks) returns (screen: Screen)
      requires Valid()
      modifies this`chatHistory, this`currentView
      ensures Valid()
      ensures chatHistory == if old(chatHistory).None? then Some([]) else old(chatHistory)
      ensures currentView ==
                if clicks.about then Some(AboutView)
                else if clicks.evaluation then Some(EvaluationView)
                else if clicks.history then Some(HistoryView)
                else if clicks.chat then Some(ChatView)
                else if old(currentView).None? then Some(ChatView)
                else old(currentView)
      ensures currentView.Some? && screen == Dispatch(currentView.value) && screen != NoScreen
    {
      InitializeSessionState();
      SidebarNavigation(clicks);
      screen := Dispatch(currentView.value);
    }
  }
}
