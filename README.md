# Intent chatbot: corpus flattening, response lookup, chat session and transcript log

A Dafny model of the bespoke logic of a small Streamlit chatbot. A corpus of
intents (a tag, example patterns, candidate responses) is flattened into the
parallel `tags`/`patterns` training lists; a classifier predicts a tag for
each user message, and `chat_bot` answers with a response of the first intent
carrying that tag. The Streamlit session keeps an append-only chat history,
the text box contents and the current view; the history can be saved to
`chat_log.csv` as (user, bot, timestamp) rows, listed again, or deleted.

Files and modules:

- `wrappers.dfy` (`Wrappers`): `Option`, standing for Python's `None` and for
  a session key that is not set.
- `chatbot_model.dfy` (`ChatbotModel`): `Intent`, the flattening loop
  `Flatten` proved against the functions `FlatTags`/`FlatPatterns`, the
  first-match search `FirstMatch`, and `ChatBot`, a loop proved against
  `IsReply`.
- `pystr.dfy` (`PyStr`): Python's `str.strip()` with no argument, over the
  whitespace set of `str.isspace()`.
- `chat_session.dfy` (`ChatSession`): `Message`, the view labels and the
  `main` dispatch, and the class `Session` whose methods are
  `initialize_session_state`, `handle_chat_input`, `sidebar_navigation` and
  `main`.
- `chat_log.dfy` (`ChatLog`): the row pairing `PairRows`, the display filter
  `Shown`, and the class `LogFile` whose methods are `save_chat_history`,
  `clear_chat_history` and `display_chat_history`.

Modelling choices:

- The TF-IDF vectoriser and the random-forest classifier together are one
  opaque function `predict: string -> string` passed as a parameter.
- `random.choice` is a nondeterministic choice (`:|`) of some element of the
  response list. On an empty list Python raises IndexError; the model
  returns the value `IndexError` instead of requiring a non-empty list.
- `chat_bot` falls off the end of its loop when no intent has the predicted
  tag, so it returns `None` (`NoneReturned`). `handle_chat_input` formats
  that as the text `"Bot: None"`.
- `handle_chat_input` appends the user's message before it calls `chat_bot`.
  When `chat_bot` raises, the user's message stays in the history without a
  bot message, and the text box is not cleared. The history then no longer
  alternates, and later saves pair the entries out of step. Only turns that
  do not raise preserve `Alternating`.
- The session dictionary's keys `chat_history` and `current_view` are
  `Option` fields, `None` while absent. `user_input` is always a string.
- The CSV file is `Option<seq<Row>>`, with `None` when the file does not
  exist. A row is a sequence of fields. The file is empty (its size is 0)
  exactly when it has no rows: every written row adds at least a line
  terminator.
- Each loop iteration of `save_chat_history` reads the clock. This is the
  parameter `now`: `now(j)` is the timestamp text of the iteration that
  handles entries `2j` and `2j+1`.
- The code does not check that tags are unique; `chat_bot` uses the first
  intent with the predicted tag. An empty response list makes `random.choice`
  raise, and the model keeps that IndexError rather than inventing a fallback
  reply.

## Model

| member | source | states |
|---|---|---|
| ChatbotModel.FlatPatterns | chatbot_model.py:25-29 | the pattern list has one entry per pattern of the corpus: its length is the sum of the intents' pattern counts |
| ChatbotModel.FlatTags | chatbot_model.py:24-28 | the tag list has the same length, the sum of the intents' pattern counts |
| ChatbotModel.Flatten | chatbot_model.py:24-29 | the nested loop builds exactly the concatenation of every intent's patterns in corpus order, and one copy of the intent's tag per pattern; both lists have the total pattern count as length |
| ChatbotModel.FlatAlignment | chatbot_model.py:26-29 | pattern j of intent i sits at position (patterns of intents before i) + j of the pattern list, and the tag at that position is intent i's tag: order and alignment are preserved |
| ChatbotModel.FlatOrigin | chatbot_model.py:26-29 | conversely, every position k of the flat lists holds pattern j of some intent i, at offset (patterns before i) + j, with intent i's tag beside it |
| ChatbotModel.TagsComeFromCorpus | chatbot_model.py:28 | every element of the tag list is the tag of some intent of the corpus |
| ChatbotModel.FirstMatch | chatbot_model.py:44-45 | the index found has the tag and no earlier intent has it; no index is found exactly when no intent has the tag |
| ChatbotModel.FirstMatchIgnoresLater | chatbot_model.py:44-47 | once an intent with the tag exists, intents appended after the corpus never change which one is used |
| ChatbotModel.ChatBot | chatbot_model.py:41-47 | `chat_bot` returns a response of the first intent whose tag equals the prediction, IndexError if that intent has no responses, and None if no intent has the tag |
| ChatbotModel.TrainingTagIsFound | chatbot_model.py:28-47 | if the classifier predicts a tag from the training labels, the reply is never None |
| ChatbotModel.PredictsOwnTag | chatbot_model.py:24-38 | a classifier that reproduces its training labels maps every pattern of intent i to intent i's tag |
| ChatbotModel.PatternGetsOwnResponse | chatbot_model.py:41-47 | with unique tags, non-empty response lists and a classifier that fits its training data, each pattern of an intent is answered with one of that intent's own responses |
| ChatbotModel.GreetByeExample | chatbot_model.py:41-47 | on the two-intent greet/bye corpus, "hi" is answered "Hello!" and "bye" is answered "Goodbye!" |
| PyStr.SkipSpaces | chatbot.py:134 | the index found is at or after the start, every character skipped is whitespace, and the character found is not |
| PyStr.BackSpaces | chatbot.py:134 | the end found is within the range, every character cut off is whitespace, and the last character kept is not |
| PyStr.Strip | chatbot.py:134-135 | the stripped text neither starts nor ends with whitespace, and it is empty exactly when the input is all whitespace |
| PyStr.StripIsMiddle | chatbot.py:134 | the stripped text is a contiguous part of the input, and only whitespace is cut away on either side |
| PyStr.StripIdempotent | chatbot.py:134 | stripping twice gives the same text as stripping once |
| ChatSession.UserMessage | chatbot.py:136-138 | the user's entry has origin user and carries the "User: " label, and dropping the label gives back exactly the stripped input |
| ChatSession.UserMessageInjective | chatbot.py:136-138 | distinct inputs are recorded as distinct user entries |
| ChatSession.BotMessage | chatbot.py:140-142 | the bot's entry has origin bot and carries the "Bot: " label, and dropping the label gives back the response, or "None" when `chat_bot` returned None |
| ChatSession.NoneLooksLikeText | chatbot.py:140-142 | a None reply and a literal "None" response are recorded as the same entry, so the history and the log cannot tell them apart |
| ChatSession.TurnKeepsAlternating | chatbot.py:136-142 | appending one user message and then one bot message to an alternating history keeps it alternating with even length |
| ChatSession.Dispatch | chatbot.py:269-276 | `main` renders some screen exactly when `current_view` is one of the four labels |
| ChatSession.Label | chatbot.py:192-202 | every screen is selected by one of the four sidebar labels |
| ChatSession.DispatchLabel | chatbot.py:192-202 | labels and screens correspond one to one: each label selects its own screen and distinct labels select distinct screens |
| ChatSession.Session.constructor | chatbot.py:127-131 | a fresh session has no keys set and an empty text box |
| ChatSession.Session.InitializeSessionState | chatbot.py:127-131 | the history defaults to [] and the view to "Chat" only when absent; present values are never overwritten, so a second call changes nothing |
| ChatSession.Session.HandleChatInput | chatbot.py:133-143 | blank stripped input changes nothing. Otherwise the user message, then the bot message, is appended after the unchanged earlier entries, and the text box is reset to "". If `chat_bot` raises, only the user message is appended and the text box is kept. A successful turn preserves alternation |
| ChatSession.Session.SidebarNavigation | chatbot.py:188-202 | each clicked button sets the view to its own label, and the last clicked button wins. With no click the view is kept, so the view stays one of the four labels |
| ChatSession.Session.RunScript | chatbot.py:264-276 | one run of `main` sets the view to the label of the last clicked button, else keeps the existing view, else "Chat", and renders exactly that label's screen; an existing history is kept |
| ChatLog.Rows | chatbot.py:152-159 | the first n rows of the pairing: row j is (text of entry 2j, text of entry 2j+1, timestamp of iteration j) |
| ChatLog.PairRowsShape | chatbot.py:152-159 | a save writes exactly len(history) / 2 rows (integer division), and row j pairs entries 2j and 2j+1 |
| ChatLog.TranscriptOfRows | chatbot.py:152-159 | the user and bot texts of the first n rows are, in order, the texts of the first 2n entries |
| ChatLog.PairRowsRoundTrip | chatbot.py:152-159 | reading back the saved rows gives every entry's text in order except a trailing unpaired entry, which is dropped; for an even-length history it gives every text |
| ChatLog.SaveAgainAddsNoHeader | chatbot.py:149-150 | after one save the file is not empty, so a second save appends only data rows and no second header |
| ChatLog.SaveKeepsLogValid | chatbot.py:149-159 | saving labelled messages into an empty file or a file of header plus data rows gives a file of that form again, so the header occurs only at the top |
| ChatLog.KeepFullAppend | chatbot.py:176-177 | the three-field filter distributes over concatenation of row lists |
| ChatLog.KeepFullOfFull | chatbot.py:176-177 | the filter keeps every row of a list of three-field rows |
| ChatLog.ShownOfValidLog | chatbot.py:169-182 | a log of header plus data rows displays every row after the header |
| ChatLog.SaveThenDisplay | chatbot.py:145-182 | for any file on disk, the display after a save is the display before it followed by exactly the newly paired rows |
| ChatLog.KeepFull | chatbot.py:176-177 | every row kept has exactly three fields and comes from the input |
| ChatLog.Shown | chatbot.py:169-182 | every row shown has exactly three fields and comes from after the first row of the file |
| ChatLog.LogFile.SaveChatHistory | chatbot.py:145-159 | the file is created if missing. The header is appended only when the file is empty, then the paired rows follow. A well-formed log stays well-formed |
| ChatLog.LogFile.ClearChatHistory | chatbot.py:161-167 | the file no longer exists afterwards; the result says whether it existed |
| ChatLog.LogFile.DisplayChatHistory | chatbot.py:169-184 | a missing file shows nothing ("No chat history found"). Otherwise the first row is skipped and exactly the remaining three-field rows are shown, in file order |

## Left out

- TF-IDF fitting and transform, logistic-regression and random-forest fitting, and `predict` (chatbot_model.py:21-22, 31-38, 42-43): library code over floating point. They are the single opaque `predict` parameter. So the model does not capture that the deployed classifier is trained on the 80% split only.
- `train_test_split` and the evaluation view's accuracy, precision, recall and classification report (chatbot_model.py:34-36, chatbot.py:232-244): random, floating point and library code.
- ChatbotModel.ChatBot: states only that the response is some element of the list, not that `random.choice` picks it uniformly at random.
- NLTK download, the SSL context override and the JSON load of `intents.json` (chatbot_model.py:12-18): I/O. The corpus is a parameter.
- CSV encoding and decoding, `open`, `os.stat`, `os.remove` and `os.path.exists` (chatbot.py:145-173): I/O. The file is a sequence of rows, and a CSV row is assumed to read back as the fields that were written.
- `datetime.now().strftime(...)` (chatbot.py:156): the clock is the parameter `now`, and the timestamp format is not modelled.
- Every Streamlit rendering call: CSS, markdown, titles, columns, buttons, success/error/info messages, the chat bubbles of `display_chat_view` and the About text (chatbot.py:19-125, 204-230, 246-261). This is UI. How the text box's `on_change` and the Ask and Save buttons call `HandleChatInput` and `SaveChatHistory` is not modelled either; the environment calls those methods.
- The "Clear History" button of `display_chat_history` (chatbot.py:185-186), which calls `clear_chat_history` from inside the history view: the button wiring is UI. `ClearChatHistory` models what the call does.
- `chat_log.csv` is one file shared by every browser session, while the model gives each `LogFile` one caller and runs each save to completion. Concurrent saves are not modelled: from the code, two sessions saving at once could both see size 0 and each write a header.
- Python exceptions are values here. The IndexError of `random.choice` is the `IndexError` reply, and the model does not follow it past `handle_chat_input` into Streamlit's error display.
