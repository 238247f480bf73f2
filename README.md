# Scrum Mentor chat: search references, prompt assembly and session registry in Dafny

The program is a small chat app. A user's question is sent to a web search API.
The result items become formatted references, and the references and the question are
filled into a fixed prompt template. The prompt goes to a hosted text-generation model,
and the question and the answer are appended to the current chat session. The app
keeps a registry of sessions keyed by id, with a "current" id, and supports "New Chat",
"End Session" (clear all) and switching sessions from the sidebar.

This project models the sequential logic around the network and UI calls:

- `Search` (search.dfy): everything `search_online` does except the request itself.
  It checks the credentials first, and with either one missing no request is made; Python's truth test makes an unset and an empty variable
  both count as missing. A failed request or a response without `items` degrades to no
  references. Otherwise each item becomes `**title**\nsnippet\n[Read more](link)`, with
  "No title", "No snippet available" and "#" for missing fields. The extraction loop is a
  method proved against the recursive function `References`.
- `Text` (text.dfy): `"\n".join` (`Join`) and splitting on newlines, as `split("\n")` does (`Lines`).
- `Prompt` (prompt.dfy): the references block (the references joined by newlines, or
  "No online references found.") and the fixed template (`RagPrompt`). `MakeRagPrompt`
  is the method that searches and then fills in the template.
  `ReadPrompt` / `ReadReferences` read a prompt back. When the query and every displayed
  title, snippet and link are one line each, their lemmas prove that the question and every
  reference's title, snippet and link come back out of the prompt in order. For any fields,
  the references' lines still stand in the prompt in item order.
  The query always meets the one-line condition: it comes from the single-line text box
  (scrum_master.py:147), or it is the empty input of lines 118 and 144.
- `Answer` (answer.dfy): the model's reply, or the fixed apology when the call fails.
  `generate_answer` is also modelled here. The model is a parameter `backend`.
- `Sessions` (sessions.dfy): the registry as a value (`Chat`). `Step` says what each UI
  event does to it. Lemmas cover the frame conditions, the registry invariant and its
  preservation over any run of events, and append-only histories. The class `ChatState`
  holds the same state in mutable fields, and its methods perform the events in place.

## Model

| member | source | states |
|---|---|---|
| `Text.LinesOfJoin` | scrum_master.py:43 | splitting the newline-join of the references gives each reference's lines, one reference after another |
| `Search.References` | scrum_master.py:25-31 | exactly one reference per search item, and the i-th reference is the formatted i-th item (order kept) |
| `Search.SearchOnline` | scrum_master.py:10-38 | missing or empty credentials give no references (error notice); a failed request gives none (error notice); a response without `items` gives none (warning); otherwise the references are those of the items, in order; the loop appends one reference per item |
| `Search.ReferenceLines` | scrum_master.py:28-31 | when the displayed title, snippet and link are one line each, a reference is exactly three lines, `**title**`, the snippet and `[Read more](link)`, with "No title", "No snippet available" and "#" for missing fields |
| `Search.ReferencesReadBack` | scrum_master.py:25-31 | when every item's displayed title, snippet and link are one line each, the lines of the references read back as those values, in item order |
| `Prompt.MakeRagPrompt` | scrum_master.py:41-53 | the returned references are the search output unchanged and the prompt is the template filled with the query and those references |
| `Prompt.PlaceholderIffNoItems` | scrum_master.py:43 | the references block is "No online references found." exactly when there are no search items |
| `Prompt.PromptLines` | scrum_master.py:45-52 | for a one-line query, the prompt starts with the fixed instructions and a blank line; then come the line `QUESTION: '<query>'`, the line `ONLINE REFERENCES:`, the block's lines, a blank line and `ANSWER:` |
| `Prompt.BlockReadsBack` | scrum_master.py:43 | when every item's displayed fields are one line each, the references block reads back as those fields in order; with no items it reads back as no references |
| `Prompt.PromptReadsBack` | scrum_master.py:41-53 | when the query and every item's displayed fields are one line each, reading a prompt back gives the question and those fields, in item order |
| `Prompt.PromptKeepsReferenceOrder` | scrum_master.py:43-52 | for a one-line query and at least one item, whatever its fields hold, the lines after the opening are the question line, the header, each reference's lines in item order, a blank line and `ANSWER:` |
| `Answer.GenerateResponse` | scrum_master.py:56-63 | when the model call fails the answer is "Sorry, I couldn't generate a response at the moment."; otherwise it is the model's text unchanged |
| `Answer.GenerateAnswer` | scrum_master.py:66-69 | the references are the search output for the query, and the answer is the model's response to the prompt built from the query and those references |
| `Sessions.StartIsValid` | scrum_master.py:72-77 | the first run's state (one empty session, current) satisfies the registry invariant |
| `Sessions.NewChatReplaces` | scrum_master.py:86-89 | "New Chat" with id k makes k current with an empty history, replacing k's history if it existed; every other session is unchanged and no other id appears |
| `Sessions.EndSessionClears` | scrum_master.py:92-94 | "End Session" leaves an empty registry and no current id from any prior state, keeps the input box, and the invariant holds afterwards |
| `Sessions.SubmitEmptyIsNoOp` | scrum_master.py:121-123 | submitting an empty input changes nothing |
| `Sessions.SubmitAppendsPair` | scrum_master.py:121-144 | a non-empty submit appends the user's question and then the answer to the current session, clears the input box and keeps the current id; with no current session in the registry, the registry is unchanged |
| `Sessions.StepKeepsValid` | scrum_master.py:86-144 | every event the UI can raise keeps the invariant: the current id, when set, names a session, and every history alternates user and assistant messages in pairs |
| `Sessions.RunKeepsValid` | scrum_master.py:72-144 | any sequence of UI events keeps that invariant |
| `Sessions.HistoriesOnlyGrow` | scrum_master.py:86-144 | over any run of events without "End Session" and without "New Chat" on a session's own id, that session stays in the registry and its old history is a prefix of its new one |
| `Sessions.NewChatThenAsk` | scrum_master.py:86-144 | "New Chat" followed by one non-empty question leaves exactly the question and then its answer in the new session |
| `Sessions.ChatState.constructor` | scrum_master.py:72-77 | the first run maps the first id to an empty history, makes it current and leaves the input box empty |
| `Sessions.ChatState.NewChat` | scrum_master.py:86-89 | the object's new state is the "New Chat" step from its old state |
| `Sessions.ChatState.EndSession` | scrum_master.py:92-94 | the object's new state is the "End Session" step from its old state |
| `Sessions.ChatState.SelectSession` | scrum_master.py:98-101 | selecting a listed session makes it current and changes nothing else |
| `Sessions.ChatState.EnterText` | scrum_master.py:147 | the text box's value becomes the pending input |
| `Sessions.ChatState.Submit` | scrum_master.py:121-144 | the object's new state is the submit step, with the answer the search and the model give for the pending input; both appends go through the current session's own list |
| `Sessions.AskInNewChat` | scrum_master.py:86-144 | on the object, a first run, "New Chat" and one question leave the new session holding exactly the question and then the answer generated for it |

## Left out

- The HTTP request to the search API, `raise_for_status` and JSON decoding (scrum_master.py:17-22, 34-36) are network I/O. The decoded response is the input `Fetch`, and a request exception is its `RequestFailed` case.
- The search URL is built without escaping (scrum_master.py:17); this only affects the outgoing request.
- JSON values in an item that are not strings (`null`, numbers) are rendered with Python's `str`. The model takes each field as an optional string.
- The call to the `gemini-pro` model (scrum_master.py:56-60) is a foreign backend. It is the parameter `backend`, a function from prompt to outcome, and every exception is its `GenerationFailed` case.
- Reading the credentials with `os.getenv` / `load_dotenv` is environment I/O; the credentials are optional string inputs.
- Session ids come from `datetime.now()` to the second (scrum_master.py:76, 87); here they are opaque strings from the caller. Two chats started in the same second therefore share an id, and `NewChatReplaces` shows that the second one wipes the first one's history.
- The sidebar's date formatting and listing order (scrum_master.py:97-100), and all rendering (logo, title, chat bubbles, spinner, `st.error`/`st.warning`/`st.success` text) are UI. Only which notice `search_online` raises is kept, as `Search.Notice`.
- `Sessions.Valid`: the pairing of user and assistant messages holds because every search response the model takes is well formed. The source catches only request exceptions (scrum_master.py:34). If `items` is not a list or an item is not an object, the error escapes `submit` after the user's message was appended (scrum_master.py:125), leaving it unpaired. `Fetch` has no such response. The pairing also relies on each event running to completion, which the model assumes. In the program, Streamlit calls run between the two appends: the spinner (line 128) and the notices (lines 14, 33, 35, 62). If the user presses Stop or clicks a sidebar button while the answer is being generated, Streamlit can raise its stop or rerun exception at one of those calls. Line 130 is then skipped, and the question stays without an answer.
- The read-back lemmas (`Search.ReferenceLines`, `Search.ReferencesReadBack`, `Prompt.BlockReadsBack`, `Prompt.PromptReadsBack`) assume one-line fields and query. A snippet with a line break makes a reference longer than three lines. For such fields only the ordering in `Prompt.PromptKeepsReferenceOrder` is proved.
- The sidebar only offers buttons for sessions in the registry, so `Sessions.ChatState.SelectSession` requires its id to be one of them.
- The UI framework reruns the script on every interaction. The model takes the initialisation (scrum_master.py:72-77) as the constructor, run once; later reruns leave the state as it is, including a current id of None after "End Session".
