# ChatLLM chat core in Dafny

ChatLLM is a set of desktop and web front-ends for a local text-generation
backend (ollama). Apart from widget layout, each front-end does one thing:
it keeps a chat transcript and streams a reply into it. The user presses
"Go" with a prompt. The handler appends a user entry and an empty reply
entry. It then reads the backend's stream of fragments into the reply. A
second press stops the reading at the next fragment boundary. The variant
in `chatllm_remove.py` differs: its reply starts as "AI:" and cannot be
stopped.

This project models that core for three variants of the front-end:

- `chatllm.dfy` covers `chatllm.py`, the flet front-end (module `ChatLLM`).
  Class `App` holds the state of `main`: the chat list, the `answering`
  flag, whether a model is loaded, and the prompt field. Its handlers are
  "Go"/"Stop", the reply button, "Clear chat" and "Clear context". The
  module also has the text export `chat_to_str`. Every entry carries the
  backend's continuation token (`context`). A new turn is seeded with the
  previous entry's token. A fragment with `done` set replaces the token.
- `chatllm_old.dfy` covers `chatllm_old.py`, the customtkinter front-end
  (module `ChatLLMOld`). It has `str_chunks`, which wraps a message into
  fixed-width lines. It has the text-box height computed from that. Its
  class `ChatLLM` keeps the chat, the box heights, the `answering` flag and
  the prompt field, and has the handler `prompt_cb`.
- `chatllm_remove.dfy` covers `chatllm_remove.py` (module `ChatLLMRemove`).
  Its "Go" handler has no guard and cannot be cancelled.
- `conversation.dfy` holds what the variants share: the roles, the
  fragment record, the text of a stream (`Responses`) and the token left
  after a stream (`ContextAfter`).
- `text.dfy` models Python's `join` and `split`, and the reply quote.
- `wrappers.dfy` holds `Option`, which stands for Python's `None`.

The backend's stream is an input `seq<Fragment>`. The stop press arrives
while the loop waits for a fragment. It is an input `stopAt`: the index of
the fragment at whose boundary the handler first sees `answering` cleared.
At that boundary the model runs the stop press's effect (`stop()` in
`chatllm.py`, `self.answering = False` in `chatllm_old.py`). The loop then
sees the flag and breaks. The fragment at `stopAt` is not read.

Points where the code behaves in a way a reader might not expect, which the
model follows:

- The program raises no error and shows no message for a press of "Go"
  while a reply streams. In `chatllm.py` and `chatllm_old.py` that press
  runs the stop branch of the same handler, so its intended effect is to
  stop the reply. This holds only if the old loop sees the cleared flag
  before any further press; see "## Left out" for overlapping presses.
- The text export does not end every block with an empty line. It joins
  the `"role:\ncontent\n"` blocks with `"\n"`, so the last block ends with
  a single newline. `ChatToStrIsTranscript` proves that the export plus one
  newline is the block-per-turn transcript in which every block ends with
  an empty line.
- Neither the old variant nor the remove variant carries a continuation
  token.
- "Clear chat" has no guard of its own. The page disables the clear
  buttons while a reply streams.

The functions that compute what the source computes are reached through
the rows below; each maps to one source expression. `ChatLLM.ChatToStr` is
`chat_to_str` without `in_json` (chatllm.py:108-110), and `ChatLLM.App.ChatText`
applies it to the page's chat. `Text.Join` is Python's `'\n'.join`.
`Text.QuoteReply` is the quote built at chatllm.py:87. `ChatLLM.LatestContext`
is the seed `chat[-1]['context'] if chat else None` (chatllm.py:195).
`ChatLLMOld.Chunks` is `str_chunks` (chatllm_old.py:7-25). `ChatLLMOld.Height`
is the height `28 + 18 * len(str_chunks(msg, 60))` (chatllm_old.py:169 and 179).

## Model

| member | source | states |
|---|---|---|
| `ChatLLM.App.constructor` | chatllm.py:40-43 | A page starts with an empty chat, not answering, no model and an empty prompt field. |
| `ChatLLM.App.ModelLoadClicked` | chatllm.py:53-57 | Choosing a model makes a model loaded. |
| `ChatLLM.App.Stop` | chatllm.py:166-174 | `stop()` clears `answering`. |
| `ChatLLM.App.ChatAddEntry` | chatllm.py:91-92 | The entry is appended to the chat and nothing else in it changes. |
| `ChatLLM.App.PromptGoClicked` | chatllm.py:163-209 | If answering, or if no model is loaded, the chat and the prompt field stay unchanged. Otherwise the prompt field is cleared, and an empty or missing prompt leaves the chat unchanged. Otherwise the chat grows by exactly `Turn(...)`: the user entry with the prompt, then the reply entry holding the responses read before the stop was seen. Both entries are seeded with the previous last entry's token. Every path ends with `answering` false, and a paired chat stays paired. |
| `Conversation.Processed` | chatllm.py:201-204 | The number of fragments read is the whole stream or exactly `stopAt`, whichever comes first. |
| `ChatLLM.ReplyPrefix` | chatllm.py:201-205 | A reply stopped earlier is a prefix of one stopped later or never stopped. When the stop is seen at fragment `stopAt`, that fragment and all later ones are left out. |
| `ChatLLM.ReplyContext` | chatllm.py:206 | The reply's token keeps the seed if no finishing fragment was read. Otherwise it is the token of the last finishing fragment that was read. |
| `ChatLLM.TurnShape` | chatllm.py:195-198 | A turn is two entries. The first is a user entry with the prompt and the previous last entry's token (None for an empty chat). The second is an assistant entry. With no finishing fragment, the reply keeps the seeded token. The token the next turn starts from is the reply's. |
| `ChatLLM.TurnKeepsPaired` | chatllm.py:195-198 | Adding a turn to a chat whose entries alternate user, assistant keeps them alternating, with an even count. |
| `ChatLLM.App.ClearContextClicked` | chatllm.py:129-133 | The chat becomes `WithoutLastContext` of the old chat: unchanged when empty, otherwise only the last entry's token is set to None. |
| `ChatLLM.WithoutLastContextShape` | chatllm.py:129-133 | Clearing the context keeps every entry's role and content and every earlier entry. The last entry changes only in its token, which becomes None, so the next turn starts without a token. It also keeps a chat paired. |
| `ChatLLM.App.ClearChatClicked` | chatllm.py:120-121 | The chat becomes empty. |
| `ChatLLM.App.ChatEntryReplyClick` | chatllm.py:86-88 | The prompt field becomes the reply quote of entry `i`'s content. |
| `ChatLLM.ChatToStrIsTranscript` | chatllm.py:108-110 | The export of an empty chat is "". Otherwise the export plus "\n" is one `"role:\ncontent\n\n"` block per entry, in chat order. |
| `Text.Split` | chatllm.py:87 | `split('\n')` gives one piece more than the string has newlines, and no piece contains a newline. |
| `Text.JoinSplit` | chatllm.py:87 | Joining the pieces of a split with the separator gives back the original string. |
| `Text.SplitJoin` | chatllm.py:87 | Splitting a join of newline-free pieces gives back the pieces. |
| `Text.QuoteReplyLines` | chatllm.py:87 | The reply quote splits into exactly as many lines as the content does. Line `i` of the quote is line `i` of the content prefixed with "> ". |
| `Conversation.ResponsesAppend` | chatllm.py:205 | Appending each fragment's response in turn builds the concatenation of all the responses. |
| `Conversation.ResponsesPrefix` | chatllm.py:201-205 | The text read from the first `k` fragments is a prefix of the text of the whole stream. |
| `Conversation.ContextAfterNoDone` | chatllm.py:206 | A stream with no finishing fragment leaves the seeded token. |
| `Conversation.ContextAfterLastDone` | chatllm.py:206 | Otherwise the token is the one carried by the last finishing fragment. |
| `ChatLLMOld.Spaces` | chatllm_old.py:14 | `' ' * n` is `n` spaces, or none when `n` is not positive. |
| `ChatLLMOld.StrChunks` | chatllm_old.py:7-25 | The loop returns `Chunks(s, w)`: the lines finished by the per-character step, then the leftover line if it is not empty. |
| `ChatLLMOld.ScanHasShape` | chatllm_old.py:12-20 | For `w >= 1`, the loop keeps finished lines of exactly `w` characters with no newline, and the line being filled has fewer than `w` characters and no newline. |
| `ChatLLMOld.ChunksShape` | chatllm_old.py:12-25 | For `w >= 1`, an empty input gives no chunks, and every chunk but the last has length `w`. The last chunk has between 1 and `w` characters, and it is shorter than `w` exactly when it is the leftover line. No chunk contains a newline. |
| `ChatLLMOld.NewlinePads` | chatllm_old.py:13-20 | A newline finishes the current line, padded with spaces to exactly width `w`. |
| `ChatLLMOld.FeedChar` | chatllm_old.py:15-20 | An ordinary character is added to the text of the lines without change. |
| `ChatLLMOld.ScanOfLine` | chatllm_old.py:15-20 | For newline-free input, the finished lines followed by the line being filled are the input. |
| `ChatLLMOld.ChunksOfLine` | chatllm_old.py:15-25 | For newline-free input, the chunks concatenate to the input. There are `n` of them, with `|s| <= n * w < |s| + w`. |
| `ChatLLMOld.EntryHeight` | chatllm_old.py:179 | The height is `28 + 18 * len(str_chunks(msg, 60))`. It is 28 exactly for an empty message and a multiple of 18 above 28 otherwise. For a message without newlines, it gives just enough 60-character lines to hold the message. |
| `ChatLLMOld.ChatLLM.constructor` | chatllm_old.py:60-62 | The window starts with an empty chat, no text boxes and not answering. |
| `ChatLLMOld.ChatLLM.AddChatEntry` | chatllm_old.py:176-187 | A new message gets a text box sized by the height formula. |
| `ChatLLMOld.ChatLLM.UpdateLastChatEntry` | chatllm_old.py:161-174 | The last text box is resized to the last message's new text. |
| `ChatLLMOld.ChatLLM.PromptCb` | chatllm_old.py:190-226 | An empty prompt, or a press while answering, leaves the chat and the prompt field unchanged. Otherwise the chat grows by exactly the user message with the prompt and an "ai" message. That message holds the responses read before the stop was seen, and the prompt field is cleared. `answering` ends false, and every text box keeps the height of its message. |
| `ChatLLMRemove.ChatLLM.constructor` | chatllm_remove.py:42 | The page starts with an empty chat. |
| `ChatLLMRemove.ChatLLM.PromptGoClicked` | chatllm_remove.py:86-106 | With no guard, the chat grows by exactly the prompt, taken verbatim (even None), and an "AI:" message followed by every fragment's response. Earlier messages are unchanged and the prompt field is cleared. |
| `ChatLLMRemove.ReplyPrefix` | chatllm_remove.py:100-106 | Every fragment is read, so the reply after `k` fragments is a prefix of the final reply. Each fragment extends the reply by exactly its response. |

## Left out

- The ollama calls (`Model.get_models`, `Model.prompt`, `Model.prompt_stream`, `Model.generate_suggestions` with its `json.loads`) are calls into the backend. The stream is an input sequence of `{response, done, context}` records. A stream that raises mid-way, which would skip `stop()` and leave `answering` set in `chatllm.py`, is not modelled.
- In the flet variants (`chatllm.py`, `chatllm_remove.py`) a press runs on its own worker thread. The stop press in `chatllm.py` clears `answering` while the loop waits for a fragment. customtkinter in `chatllm_old.py` runs on one thread, so no handler runs while `for t in stream` waits. There the stop press is handled re-entrantly inside `self.update()`: after each fragment (chatllm_old.py:174) and after each new message (chatllm_old.py:188). In both cases the loop first sees the cleared flag at a fragment boundary. The model takes that boundary as the input `stopAt` and applies the press's effect there. Neither the threads nor the event loop's re-entrancy are modelled.
- Overlapping presses are not modelled. The flet variants run each click on a worker thread, but the model runs each handler as one step and weaves in only the stop press, through `stopAt`. This leaves out two effects of overlapping presses. (1) In `chatllm.py`, a user can type a new prompt and press "Go" after the stop press has run `stop()` (chatllm.py:169) but before the old loop checks the flag again (chatllm.py:202). The guard at chatllm.py:176 lets the new press through, and chatllm.py:186 sets `answering` back to true. The old loop then never sees the stop. It appends its remaining fragments to `chat[-1]`, which is now the new turn's assistant entry (chatllm.py:205). Its final `stop()` (chatllm.py:209) then cuts the new reply short. (2) In `chatllm_remove.py`, any second press during a stream appends a new user/"AI:" pair (chatllm_remove.py:89, 95). Both loops then write into the newest "AI:" message (chatllm_remove.py:105), and the earlier reply is cut off. The model's promises apply only to presses that do not overlap: the reply prefix, the seeded token and the pairing of entries.
- A finishing fragment whose record lacks a `context` key (a `KeyError` in the program) is not modelled. The fragment's token is an `Option`.
- Widget construction and updates are GUI and are not modelled. These include flet and customtkinter controls, `page.update`, snack bars, button colours and labels, themes, the suggestions grid, `prompt_suggestion_click`, `prompt_focus`, `models_update`, and the copying of text into widgets in `chat_update_entry` and `update_last_chat_entry`. Only the text-box heights of `chatllm_old.py` are kept.
- `ChatLLM.App.ClearChatClicked`: the page disables the clear buttons while a reply streams. That disabling is GUI and is not modelled.
- The clipboard and files (`copy_chat_click`, `save_chat_click`, the copy button of an entry) are I/O. `App.ChatText` is the text they would write.
- The JSON branch of `chat_to_str` is a library serialiser.
- Loading `settings.json` and `topics.json`, and the `random.sample`/`random.choice` suggestions, are I/O and randomness.
- The timestamps from `datetime.now()` are opaque string parameters of `PromptGoClicked`.
- The model object is a loaded/not-loaded flag in `chatllm.py`. Its name and language tag are not modelled. In the other two variants the "Go" button is disabled until a model is loaded, so their handlers do not check it.
