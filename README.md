# Incident-triage chatbot: conversation state, prompt assembly and streaming relay

This project is a Dafny model of the repository's own logic in `main.py`. That logic sits between a server-driven UI framework and a hosted language-model client. It has four parts:

- **Conversation state** (`ConversationState.Conversation`). This is a class with the process-wide message history, a `seq<string>` that grows by one entry per completed answer and is emptied by a reset. It also holds the three onboarding answers ("Systems being used", "Initial Observations", "Initial Error messages") as three string fields. The onboarding form overwrites all three together.
- **Prompt classification** (`StreamingRelay.IsEmptyPrompt`). The event-stream endpoint takes the empty-response path when the prompt is `""` or the literal `"None"`. Every other prompt goes to the generator.
- **Prompt assembly** (`PromptAssembler`). The template is `"Previous messages:\n"`, then each history entry followed by a newline, then `"Human: "` and the prompt. The template is built by a loop (`BuildTemplate`), and the loop is proved equal to the function `Template`. `Messages` builds the fixed eight-message, role-tagged list. The onboarding answers go in slots 2, 4 and 6 and the template goes last.
- **Streaming relay** (`StreamingRelay`). The answer starts as `"**User:** " + prompt + "\n\n**Chatbot:** "`. Empty tokens are skipped. Each non-empty token is appended, and a frame `"data: " + render(output) + "\n\n"` is sent that carries the whole output so far, not the delta. When the stream ends, the output is appended to the history. The heartbeat then re-sends the last frame. If no token had content, the last frame is still the initial `''`, so the heartbeat sends `''`. The empty path sends one frame of empty Markdown and then repeats it.

Environment inputs are passed as parameters:

- The JSON rendering of the Markdown component tree is the parameter `render: string -> string`. Nothing is assumed about it.
- The tokens the model streams back are the input `tokens: seq<string>`. An absent delta content counts as `""`.
- The endless heartbeat loops run for a given number `k` of rounds.

`ChatText` holds the shared folds:

- `Concat` joins a list of pieces.
- `NonEmpty` keeps the tokens that have content.
- `Lines` writes each entry on a line of its own.

Their lemmas cover:

- concatenation over appended lists;
- dropping empty tokens, which leaves the text unchanged;
- `Lines` as the concatenation of newline-terminated entries;
- the position of each history entry inside the fold.

The relay is specified by the function `ContentTexts`, which gives the accumulated texts. The lemmas about it are:

- there is one text per non-empty token;
- text i is the opening followed by the first i + 1 non-empty tokens;
- each text is a strict prefix of every later one;
- the last text is the recorded history entry.

Two details of `main.py` shape the model:

- `prompt is None` (main.py:100) can never hold, because `prompt` is a path parameter and always a string. So `IsEmptyPrompt` tests only `""` and `"None"`. The literal `"None"` arrives because the index page builds the path `/sse/{chat}` from an absent `chat` (main.py:73).
- When no token had content, the heartbeat re-sends `msg = ''` (main.py:122, 154). That is an empty chunk rather than a `data:` frame, and the model states this case exactly.

## Model

| member | source | states |
|---|---|---|
| `ConversationState.Conversation.constructor` | main.py:18-24 | The process starts with an empty history and three empty onboarding answers. |
| `ConversationState.Conversation.ApiIndex` | main.py:42-43 | With `reset`, the history becomes empty whatever its previous length. Without it, the history is unchanged. The three onboarding answers are unchanged either way. |
| `ConversationState.Conversation.UpdateInitialInformation` | main.py:90-93 | All three onboarding answers become exactly the given strings, empty strings included. The history is unchanged. |
| `ConversationState.Conversation.AssembleMessages` | main.py:124-138 | The messages sent to the model are the eight-message list built from the current onboarding answers and the template of the current history and the prompt. |
| `ConversationState.Conversation.AiResponseGenerator` | main.py:116-155 | The messages come from the state before the call. The frames form the answer stream of the prompt and the tokens. The history grows by exactly one entry, `"**User:** " + prompt + "\n\n**Chatbot:** " + concat(tokens)`, and earlier entries are unchanged. The onboarding answers are unchanged. |
| `ConversationState.Conversation.SseAiResponse` | main.py:98-102 | A prompt equal to `""` or `"None"` gets k + 1 identical frames of empty Markdown and leaves the history unchanged. Every other prompt gets the answer stream and exactly one new history entry. The onboarding answers are never changed. |
| `PromptAssembler.Template` | main.py:124-127 | The template starts with `"Previous messages:\n"` and ends with the prompt. Its length is the header, the folded history, `"Human: "` and the prompt together. |
| `PromptAssembler.BuildTemplate` | main.py:124-127 | The loop's result equals `"Previous messages:\n" + Lines(history) + "Human: " + prompt`. |
| `PromptAssembler.TemplateNoHistory` | main.py:124-127 | With no history, the template is `"Previous messages:\nHuman: "` followed by the prompt. |
| `PromptAssembler.TemplateEntryAt` | main.py:124-127 | The template starts with the header and ends with `"Human: " + prompt`. History entry i, with its newline, sits right after the header and the entries before it, so entries appear in insertion order. |
| `PromptAssembler.TemplateExample` | main.py:124-127 | History `["X", "Y"]` and prompt `"Z"` give exactly `"Previous messages:\nX\nY\nHuman: Z"`. |
| `PromptAssembler.Messages` | main.py:129-138 | There are exactly 8 messages with roles system, assistant, user, assistant, user, assistant, user, user. Entry 0 holds the fixed system instruction. Entries 1, 3 and 5 hold the three fixed questions. Entries 2, 4 and 6 hold the systems, observations and errors answers. The last entry holds the template. |
| `ChatText.NonEmpty` | main.py:142 | The kept tokens are all non-empty, and there are no more of them than there are tokens. Every non-empty token is kept as often as it occurs, and nothing else is kept. |
| `ChatText.ConcatNonEmpty` | main.py:142-144 | Skipping empty tokens does not change the accumulated text. |
| `ChatText.NonEmptyEmptyIff` | main.py:142 | No token is kept exactly when every token is empty. |
| `ChatText.LinesAsConcat` | main.py:125-126 | The history fold equals the concatenation of each entry followed by `"\n"`, in order. |
| `ChatText.LinesEntryAt` | main.py:125-126 | In the fold, entry i with its newline starts right after the folded entries before it. |
| `StreamingRelay.Opening` | main.py:121 | The opening text is `"**User:** "`, then the prompt, then `"\n\n**Chatbot:** "` (the label appended at main.py:140), at those exact offsets. |
| `StreamingRelay.IsEmptyPrompt` | main.py:100 | A prompt takes the empty path exactly when it is `""` or `"None"`. |
| `StreamingRelay.Frame` | main.py:146-147 | A frame is `"data: "`, then the rendering of the text, then `"\n\n"`, at those exact offsets. |
| `StreamingRelay.EntryStartsWithPrompt` | main.py:150-151 | Every recorded history entry starts with `"**User:** " + prompt`. |
| `StreamingRelay.ContentTexts` | main.py:141-148 | There are no more texts than tokens, and every text starts with the opening text. |
| `StreamingRelay.ContentTextsCount` | main.py:141-148 | There is one content frame per non-empty token. |
| `StreamingRelay.ContentTextsAt` | main.py:141-148 | Frame i carries the opening followed by the concatenation of the first i + 1 non-empty tokens. This is the whole accumulated text, not the delta. |
| `StreamingRelay.ContentTextsGrow` | main.py:141-148 | Each emitted text is a strict prefix of every later one. |
| `StreamingRelay.ContentTextsLast` | main.py:141-151 | The last emitted text equals the history entry, the opening followed by all tokens. |
| `StreamingRelay.ContentTextsNone` | main.py:141-148 | No content text is produced exactly when every token is empty. |
| `StreamingRelay.RelayTokens` | main.py:140-148 | The token loop emits `"data: " + render(text) + "\n\n"` for each accumulated text of `ContentTexts`, in order and with nothing else. Its output is the opening followed by all tokens. Its `msg` is the last frame. When no frame was sent, `msg` stays `''` (main.py:122). |
| `StreamingRelay.Heartbeat` | main.py:153-155 | k rounds of heartbeat send k copies of the same frame. |
| `StreamingRelay.EmptyResponse` | main.py:105-113 | The empty path sends k + 1 frames, all equal to the frame of empty Markdown, so the first two frames are identical. |
| `StreamingRelay.StreamAnswer` | main.py:140-155 | The generator's frames are the content frames followed by k heartbeat frames. Each heartbeat frame is the frame of the full answer, or `''` when no token had content. The entry it records is the full answer. |
| `StreamingRelay.HeartbeatRepeatsLastFrame` | main.py:153-154 | When a content frame was sent, every heartbeat frame is byte-identical to the last content frame. |
| `StreamingRelay.TwoTokenExample` | main.py:141-148 | The tokens `["Hello", "", " world"]` give exactly two texts, and the second is the first followed by `" world"`. |

## Left out

- The component tree that the index page returns (main.py:44-87), including the `/sse/{chat}` path it renders. These are calls into the UI framework, and only the reset branch of `api_index` is modelled.
- The JSON serialisation of the Markdown component (`model_dump_json`, main.py:107-108 and 146-147). It is the abstract parameter `render`.
- The language-model client, its network stream and the API-key lookup (main.py:118, 141). The tokens are an input sequence. The model leaves open whether they came from the messages that were assembled.
- Routing, the catch-all HTML page and the `max_length` validation of the chat form (main.py:31, 40, 89, 97, 158-161). These are enforced by the web and validation libraries.
- The ten-second sleeps and the endless heartbeat loops (main.py:111-113, 153-155). Only k rounds are modelled.
- Failures of the upstream stream. The source does not handle them and they abort the generator.
- A client that disconnects before the stream ends. In that case the source never appends to the history. The model covers completed streams only.
- Concurrent requests that share the global state. Calls are modelled as sequential, one at a time.
