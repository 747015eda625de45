# Conversational memory of the AI-coach backend, in Dafny

This project models the core of the AI-coach service's backend (`backend/main.py`).
The core is a per-user conversational memory with four parts:

- **Memory store** (`Memory`). `user_memory` maps a user id to a record of goals,
  preferences, conversation history and role. It has three operations:
  - `create_user` writes a fresh record with the given role, replacing any earlier one;
  - `update_user_memory` shallow-merges the supplied fields and refuses unknown ids;
  - `get_user_memory` is a strict read that refuses unknown ids.
- **Loop detector** (`LoopDetector`). It looks at the last six turns of a history.
  When at least four turns are there, it reports a loop if one of eight fixed marker
  phrases occurs in two or more of the user turns. The match is a case-insensitive
  substring test.
- **Context assembler** (`Context`). It builds the fixed system prompt followed by the
  last six turns of the history.
- **Message orchestrator** (`Orchestrator`). `handle_message` reads the user's record.
  An unknown id gets a transient empty record. The handler then runs the loop detector
  on the existing history.
  - On a loop it returns the fixed interrupt text and changes nothing.
  - Otherwise it appends the user turn, builds the context and calls the model. On
    success it appends the assistant turn and stores the record.

The language-model call is a parameter of `Handle`: `Generated(text)` or `Failed`.
`Handle` returns the store afterwards, the reply, and the context handed to the model.
That context is `None` when the model was not called.

For a registered user the handler appends to the stored record itself. So the user turn
is already in the store when the model is called, and a failed call leaves it there
without an answer. For an unregistered user the transient record is discarded on
failure. A successful first message from an unregistered id creates a record that has
no role.

`Text` supplies ASCII lower-casing and substring search. `Conversation` supplies turns
and the `s[-k:]` window. `Basics` supplies the option, error and result shapes.

Some choices the code makes, which the model follows:
- `create_user` silently overwrites an existing record.
- Nothing is locked.
- The code sets no time-out or retry of its own. The OpenAI client's default retries and time-out happen inside the call, and only its final outcome is modelled.
- A memory update may carry a `role` key and overwrite the role, so `Memory.Update` allows that.

## Model

| member | source | states |
|---|---|---|
| Memory.Create | backend/main.py:67-80 | Registration succeeds exactly when the chat provider accepted the user. The new record has empty goals, preferences and history and the given role, and replaces any earlier record. Other users are unchanged. |
| Memory.Update | backend/main.py:184-192 | An unknown id fails with NotFound. Otherwise each supplied field replaces the stored one, including the history. Unsupplied fields, and all other users, are unchanged. |
| Memory.Get | backend/main.py:194-198 | An unknown id fails with NotFound. Otherwise the read returns exactly the stored record. |
| Memory.UpdateThenGet | backend/main.py:189 | Reading after an update returns the merge of the old record and the patch. |
| Memory.UpdateIdempotent | backend/main.py:189 | Applying the same patch twice equals applying it once. |
| Memory.EmptyUpdateIsIdentity | backend/main.py:189 | An update that supplies no field leaves the store unchanged. |
| Memory.PreferenceRoundTrip | backend/main.py:184-198 | After merging preferences `{"x": "y"}`, a read shows `x` mapped to `y` and the history untouched. |
| Memory.CreateThenGet | backend/main.py:70-75 | A read right after registration returns the empty record with the role, whatever was stored before. |
| Text.Lower | backend/main.py:128 | `phrase.lower()` and `msg.lower()`: the result has the input's length and folds each ASCII capital to its small letter, leaving every other character as it is. |
| Text.ContainsIffOccurs | backend/main.py:128 | The recursive substring test holds exactly when the needle occurs at some offset of the haystack. |
| Text.ExactImpliesIgnoringCase | backend/main.py:128 | A phrase that occurs exactly also matches once both sides are lower-cased. |
| Conversation.Recent | backend/main.py:117 | The `[-6:]` slice (also used at line 155 for the context): the last min(k, n) elements of the sequence, in order. |
| LoopDetector.IsLoop | backend/main.py:117-131 | A history with fewer than four turns never counts as a loop. |
| LoopDetector.IsLoopMatchesReference | backend/main.py:117-131 | A loop is reported exactly when two conditions hold. The last min(6, n) turns number at least four. And some marker, lower-cased, is a substring of the lower-cased content of two distinct user turns in that window. |
| LoopDetector.CountAtLeastTwo | backend/main.py:122-129 | The per-phrase match count over the user contents reaches 2 exactly when two distinct user turns contain the phrase. |
| LoopDetector.CountAtLeastOne | backend/main.py:122-128 | The per-phrase match count over the user contents is positive exactly when some user turn contains the phrase. |
| LoopDetector.LoopIgnoresOlderTurns | backend/main.py:117 | Turns before the last six never change the verdict. |
| LoopDetector.LoopIgnoresNonUserTurns | backend/main.py:117-123 | The content of non-user turns does not matter: two histories whose windows have equal length and agree on every user turn get the same verdict. Non-user turns still count toward the window's length. |
| LoopDetector.NonUserTurnsCountTowardWindow | backend/main.py:117-131 | Two user turns sharing "let's focus" are a loop when followed by two assistant turns, but not on their own: non-user turns fill the window that must reach four. |
| LoopDetector.CollectUserContents | backend/main.py:122 | The comprehension loop yields the user-role contents of the window, in order. |
| LoopDetector.CountMatches | backend/main.py:128 | The counting loop yields how many messages contain the phrase, ignoring case. |
| LoopDetector.ScanMarkers | backend/main.py:126-131 | The marker scan, which stops at the first phrase found twice, reports whether any marker reaches the threshold. |
| LoopDetector.DetectLoop | backend/main.py:117-131 | The imperative detector agrees with the functional verdict and with the reference definition. |
| Context.BuildContext | backend/main.py:153-156 | The context is the system prompt followed by the last min(6, n) turns of the history, in order. Its length is between 1 and 7. |
| Context.ContextEndsWithNewTurn | backend/main.py:140-156 | After the user turn is appended, the context has 2 to 7 messages. It ends with that user turn, preceded by the last min(5, n) turns of the earlier history. |
| Orchestrator.StateOf | backend/main.py:110-114 | The handler works on the stored record, or on an empty record with no role when the id is unknown. |
| Orchestrator.Handle | backend/main.py:107-181 | On a loop: the fixed reply, no model call, and the store unchanged. Otherwise the model gets the context of the history plus the new user turn. Success stores the old history plus the user and assistant turns, with goals, preferences and role kept. Failure gives ModelError; a registered user keeps the dangling user turn and an unknown one leaves no entry. Other users are never touched. |
| Orchestrator.LoopIsSticky | backend/main.py:133-137 | Once the stored history loops, any series of further messages gets the interrupt reply every time, and the store never changes. |
| Orchestrator.HandleIsAppendOnly | backend/main.py:140-176 | Every stored history is a prefix of its value after the handler runs. Goals, preferences and roles of all users are unchanged. |
| Orchestrator.HandleKeepsAlternation | backend/main.py:140-176 | When the model call succeeds or a loop is detected, histories that alternated user/assistant still do. |
| Orchestrator.ExchangeKeepsAlternation | backend/main.py:140-173 | Appending a user turn and then an assistant turn to an alternating history keeps it alternating. |
| Orchestrator.ModelFailureLeavesDanglingTurn | backend/main.py:140-181 | A failed model call leaves a registered user's history one turn longer, ending in the unanswered user turn, so it no longer alternates. |
| Orchestrator.FirstExchange | backend/main.py:70-178 | After registering "u1" and sending "Hello" with the model answering "Hi there!", the reply is "Hi there!". The stored history is exactly that exchange. |
| Orchestrator.RepeatedMarkerInterrupts | backend/main.py:117-137 | A history of four "Let's focus" user turns makes any further message get the interrupt reply, and the stored history keeps four turns. |

## Left out

- HTTP routing, CORS, logging and the `__main__` server start (`backend/main.py:1-35`, `200-202`): framework plumbing.
- Stream Chat calls (`upsert_user`, `create_token`, channel creation; `backend/main.py:29-32`, `67`, `82-104`). These go to a foreign network client. Registration takes a boolean `provisioned` standing for whether `upsert_user` succeeded. The token and channel endpoints are not modelled.
- The OpenAI client, the model name and the sampling parameters `max_tokens`, `temperature` and `top_p` (`backend/main.py:159-165`). This is an external service, reduced to the `Generated(text) | Failed` result. The client's message content may be null; that case is not modelled.
- Full Unicode lower-casing of Python's `str.lower`. Only ASCII `A`-`Z` are folded.
- Async handlers and concurrency. The code has no locking, and each call is modelled as one atomic step.
- HTTP status codes (404, 400, 500) and error detail strings. Errors are the `Error` datatype.
- Arbitrary extra keys that `dict.update` can inject. A patch carries only optional goals, preferences, history and role.
- Preference values: the source allows any JSON value, and the model keeps them as opaque strings.
- Malformed stored histories. `update_user_memory` stores any JSON under `conversation_history` (`backend/main.py:189`), but a `Turn` always has a role and string content. In the code, once the window holds at least four entries (line 120): an entry without `"role"` raises at line 122; a user entry without `"content"` raises at line 122, and an assistant entry without it raises in the otherwise unused `ai_messages` list at line 123; a user turn whose content is not a string raises at line 128. Each of these makes `handle_message` answer with a server error (lines 179-181) before anything is appended. `Handle` cannot reach that error path, because such histories cannot be represented.
- The wording of the system prompt and the interrupt text: they are constants whose content no behaviour depends on.
- The `ai_messages` list (`backend/main.py:123`): it is computed but never read. Its only effect is the error on a malformed history described above.
