# Inner Council — a verified model of the session state machine

Inner Council is a single-page Streamlit app (`app.py`). A user describes a
personal dilemma. A "detective" persona then interrogates them for at least
three rounds. Four faction personas (rational, emotional, conservative,
adventure) each give an opinion, in that order. A "ferryman" then delivers one
verdict and answers follow-up questions. Every reply comes from a chat-completion
service reached through `call_llm`.

This project models the core of that page in Dafny:

- `text.dfy`: the Python string operations the page relies on, as functions
  over `string` with their properties proved. These are `m in s`,
  `s.split(m)[-1]`, `s.replace(t, "")`, `s.strip()` and `str(n)`.
- `chat.dfy`: messages and roles, and `call_llm`. The model service is an
  oracle. `Backend` is either `Offline`, meaning no client, or `Online(complete)`,
  where `complete` is an arbitrary function from the message list and the
  elevated-temperature flag to a reply or a raised exception. So every property
  holds for every possible model answer. It also models the reasoning-trace clean-up applied to a completed reply.
- `council.dfy`: the `st.session_state` fields as the class `Session`. Each page
  run is one method per stage: INIT, INVESTIGATE, ROUND_TABLE, VERDICT, CONSULT.
  Each method is proved equal to a pure step function on a `Snapshot` of the
  fields. It also holds the insertion-ordered `faction_opinions` dictionary and
  the `for faction in order` search as a loop. System prompts are a `Prompt`
  datatype recording what each prompt embeds. `Render` gives its text, and
  `Connect` turns a backend into the function from prompt and messages to the
  text `call_llm` returns.
- `council_proofs.dfy`: sessions as sequences of events. An event is a restart,
  a profile edit, or a page run with its chat input and backend. The file proves
  the invariant of every reachable state, the interrogation floor, the speaking
  order, monotone progress, the stability of the case summary, and what a
  session without a client can reach.

The model follows the code as written, including four behaviours worth knowing:

- **Offline sessions never reach the council.** Without a client, every call
  returns the fixed placeholder (app.py:29-31). The placeholder holds no
  `ENOUGH`, so the session stays in INVESTIGATE forever; see
  `OfflineStaysInInterrogation`.
- **The follow-up context is the user's own question.** CONSULT labels
  `history[-1]` as `前文裁决` ("previous verdict") at app.py:590, which suggests
  the ferryman's last message was meant. The list is read only after the
  user's question is appended (app.py:588), so the context holds the question
  twice; see `ConsultAnswers`.
- **A bare ENOUGH can be shown.** The completion-check prompt asks for the
  bracketed tag `【ENOUGH】` (app.py:500). The test at app.py:504 looks for the
  bare word `ENOUGH`, and only the bracketed tag is removed (app.py:511). Below
  the floor, a reply of `ENOUGH` is therefore shown to the user as the next
  question; see `BareEnoughShown`.
- **Restart restores the profile too.** `st.session_state.clear()` drops every
  field, and the defaults at app.py:398-404 are applied again. After a restart
  the profile is therefore `"INFP"` again.

## Model

| member | source | states |
|---|---|---|
| `Text.AfterLast` | app.py:44 | `split("</think>")[-1]`: the result is a suffix holding no marker. When the input holds the marker, the marker stands right before the result; when it does not, the result is the whole input. |
| `Text.LastEndBounds` | app.py:44 | No `</think>` follows the end of the last one, and such an end exists exactly when the text holds the marker. |
| `Text.TrimSpec` | app.py:45 | `strip()` removes only whitespace (Python's `isspace`), from either end. The result neither starts nor ends with whitespace. |
| `Text.RemoveAllAbsent` | app.py:511 | `replace(t, "")` leaves a text without `t` unchanged. |
| `Text.RemoveFromAbsent` | app.py:511 | A `replace` scan that meets no occurrence of `t` from index `i` on keeps the text from `i` on unchanged. |
| `Text.RemoveFromFirst` | app.py:511 | A `replace` scan from `i` keeps every character up to the first occurrence at or after `i`, drops that occurrence whole, and resumes right after it. Occurrences therefore do not overlap. |
| `Text.RemoveAllFirst` | app.py:511 | `replace(t, "")` keeps the text before the first `t` (located by `IndexOf`'s own contract), drops that `t`, and treats the rest of the text the same way: `RemoveAll(s, t) == s[..IndexOf(s, t)] + RemoveAll(s[IndexOf(s, t) + |t|..], t)`. Together with `RemoveAllAbsent` this determines the result for every text. |
| `Chat.FullMessages` | app.py:33-36 | The system prompt comes first and the history follows in order. The warm-tone system note is appended exactly when the temperature is elevated. |
| `Chat.RemoveThinkBlocksInert` | app.py:45 | The non-greedy `<think>.*?</think>` substitution changes nothing in a text without a closing marker. |
| `Chat.StripReasoning` | app.py:44-45 | The cleaned reply never contains `</think>`. |
| `Chat.StripReasoningKeepsTail` | app.py:44-45 | The cleaned reply is the stripped text after the last `</think>`, or the stripped reply when there is none. |
| `Chat.CallLlmShapes` | app.py:28-46 | Every call gives one of three results: the placeholder without a client, `"Error: "` plus the exception's text when the request raises, or otherwise the cleaned reply, which holds no `</think>`. |
| `Council.Connect` | app.py:28-46 | The session's oracle is `call_llm` on the rendered prompt. Without a client every answer, for every prompt, message list and temperature, is the placeholder. With a client every answer either starts with `"Error: "` or holds no `</think>`. |
| `Council.Put` | app.py:534 | Dictionary assignment: a new key is appended at the end, and the size grows by one exactly when the key is new. |
| `Council.PutExisting` | app.py:534 | Assigning to an existing key stores the new value at the first entry with that key. Every other entry keeps its value and the size is unchanged. (At app.py:534 the key is always new; this states the dictionary semantics `Put` implements.) |
| `Council.PutKeepsKeys` | app.py:534 | Assigning to an existing key leaves the dictionary's keys, and their insertion order, unchanged. |
| `Council.NextSpeaker` | app.py:519-525 | There is no speaker exactly when all four factions have an opinion. Otherwise it is a faction without an opinion, and every faction before it in the order has one. |
| `Council.FindNextSpeaker` | app.py:519-525 | The `for ... break` loop finds exactly the next speaker defined by `NextSpeaker`. |
| `Council.Session.constructor` | app.py:398-404 | A new session is in INIT with an empty transcript, round 0, empty context, empty summary and no opinions, and its profile is `"INFP"`. |
| `Council.Session.Reset` | app.py:463-465 | The restart button brings any state back to exactly these defaults. |
| `Council.Session.SetProfile` | app.py:460 | The profile field changes the profile and nothing else. |
| `Council.Session.StartCase` | app.py:474-485 | The INIT handler updates the fields in place exactly as `InitStep` describes. |
| `Council.Session.Interrogate` | app.py:488-515 | The INVESTIGATE handler updates the fields in place exactly as `InvestigateStep` describes. |
| `Council.Session.HoldRoundTable` | app.py:518-539 | The ROUND_TABLE handler, with its search loop, updates the fields in place exactly as `RoundTableStep` describes. |
| `Council.Session.GiveVerdict` | app.py:542-583 | The VERDICT handler updates the fields in place exactly as `VerdictStep` describes. |
| `Council.Session.AnswerFollowUp` | app.py:586-594 | The CONSULT handler updates the fields in place exactly as `ConsultStep` describes. |
| `Council.Session.Step` | app.py:474-594 | One page run dispatches on the stage and performs exactly one step of the machine. |
| `CouncilProofs.NoInputNoChange` | app.py:476 | Without chat input, or with an empty one, INIT, INVESTIGATE and CONSULT leave the state unchanged (the `if user_input:` guards at app.py:476, 489 and 587). |
| `CouncilProofs.InitOpens` | app.py:474-485 | A complaint appends the complaint and the first question to the transcript. The context becomes the complaint with the profile, then the question. The round becomes 1 and the stage INVESTIGATE. |
| `CouncilProofs.PromptFollowsFloor` | app.py:497-500 | Below round 3 the probing prompt for that round is chosen, and from round 3 on the completion check. |
| `CouncilProofs.RoundFloor` | app.py:493-504 | Below round 3 an INVESTIGATE step stays in INVESTIGATE and leaves the summary alone, whatever the model answers. |
| `CouncilProofs.HandoffExactly` | app.py:504-508 | The step moves to ROUND_TABLE if and only if input was given, the reply contains `ENOUGH` and the round is at least 3. Otherwise it stays in INVESTIGATE. |
| `CouncilProofs.InvestigateContinues` | app.py:510-515 | A continuing step appends the answer and the cleaned question to the transcript and to the context, and adds one to the round. |
| `CouncilProofs.InvestigateHandsOff` | app.py:504-509 | The hand-off appends the answer and the notice to the transcript, keeps the answer in the context, and sets the summary of that context. The round is unchanged and the stage becomes ROUND_TABLE. |
| `CouncilProofs.BareEnoughShown` | app.py:504-512 | A bare `ENOUGH` reply below the floor is shown to the user as the next question. |
| `CouncilProofs.NextSpeakerFollowsOrder` | app.py:519-525 | When the opinions hold the first `n` factions of the order, the next speaker is faction `n`, or nobody when `n` is 4. |
| `CouncilProofs.RoundTableSpeaks` | app.py:526-535 | With a faction missing, one step appends that faction's opinion to the transcript and to the dictionary. Nothing is overwritten. |
| `CouncilProofs.RoundTableAdjourns` | app.py:536-539 | With all four opinions, the step moves to VERDICT and changes nothing else. |
| `CouncilProofs.CouncilHearsAll` | app.py:518-539 | From any reachable ROUND_TABLE state, as many page runs as there are missing factions give every key, in order. Only the transcript and the opinions change, and both only grow. |
| `CouncilProofs.VerdictDelivered` | app.py:542-583 | VERDICT appends one ferryman message, asked at elevated temperature with no history, and moves to CONSULT. |
| `CouncilProofs.ConsultAnswers` | app.py:586-594 | CONSULT appends the question, then the ferryman's answer, and stays in CONSULT. The "previous verdict" passed in is the question itself. |
| `CouncilProofs.SummaryOnlyAtHandoff` | app.py:504-508 | The case summary changes only in the step from INVESTIGATE to ROUND_TABLE. |
| `CouncilProofs.StepProgress` | app.py:474-594 | Apart from a restart, an event either keeps the stage or moves it exactly one stage forward. The transcript and the opinions only grow, and the summary changes only in INVESTIGATE. |
| `CouncilProofs.RunProgress` | app.py:474-594 | Without a restart, the stage never moves back over any number of events, and the transcript and opinions only grow. |
| `CouncilProofs.RunSummaryStable` | app.py:504-508 | Once the round table has begun, only a restart can change the case summary. |
| `CouncilProofs.InvNext` | app.py:474-594 | Every page run keeps the invariant of reachable states, for every input and every model answer. |
| `CouncilProofs.RunKeepsInv` | app.py:398-594 | Restarts, profile edits and page runs all keep the invariant. |
| `CouncilProofs.Reachable` | app.py:474-539 | In every reachable state the opinions are exactly the council messages of the transcript, in order. Once the council has begun, the detective has said `round` ≥ 3 questions and then, as its last message, the hand-off notice. From VERDICT on, the opinions hold all four keys in order. |
| `CouncilProofs.RestartRestores` | app.py:463-465 | A restart yields the defaults, with the profile `"INFP"`. |
| `CouncilProofs.PlaceholderHasNoSignal` | app.py:31 | The offline placeholder does not contain `ENOUGH`. |
| `CouncilProofs.OfflineNeverConcludes` | app.py:502-504 | Without a client, an INVESTIGATE step never leaves INVESTIGATE. |
| `CouncilProofs.OfflineStaysInInterrogation` | app.py:29-31 | A session whose page runs all lack a client never gets past INVESTIGATE. |

The step functions `InitStep`, `InvestigateStep`, `RoundTableStep`,
`VerdictStep`, `ConsultStep` and `Next` carry no contract of their own. What
they do is stated by the lemmas above.

## Left out

- The page layout: the CSS, `render_chat`, the starry background, the spinners
  and the `st.info` greeting. They only display the state.
- `time.sleep` delays, and `st.rerun()`. Each page run is one step of the
  machine, and the rerun simply starts the next run.
- The network client and its construction from the API key. It is replaced by
  the `Backend` oracle. Each page run may bring a different backend, so
  answers may differ between runs.
- The temperature as a number. Only whether it exceeds 0.8 matters to
  `call_llm`, so it is the `elevated` flag: true for the verdict (0.9), false
  everywhere else (0.7).
- The wording of the prompts and of the messages sent with them. They are
  paraphrased in English by `Render`, `SeedContent`, `OpinionRequest`,
  `HandoffNotice` and `WarmToneNote`. No property depends on their wording, and
  `Debate`'s listing is defined but no property is proved about its text. The
  offline placeholder keeps the original text, since a property depends on it.
- Text.AfterLast: models `split(m)[-1]` as "the text after the last
  occurrence", which is exact for a separator that cannot overlap itself, such
  as `</think>`.
- The widget binding of the profile field. An edit is a `Profile` event; the
  page run that Streamlit then makes is a separate `Page` event with no chat
  input.
- The faction display names and avatars of `FACTIONS`. Only the keys and the
  system prompts take part in the state machine.
