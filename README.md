# Bounded chat transcript

A Dafny model of `ChatContext` (`context.py`), the per-server conversation
state of a chat bot that relays messages to a local language model. The
transcript is a list of strings: entry 0 is the preamble, and every user
message adds `" USER: " + text` followed by the placeholder `" ASSISTANT:"`,
which later receives the model's streamed reply. After each user message the
transcript is pruned: while the token count of the joined transcript exceeds
`max_length`, entry 1 (the oldest entry after the preamble) is popped.

The model is the class `Context.ChatContext` with the fields of the Python
object (`context`, `initialContext`, `encoder`, `maxLength`, `index`) and one
method per Python method. The encoder is a field of type `string -> nat`
(the length of the encoding of a text); nothing is assumed about it. Python's
`IndexError` is the `Status` value `IndexError`, and, as in Python, whatever
the method changed before raising stays changed. Each method is proved against
specification functions (`Join`, `Pruned`, `OutputAt`), and the properties of
eviction are lemmas about `Pruned`.

The model keeps the code's fragilities:

- `index` is not adjusted when entries are evicted, so after any eviction the
  assistant's output raises `IndexError` (`AddUserInput` states exactly when
  `index` still addresses an entry; `EvictionLeavesIndexBehind` is a concrete
  case);
- `index` is not reset by `reset_context` or `set_initial_context`, so the
  output after one exchange, a reset and a new message always raises
  (`ResetLeavesIndexBehind`);
- `pop(1)` raises when only the preamble remains and it alone is over budget;
  the loop does not stop quietly (`PruneContext`, `PrunedWithinBudget`).

The invariant `1 <= |context| <= index + 1` (`ChatContext.Valid`) holds in
every reachable state: `index` never points before the last entry, so the
assistant's output lands on the last entry or raises. On a fresh object
(`index == 0`) that last entry is the preamble.

The code evicts single entries, not user/assistant pairs; turns are raw
strings, not role-tagged records; empty user input is accepted; and a
preamble that alone exceeds the budget raises `IndexError` rather than
producing a warning. The model does the same.

## Model

| member | source | states |
|---|---|---|
| `Context.ChatContext.constructor` | context.py:2-7 | The transcript is exactly `[initial_context]`, `index` is 0, and the preamble, encoder and budget are stored as given. |
| `Context.ChatContext.AddUserInput` | context.py:9-13 | The new transcript is the pruning of the old one extended by exactly `" USER: " + u` and `" ASSISTANT:"`; `index` grows by exactly 2; the result is `Ok` iff the transcript ends within budget; `index` addresses an entry afterwards iff nothing was evicted and it addressed the last entry before. |
| `Context.ChatContext.AddAssistantOutput` | context.py:15-16 | When `index` is in range the entry at `index`, which is the last entry, gets the output appended and nothing else changes; otherwise `IndexError` with the transcript unchanged; `index` never changes. |
| `Context.OutputAt` | context.py:15-16 | Element `+=`: the length is kept, the entry at `i` becomes itself followed by the output, every other entry is unchanged. |
| `Context.OutputChunks` | context.py:15-16 | Appending output `a` then `b` to the same entry equals appending `a + b` once. |
| `Context.ChatContext.PruneContext` | context.py:18-20 | The loop leaves exactly `Pruned(old context)`; it returns `Ok` iff the transcript is then within budget, and `IndexError` when `pop(1)` is reached with only the preamble left; its measure is the transcript length. |
| `Context.Pruned` | context.py:18-20 | The result is never longer than the input and, for a non-empty transcript, keeps the preamble followed by a suffix of the other entries in their original order (only position 1 is ever removed). |
| `Context.PrunedWithinBudget` | context.py:18-20 | After pruning the joined transcript is within budget, unless only the preamble is left and it alone is over budget. |
| `Context.PrunedEvictsOnlyWhenOver` | context.py:18-20 | Every shorter run of evictions still left the transcript over budget (FIFO, evicting no more than the loop must), and a transcript already within budget is left unchanged. |
| `Context.PrunedFitsIff` | context.py:18-20 | Pruning ends within budget iff dropping some number of the oldest non-preamble entries brings the transcript within budget. |
| `Context.PrunedIdempotent` | context.py:18-20 | Pruning a pruned transcript changes nothing. |
| `Context.ChatContext.GetContextStr` | context.py:22-23 | Reads only; the rendering starts with the preamble. |
| `Context.JoinAppend` | context.py:22-23 | Joining a list of entries distributes over list concatenation. |
| `Context.JoinAt` | context.py:22-23 | Each entry appears in the joined text between the join of all earlier entries and the join of all later ones (in-order concatenation). |
| `Context.ChatContext.ResetContext` | context.py:25-26 | The transcript becomes exactly `[initial_context]`; `index` and the preamble are untouched. |
| `Context.ResetTwice` | context.py:25-26 | Two resets leave the transcript as exactly the old preamble alone, as one reset does (idempotence); only the transcript may change, so the preamble and `index` are untouched. |
| `Context.ChatContext.SetInitialContext` | context.py:28-30 | The transcript becomes `[n]` and the stored preamble becomes `n`; `index` is untouched. |
| `Context.NewPreambleSurvivesReset` | context.py:25-30 | After `set_initial_context(n)`, one further message, one output and a reset, the rendered transcript is exactly `n`. |
| `Context.ResetLeavesIndexBehind` | context.py:9-26 | For every preamble, encoder, budget and texts: one message, a reset, another message, then the assistant's output raises `IndexError`, because reset does not rewind `index`. |
| `Context.EvictionLeavesIndexBehind` | context.py:9-20 | With one token per character and a budget of 20, the second message evicts entries and the following assistant output raises `IndexError`, because eviction does not rewind `index`. |

## Left out

- The Discord event handlers of `bot.py` (`on_ready`, `on_message`, `reset_chat`, `set_preamble`) and their message streaming: platform I/O. Note that `set_preamble` in `bot.py` only calls `reset_context` and ignores its argument.
- The per-server dictionary of `ChatContext` objects in `bot.py`: an inline get-or-create map insertion inside asynchronous handlers; its only further concern is concurrent access, which the model does not cover.
- `llama_terminal.py`: an interactive input/print loop around a foreign inference call.
- The `tiktoken` encoder, the `llama_cpp` inference, argument parsing and environment variables: foreign libraries and configuration. The encoder is the abstract, total `encoder: string -> nat` field, so encoder failures are not modelled (the real encoder raises `ValueError` on text holding a disallowed special token, which would make `add_user_input` raise from `prune_context` after both appends and the `index` bump).
- Integer width: Python integers are unbounded, as are Dafny's, so nothing is lost there.
