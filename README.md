# Miku Bot — a Dafny model of its conversation core

Miku is a Discord chat bot. Each incoming message goes through one handler:

- messages from bots are ignored;
- `!miku <command>` runs a command:
  - `modelo <alias>` chooses a generation model;
  - `limpar` clears the conversation;
  - `modelos` lists the models;
  - anything else shows help;
- other messages starting with `!`, `/` or `.` are ignored;
- everything else is chat.

For chat, the bot records the user turn in an in-memory store, asks the Gemini service for an answer, and records the answer. It replies with the answer in pieces of at most 1900 characters, or with a fixed apology.

The project has four modules:

- `Wrappers` (`wrappers.dfy`): `Option` and the JavaScript `x || fallback` idiom on possibly missing text.
- `MemoryStore` (`memory_handler.dfy`): the class `MemoryHandler`. It holds:
  - the per-conversation transcripts, each capped at `2 * maxHistory` entries;
  - the per-user model preferences.
  
  The ghost field `appendedCount` counts, per conversation, the entries appended since it was created or last cleared. The class invariant `Valid` ties each transcript's length to that count through `RetainedCount`. The pure functions `Push` and `PushAll` describe one append and a series of appends. The lemma `PushAllKeepsMostRecent` proves that a transcript always holds exactly the most recently appended entries, in order.
- `TextGeneration` (`text_generative.dfy`): `generateResponse`, modelled as a function. The service call is the function parameter `api`. What the service answers (a thrown error or a result object) is the datatype `ApiOutcome`. `Classify` runs the source's chain of guards over it and produces a `Success` or a `Failure`.
- `Router` (`router.dfy`): the message handler of `index.js`. It covers:
  - the ECMAScript `trim` and the split on `\s+`;
  - command parsing, routing, and the two conversation-key derivations;
  - the model-list text and the chunking of long replies;
  - the handler methods that drive the store and the generator.
  
  Replies are returned as a sequence of `Reply` values instead of being sent.

Behaviour of the code worth knowing:

- Eviction removes the two oldest entries whatever their roles, although the comment at src/Memory/memoryHandler.js:18-19 calls them "the oldest pair of messages". After a failed generation only the user turn is recorded, so the entries evicted later are not a pair. Once over the cap, a transcript's length alternates between `2 * maxHistory` and `2 * maxHistory - 1` (`RetainedCount`). When `maxHistory` is 0, the single pushed entry is removed and the transcript stays empty.
- Input that is empty after trimming is not ignored: it goes to the chat path (`Route`).
- The chat path derives its conversation key from the channel type (`channel.type === 'DM'`). The clear command derives it from the absence of a guild. `KeysAgree` states exactly when the two keys coincide.
- A user with no stored preference gets `gemini-1.5-flash` from the store. That name is not an alias, so the generator falls back to `gemini-2.5-flash-lite`, and the model list marks no line (`UnsetPreferenceResolves`, `UnsetPreferenceUnmarked`).

## Model

| member | source | states |
|---|---|---|
| `Wrappers.OrElse` | src/Models/textGenerative.js:102-107 | a present, non-empty text is kept; a missing or empty one (both falsy) gives the fallback |
| `MemoryStore.Push` | src/Memory/memoryHandler.js:14-20 | one append is a suffix of the old transcript plus the entry; below the cap it is exactly that; at or over the cap two entries (or the single one) go; it never passes a cap it was within; the new entry is last unless the cap is smaller than 2 |
| `MemoryStore.RetainedCount` | src/Memory/memoryHandler.js:9-21 | after `n` appends a transcript holds all `n` up to the cap and, past the cap, the cap or one fewer; never more than the cap |
| `MemoryStore.PushKeepsMostRecent` | src/Memory/memoryHandler.js:9-21 | one append preserves "the transcript is the last `RetainedCount` entries appended since the last clear" |
| `MemoryStore.PushAllFrom` | src/Memory/memoryHandler.js:9-21 | the same invariant across any number of appends, from any starting history |
| `MemoryStore.PushAllKeepsMostRecent` | src/Memory/memoryHandler.js:9-21 | any sequence of appends on an empty transcript leaves exactly the most recent entries, in order, and never more than the cap |
| `MemoryStore.TwentyFiveExchanges` | src/Memory/memoryHandler.js:2-21 | with the default `maxHistory` of 20, twenty-five user/assistant exchanges leave the last 40 entries |
| `MemoryStore.MemoryHandler.constructor` | src/Memory/memoryHandler.js:2-6 | a new store has the given `maxHistory` (20 by default) and no conversations or preferences |
| `MemoryStore.MemoryHandler.AddMessage` | src/Memory/memoryHandler.js:9-21 | the conversation (empty when new) becomes `Push` of it with the entry; no other conversation and no preference changes; the invariant is kept |
| `MemoryStore.MemoryHandler.GetHistory` | src/Memory/memoryHandler.js:24-26 | a known conversation reads as its stored transcript and an unknown one as empty; a transcript never exceeds `2 * maxHistory` and has `RetainedCount` of the appends since its last clear |
| `MemoryStore.MemoryHandler.ClearHistory` | src/Memory/memoryHandler.js:29-32 | the conversation becomes empty (created if absent); it reads back empty; nothing else changes; the answer is `true` |
| `MemoryStore.ClearTwice` | src/Memory/memoryHandler.js:29-32 | clearing is idempotent |
| `MemoryStore.MemoryHandler.SetUserModel` | src/Memory/memoryHandler.js:35-38 | stores the preference and returns it; afterwards this user's model reads back as it (or the default for an empty name); no other user's model and no transcript changes |
| `MemoryStore.MemoryHandler.GetUserModel` | src/Memory/memoryHandler.js:41-43 | never empty; the default `gemini-1.5-flash` exactly when nothing, the empty name or the default is stored; otherwise the stored name |
| `TextGeneration.GetModel` | src/Models/textGenerative.js:10-26 | always one of the model identifiers; a known alias gives its own, any other alias the default's |
| `TextGeneration.GetModelFallsBack` | src/Models/textGenerative.js:10-26 | an alias gives `gemini-2.5-flash-lite` exactly when it is neither `flash` nor `pro` |
| `TextGeneration.GetAvailableModels` | src/Models/textGenerative.js:28-30 | every alias exactly once, nothing else, and the aliases resolve to distinct identifiers |
| `TextGeneration.HistoryContents` | src/Models/textGenerative.js:38-41 | one request turn per entry, in order, with `assistant` renamed `model` |
| `TextGeneration.BuildContents` | src/Models/textGenerative.js:35-44 | the request is the persona as a user turn, then the transcript turn by turn, then the prompt as a user turn |
| `TextGeneration.HistoryRoundTrip` | src/Models/textGenerative.js:35-44 | a user/assistant transcript is carried without loss: reading the request back gives it again |
| `TextGeneration.Caught` | src/Models/textGenerative.js:102-107 | every caught error is a failure with a non-empty message |
| `TextGeneration.Classify` | src/Models/textGenerative.js:55-107 | success exactly when there is a non-empty candidate list whose first candidate is not safety-blocked and has a first part with text; the success carries that text, the model, the alias and the finish reason; a failure always has a message |
| `TextGeneration.GenerateResponse` | src/Models/textGenerative.js:31-109 | the service is asked with the resolved model and the built request; the result is never a thrown fault; success and its fields exactly as `Classify` says of the service's answer |
| `TextGeneration.FailureMessages` | src/Models/textGenerative.js:55-107 | the message of every failing guard: an undefined result, missing candidates with or without an error object, a thrown error, an empty candidate list, a safety-blocked first candidate, a first candidate without content or parts, and a first part that is null or has no text |
| `TextGeneration.ForcedOutcomes` | src/Models/textGenerative.js:55-100 | of a thrown error, an empty candidate list, a safety block and a well-formed single candidate, only the last succeeds, whatever its other finish reason and even with empty text |
| `Router.Trim` | index.js:60 | the result is the input between its leading and trailing white space and neither starts nor ends with white space |
| `Router.TrimBlank` | index.js:60 | input made only of white space trims to the empty text |
| `Router.SplitOnSpaces` | index.js:65 | at least one token, none containing white space; the first token is the input up to its first white space (the whole input when there is none, and then it is the only token); the remaining tokens are the split of the text after that white-space run |
| `Router.SplitAfterWord` | index.js:65-66 | a word, a non-empty white-space run, then text not starting with white space split as the word followed by the split of that text, so the command is the first word and the alias the second |
| `Router.SplitOnSpacesKeepsText` | index.js:65 | the tokens put together are the input without its white space |
| `Router.SplitTrimmedTokensNonEmpty` | index.js:65 | a trimmed non-empty text splits into non-empty tokens |
| `Router.ToLower` | index.js:66 | same length; each letter A–Z becomes its lower case; every other character is kept |
| `Router.SplitJoin` | index.js:214-216 | joining separator-free lines and splitting again gives the lines back |
| `Router.CommandOf` | index.js:63-88 | the lower-cased first token chooses the command (`modelo`, `limpar`, `modelos`), and anything else shows help; the alias is the second token as typed |
| `Router.BarePrefixShowsHelp` | index.js:63-88 | the prefix alone, or followed by white space only, shows help |
| `Router.PrefixIsReserved` | index.js:63-95 | the command prefix starts with a reserved character |
| `Router.Route` | index.js:48-95 | bots are ignored; the trimmed input is a command exactly when it starts with `!miku`, and chat exactly when it does not start with `!`, `/` or `.`; chat carries the trimmed input |
| `Router.KeysAgree` | index.js:54-59 | the chat key (derived at index.js:54-59) and the clear-command key (derived at index.js:181-183) coincide exactly when the channel-type test and the guild test agree, or the channel id is `dm_<user>` |
| `Router.DirectKeysSeparate` | index.js:54-59 | direct-message keys never equal a guild channel's id |
| `Router.ModelLines` | index.js:214-216 | one line per model, in order |
| `Router.ModelLineShape` | index.js:214-216 | a line is check-marked exactly when its model is the current one; a single-line model gives a single line |
| `Router.ModelListLines` | index.js:214-216 | the list splits back into one line per model; a line is marked exactly when its model is current; distinct models leave at most one marked line |
| `Router.AliasesSingleLine` | src/Models/textGenerative.js:10-14 | no alias contains a line break |
| `Router.ShowAvailableModels` | index.js:209-226 | the model-list reply splits into exactly the lines of the aliases, marked for the current preference |
| `Router.UnsetPreferenceResolves` | index.js:107-113 | the store's default preference is not an alias, so a user without a preference is served `gemini-2.5-flash-lite` |
| `Router.UnsetPreferenceUnmarked` | index.js:209-216 | a user without a preference sees no marked model |
| `Router.ChunksProperties` | index.js:121-129 | the chunks put together are the reply; there are `ceil(length / 1900)` of them; none is empty or longer than 1900, and all but the last are exactly 1900 |
| `Router.ChunksFrom` | index.js:127-129 | one step of the chunk loop |
| `Router.SplitReply` | index.js:125-129 | the loop's chunks are `Chunks` of the reply |
| `Router.OutgoingTexts` | index.js:121-139 | the texts sent put together are the answer; a short answer goes out whole; a long one in pieces of at most 1900 |
| `Router.ChunksOf3500` | index.js:121-129 | 3500 characters go out as 1900 and 1600 |
| `Router.TextReplies` | index.js:131-137 | one plain reply per text, in order |
| `Router.AnswerReplies` | index.js:121-139 | the replies carry `OutgoingTexts` of the answer |
| `Router.HandleModelCommand` | index.js:155-177 | an accepted alias is stored, confirmed, and reads back and resolves to its own model; anything else leaves preferences unchanged and lists the aliases; transcripts never change |
| `Router.HandleClearCommand` | index.js:179-188 | empties the conversation under the clear-command key, confirms, and changes nothing else |
| `Router.HandleChat` | index.js:98-146 | records the user turn; asks the generator with the recorded transcript (new turn included) and the author's preference; on success records the answer and replies with its pieces; on failure keeps only the user turn and apologises; preferences never change |
| `Router.OnMessage` | index.js:48-152 | does what `Route` says: nothing for ignored messages; help and the model list change nothing; clear and model commands have their handlers' effects and replies; chat records the trimmed input as a user turn under the chat key, asks the generator with that transcript and the author's preference, records the answer only on success, and replies with its pieces or with the apology; no other conversation changes |

## Left out

- Discord itself is not modelled: the client, login, presence, `sendTyping`, and the embed layout (colour, title, footer, timestamp, the help fields). The help reply is the constant `HelpEmbed`; the model-list reply keeps only its description.
- The outer `catch` of the message handler (index.js:148-151) is not modelled. It answers failures of Discord calls, and the modelled store and generator never fail.
- The Gemini call is the function parameter `api`. The safety settings it is sent are not modelled, and neither is the network behind it. Logging (`console.*`) is left out.
- ai.js and src/Configs/config.js are not part of this model.
- Handlers run one at a time. The interleaving of asynchronous handlers at each `await` is not modelled.
- Aliasing is not modelled: `getHistory` returns the stored array itself. The model hands over a value, which matches the source because the request is built before the array is touched again.
- Null entries in the candidate list, and a text that is present but not a string, are not modelled.
- `Router.ToLower`: lower-cases only A–Z, where `toLowerCase` maps every Unicode letter. No command word can arise from lower-casing a non-ASCII letter, so routing is unaffected.
- Lengths and substrings count Unicode code points. JavaScript counts UTF-16 code units, so `Router.Chunks` differs from the source for text outside the Basic Multilingual Plane.
- `TextGeneration.GetModel`: keys inherited from `Object.prototype` (an alias such as `toString`) are not modelled. The model treats them as unknown aliases.
- `MemoryStore.MemoryHandler.Valid`: the class invariant tracks how many entries each transcript holds. That the transcript holds the most recent of them is proved of `Push`/`PushAll` (`PushAllKeepsMostRecent`), not carried as part of the invariant.
