# automatic-translator, modelled in Dafny

This project models the core of the automatic translator. It covers two parts:

- The text chunker `chunkText` splits a text into pieces of at most a given size. It prefers to cut after a sentence ending (`.`, `!` or `?` followed by whitespace) that lies in the last 50 characters of the window. Otherwise it cuts after the last space, and failing that it cuts hard at the size. Each piece is trimmed.
- The class `AutomaticTranslator` keeps a registry of translation providers and a rotating cursor, `currentProviderIndex`, into that registry. `translate` first checks the input. It then chunks the text and does one of two things:
  - **Specific mode.** When a provider is named, every chunk goes to the first provider whose lower-cased name matches. The call fails if that provider is unknown or unavailable. A rate-limit error from it aborts the call, and any other error is rethrown.
  - **Automatic mode.** Otherwise each chunk is offered to the providers in turn, starting at the cursor, with at most one attempt per registry slot. Unavailable providers are skipped, and every skip or failure moves the cursor on. The call fails as soon as one chunk finds no provider that answers.

  The registry operations `addProvider`, `resetProviders`, `getAvailableProviders` and `getAllProvidersInfo` are modelled as well.

A provider is modelled as an object with four parts:

- a name;
- an `available` flag;
- a count of the requests it has served;
- a reply oracle, which is a function of the chunk, the options and the request count.

A reply is either a translation or a `TranslationError` with its `ErrorType`. A `RATE_LIMIT` failure clears `available`, as the HTTP providers do, for example MyMemory and DeepL.

## Layout

| File | Module | Contents |
|---|---|---|
| `types.dfy` | `Types` | The records and the error enumeration of `src/types/index.ts`. |
| `jsstring.dfy` | `JsString` | The JavaScript string built-ins the core relies on: the `\s` class, `trim`, `substring`, `lastIndexOf`, the global match `/[.!?]\s/g`, `toLowerCase` and `join`. |
| `chunker.dfy` | `Chunker` | `ChunkText`, a loop like the source's. Also a reference definition of the cut position (`NextCut`) and of the chunk list (`Chunks`), with their properties. |
| `provider.dfy` | `Providers` | The provider object and the state change one request causes. |
| `translator.dfy` | `Translator` | A reference model of `translate`, and the class `AutomaticTranslator`. |

The reference model works on a snapshot of the providers' states, a map from provider object to `Status`. Keying the map by object keeps it right when the same provider object is registered twice.

The main functions are:

- `TryChunk`: one chunk's round of attempts;
- `AutoRun`: automatic mode;
- `PinnedRun`: specific mode;
- `TranslateSpec`: the whole call.

`AutomaticTranslator.Translate` runs the source's loops. The body of `translate` is split over the methods `TranslateChunks`, `TranslateAuto`, `TryProviders`, `TranslateWith`, `Ask` and `Advance`. Each of these methods is proved to give the result, the cursor and the provider states that the reference model gives. The properties are then proved as lemmas about the reference model.

Absent options are written as in JavaScript's truthiness tests:

- the empty string for `sourceLanguage` and `specificProvider`;
- `0` for `chunkSize`, which then means the default 300.

The source always sends a chunk to the providers, even one that is empty after trimming. A run of more than `chunkSize` whitespace characters can give such a chunk. The model keeps this behaviour.

The model also keeps two other details of the code:

- The space fallback looks only for `' '`, at an index up to and including the window end, so a piece can run one character past the size (`Chunker.NextCutOverrun`). Trimming then removes that space.
- The all-failed error is a fixed message. `AllProvidersFailed` carries no data.

## Model

| member | source | states |
|---|---|---|
| `JsString.TrimStart` | src/utils/chunker.ts:41 | The result is the suffix of the string that remains after its leading whitespace is removed. It does not start with whitespace, and everything removed was whitespace. |
| `JsString.TrimEnd` | src/utils/chunker.ts:41 | The result is the prefix of the string that remains after its trailing whitespace is removed. It does not end with whitespace, and everything removed was whitespace. |
| `JsString.IsWhitespace` | src/utils/chunker.ts:27 | The `\s` class, which is also the set `trim` strips. No sentence terminator is whitespace, which is why two matches of `/[.!?]\s/` cannot overlap. |
| `JsString.Trim` | src/utils/chunker.ts:41 | The trimmed string is no longer than the input, and it neither starts nor ends with whitespace. |
| `JsString.TrimStripped` | src/utils/chunker.ts:41 | `trim` removes exactly the leading and trailing whitespace: the result is a contiguous part of the input with only whitespace before and after it. Together with `Trim`, this pins the result down. |
| `JsString.TrimEmptyIffAllWhitespace` | src/translator.ts:47-49 | `trim` gives the empty string exactly when the text is all whitespace. This is what the empty-text check rejects. |
| `JsString.TrimDropsTrailingWhitespace` | src/utils/chunker.ts:41 | A piece that ends in whitespace gets strictly shorter when trimmed. |
| `JsString.Substring` | src/utils/chunker.ts:26 | Within bounds, `substring` is the slice. An end past the string's length gives the rest of the string. |
| `JsString.LastOccurrenceAtOrBelow` | src/utils/chunker.ts:34 | The result is an occurrence at or below the bound, or -1, and there is no occurrence between the result and the bound. |
| `JsString.LastIndexOf` | src/utils/chunker.ts:34 | The result is the last occurrence starting at or below the clamped start position, or -1 when there is none. |
| `JsString.MatchPositions` | src/utils/chunker.ts:27 | The positions a global `/[.!?]\s/g` scan finds are sentence ends, strictly increasing, and at or after the start. |
| `JsString.MatchPositionsComplete` | src/utils/chunker.ts:27 | Matches cannot overlap, so the global scan finds every sentence end. |
| `JsString.SentenceMatches` | src/utils/chunker.ts:27 | Each matched string is two characters long, and there is one per match position, found at that position. |
| `JsString.LastMatchRefound` | src/utils/chunker.ts:29-31 | Searching the segment with `lastIndexOf` for the last match's text finds exactly the last match's position. |
| `JsString.LastMatchIsLast` | src/utils/chunker.ts:27-30 | No sentence end lies after the last match of the scan. |
| `JsString.SameSentenceEnd` | src/utils/chunker.ts:30 | Two positions that hold the same two characters are either both sentence ends or neither is. |
| `JsString.ToLower` | src/translator.ts:64 | Lower-casing keeps the length and maps each character on its own. |
| `JsString.LowerChar` | src/translator.ts:64 | The result is never an upper-case ASCII letter. An upper-case letter maps to its lower-case form, and any other character is kept. |
| `JsString.Join` | src/translator.ts:90 | Joining nothing gives the empty string. Otherwise the result starts with the first element and ends with the last. |
| `Chunker.WindowStart` | src/utils/chunker.ts:25 | The window starts at the later of the chunk start and 50 characters before the cut. |
| `Chunker.LastSentenceEnd` | src/utils/chunker.ts:25-31 | The result is the last sentence end that fits inside the window, or -1 when the window has none. |
| `Chunker.NextCut` | src/utils/chunker.ts:20-39 | The cut always comes after the chunk start when the size is at least 1. It is at most one character past the size, and it stays within the text when the window ends inside the text. |
| `Chunker.NextCutStallsAtZero` | src/utils/chunker.ts:17-20 | With chunk size 0, the cut stays at the chunk start, so the source's loop never advances. |
| `Chunker.NextCutFinal` | src/utils/chunker.ts:20-42 | When the rest of the text fits in one chunk, the last piece is the whole rest of the text. |
| `Chunker.NextCutOverrun` | src/utils/chunker.ts:34-36 | A cut one character past the chunk size happens only when the window end lies inside the text and holds a space. That space is the one the fallback cuts after. |
| `Chunker.NextCutSentence` | src/utils/chunker.ts:29-31 | When the window holds a sentence end, the cut falls right after the last one. |
| `Chunker.NextCutSpaceOrHard` | src/utils/chunker.ts:32-38 | Without a sentence end, the cut falls right after the last space that lies after the chunk start and at or before the window end. With no such space, the cut is at the window end. |
| `Chunker.LastSpace` | src/utils/chunker.ts:34 | `lastIndexOf(' ', end)` finds the last space at or before the end, or -1. |
| `Chunker.PiecesFrom` | src/utils/chunker.ts:17-43 | The untrimmed pieces from a position on: there are none exactly when the position is at or past the end of the text. |
| `Chunker.Chunks` | src/utils/chunker.ts:7-46 | The reference chunk list. The empty text gives no chunks, and only the empty text does. A text that fits gives itself, untrimmed. Otherwise every chunk is trimmed: it neither starts nor ends with whitespace. |
| `Chunker.TrimAll` | src/utils/chunker.ts:41 | Each chunk is the trimmed piece at the same index. |
| `Chunker.PiecesTile` | src/utils/chunker.ts:17-43 | The untrimmed pieces, joined in order, give back the text from the start position on. Nothing is lost or repeated. |
| `Chunker.PiecesBounded` | src/utils/chunker.ts:20-38 | Every untrimmed piece is at most one character longer than the chunk size. When it is that long, its last character is a space. |
| `Chunker.ChunksBounded` | src/utils/chunker.ts:7-46 | Every trimmed chunk is at most the chunk size. |
| `Chunker.ChunksNonEmpty` | src/utils/chunker.ts:12-19 | A non-empty text gives at least one chunk. |
| `Chunker.WindowSentenceEnd` | src/utils/chunker.ts:26-27 | Sentence ends in the segment are exactly the text's sentence ends that lie inside the window, shifted by the window start. |
| `Chunker.WindowSearchAgrees` | src/utils/chunker.ts:26-30 | Scanning the segment finds a match exactly when the window holds a sentence end. The last match is the last sentence end. |
| `Chunker.CutSearchAgrees` | src/utils/chunker.ts:25-31 | The source's search, made of `Math.max`, `substring`, `match` and `lastIndexOf`, gives the same cut as the reference definition. |
| `Chunker.FindEnd` | src/utils/chunker.ts:20-39 | The end index the loop body computes is the reference cut. |
| `Chunker.ChunkPieces` | src/utils/chunker.ts:16-45 | The loop returns the trimmed pieces, in order. |
| `Chunker.ChunkText` | src/utils/chunker.ts:7-46 | The result has three properties. Empty text gives no chunks, a text that fits gives itself, and otherwise the chunks are the trimmed pieces, in order. Every chunk is at most the chunk size. |
| `Providers.AfterRequest` | src/providers/mymemory.ts:28-38 | A request counts as served. The provider stays available exactly when it was available and the reply is not a rate-limit error. |
| `Providers.Provider.constructor` | src/providers/mymemory.ts:4-6 | A new provider is available and has served nothing. |
| `Providers.Provider.IsAvailable` | src/providers/mymemory.ts:8-10 | Reports the provider's availability flag, the one a rate-limit failure clears. |
| `Providers.Provider.Translate` | src/providers/mymemory.ts:12-38 | The reply is the oracle's answer for this request. The state moves on as `AfterRequest` says, so a rate-limit failure marks the provider unavailable. |
| `Translator.EffectiveChunkSize` | src/translator.ts:55 | The chunk size is positive. It is the requested size, or the default 300 when the request is 0. |
| `Translator.NextSlot` | src/translator.ts:106 | Advancing the cursor moves it to the next slot, or from the last slot back to slot 0. |
| `Translator.Answered` | src/translator.ts:78 | A request changes only the asked provider's state, and that provider's served count goes up by one. |
| `Translator.TryChunk` | src/translator.ts:102-126 | A round of attempts keeps the set of providers and leaves the cursor valid. |
| `Translator.AutoRun` | src/translator.ts:97-137 | Automatic mode keeps the set of providers and leaves the cursor valid. |
| `Translator.PinnedRun` | src/translator.ts:76-93 | Specific mode changes no provider other than the pinned one. |
| `Translator.FindProvider` | src/translator.ts:63-65 | The result is the first index whose name matches case-insensitively, or -1 when no name matches. |
| `Translator.Names` | src/translator.ts:68 | The names of the registered providers, in registry order. |
| `Translator.TranslateSpec` | src/translator.ts:46-138 | A call keeps the set of providers and leaves the cursor valid. |
| `Translator.Dispatch` | src/translator.ts:62-131 | The choice between specific and automatic mode keeps the set of providers and leaves the cursor valid. |
| `Translator.TryChunkEvolves` | src/translator.ts:102-126 | During a round of attempts, no provider becomes available again, no served count goes down, and an unavailable provider is left untouched. |
| `Translator.AutoRunEvolves` | src/translator.ts:97-131 | Automatic mode changes provider states only in those same ways. |
| `Translator.PinnedRunEvolves` | src/translator.ts:71-88 | Specific mode, which only starts on an available provider, changes provider states only in those same ways. |
| `Translator.TranslateEvolves` | src/translator.ts:46-138 | A whole call never makes a provider available again and never asks an unavailable one. |
| `Translator.ChunkFailed` | src/translator.ts:102-126 | When a round finds no translation, the cursor has moved once per attempt, wrapping around. Every slot the round passed held a provider that was unavailable when the round began, or that was asked and answered its first request of the round with an error. |
| `Translator.ChunkSucceeded` | src/translator.ts:102-126 | When a round translates a chunk, the attempts started at the cursor, and the cursor moved on by one slot for each attempt before the answer. Every slot passed on the way held a provider that was unavailable, or that was asked and answered with an error. With `ChunkAnswered`, this means the chunk goes to the first available provider from the cursor whose reply is a translation, and that reply ends the round. |
| `Translator.SkippedStep` | src/translator.ts:102-126 | One attempt that passes the cursor's provider (unavailable, or asked and answered with an error) extends the record of passed slots by one. |
| `Translator.AllFailedMeansAllTried` | src/translator.ts:102-130 | "All AI providers failed or are unavailable": when a chunk finds no provider, the cursor is back where the round started. Every registered provider was unavailable, or was asked and answered with an error. |
| `Translator.TryChunkUntouched` | src/translator.ts:102-126 | A provider in none of the slots a round passes is left exactly as it was. |
| `Translator.AskedAtMostOnce` | src/translator.ts:102-126 | In a registry without repeated entries, no provider is asked more than once for the same chunk. |
| `Translator.ChunkAnswered` | src/translator.ts:110-115 | When a round translates a chunk, the answering provider sits at the final cursor. It was available before, is still available after, and its oracle answered this chunk with that text. |
| `Translator.ChunkGiven` | src/translator.ts:110-115 | A translated chunk was answered by the provider the cursor rests on, which was available at the start of the round, in reply to its latest request. The round changes provider states only in the ways `Evolves` allows. |
| `Translator.AnsweredByEarlier` | src/translator.ts:105-111 | A provider available in a later state was already available earlier, because availability is never regained, so a reply counted in a later state counts from the earlier one. |
| `Translator.TranslationsStep` | src/translator.ts:97-134 | One round's translation in front of the record of the rest of the run gives the record of the whole run. |
| `Translator.RoundsCons` | src/translator.ts:97-131 | One more round in front of the rounds of the rest, where it hands on its states and cursor, gives the rounds of the whole run. |
| `Translator.AnsweredByAll` | src/translator.ts:105-111 | A translation given by a provider available after the first round was given by one available before it. |
| `Translator.RoundsUnique` | src/translator.ts:97-131 | The rounds from given states and a given cursor determine their texts, their final states and their final cursor. |
| `Translator.TranslationsUnique` | src/translator.ts:97-137 | Exactly one sequence of texts is the record of a successful run, so the joined text is determined by the provider replies. |
| `Translator.AutoRunJoinsCons` | src/translator.ts:110-134 | The step of `AutoRunJoins`: a translated first chunk and a successful rest give a successful whole run with its record. |
| `Translator.AutoRunOutcome` | src/translator.ts:97-137 | Automatic mode fails only with "all providers failed". On success it reports the number of chunks and names the provider at the final cursor. `Translator.AutoRunJoins` shows that this provider answered the last chunk. |
| `Translator.AutoRunJoins` | src/translator.ts:97-137 | A successful automatic run returns one translation per chunk, in chunk order, joined by single spaces. The translations are the texts of the run's rounds. The first round starts from the call's provider states and cursor, each round starts where the one before it ended, and the last ends in the run's final states and cursor. Each round's text is the latest reply of the provider its cursor rests on, which was available when that round began. The last text comes from the provider the result names. |
| `Translator.PinnedRunOutcome` | src/translator.ts:76-93 | Specific mode either succeeds or stops at the first chunk the provider fails. Every reply before that chunk was a translation. A rate-limit error becomes "rate limit exceeded" and leaves the provider unavailable. Any other error is passed on unchanged and leaves the provider available. On success the result reports the number of chunks and the provider's name, and the provider has served exactly one request per chunk and kept its availability. |
| `Translator.PinnedTexts` | src/translator.ts:78-79 | The texts of the provider's replies, one per remaining chunk, in chunk order. |
| `Translator.PinnedRunJoins` | src/translator.ts:76-93 | A successful specific-mode run returns the provider's replies to the chunks, in chunk order, joined by single spaces. Each of those replies was a translation. |
| `Translator.ValidationFirst` | src/translator.ts:47-53 | The call fails with the empty-text error exactly when the text is empty or blank. It fails with the missing-language error exactly when the text is not blank and no target language is given. Either failure leaves the cursor and every provider unchanged. |
| `Translator.NotFoundIffNoNameMatches` | src/translator.ts:62-69 | The call fails with "provider not found" exactly when validation passes, a provider was named, and no registered name matches it case-insensitively. |
| `Translator.BlankText` | src/translator.ts:47 | The text counts as empty exactly when it is all whitespace. |
| `Translator.SpecificModeOutcome` | src/translator.ts:62-94 | In specific mode the cursor never moves, and only a provider with the requested name can change. A missing provider fails with the registered names joined by ", ". An unavailable provider fails before any request. Both failures leave every provider unchanged. On success, the first matching provider has served one request per chunk and named the result. |
| `Translator.AutomaticModeOutcome` | src/translator.ts:96-137 | A successful automatic call names the provider at the final cursor and reports at least one chunk, as many as the chunker produced. |
| `Translator.EmptyRegistryFails` | src/translator.ts:102-130 | With no providers registered, a valid automatic call fails with "all providers failed" and changes nothing. |
| `Translator.InfoOf` | src/translator.ts:163-168 | The provider info lists one name-and-availability record per registered provider, in registry order. |
| `Translator.AvailableNames` | src/translator.ts:153-157 | A name is listed exactly when some registered provider with that name is available. |
| `Translator.ListingsAgree` | src/translator.ts:153-168 | The available names are the names of the info records that are marked available. |
| `Translator.AutomaticTranslator.constructor` | src/translator.ts:19-30 | The registry is the given list, or the default list when none is given. The cursor starts at 0. |
| `Translator.AutomaticTranslator.AddProvider` | src/translator.ts:36-38 | The provider is appended to the registry. The cursor and every provider state stay the same. |
| `Translator.AutomaticTranslator.Translate` | src/translator.ts:46-138 | The result, the new cursor and the new provider states are those of the reference model `TranslateSpec`. The cursor remains a valid index. |
| `Translator.AutomaticTranslator.TranslateChunks` | src/translator.ts:61-131 | The mode dispatch over the chunk list ends as `Dispatch` says. |
| `Translator.AutomaticTranslator.TranslateAuto` | src/translator.ts:97-137 | The chunk loop of automatic mode ends as `AutoRun` says. |
| `Translator.AutomaticTranslator.Ask` | src/translator.ts:78 | One request: the provider's oracle answers, and only that provider's state moves on. |
| `Translator.AutomaticTranslator.TranslateWith` | src/translator.ts:76-93 | The chunk loop of specific mode ends as `PinnedRun` says. |
| `Translator.AutomaticTranslator.TryProviders` | src/translator.ts:102-126 | One chunk's attempt loop ends with the translation, cursor and provider states that `TryChunk` gives for one attempt per slot. |
| `Translator.AutomaticTranslator.Advance` | src/translator.ts:106-124 | The cursor moves to the next slot, wrapping around, and nothing else changes. |
| `Translator.AutomaticTranslator.ResetProviders` | src/translator.ts:143-147 | The cursor goes back to 0. Provider availability is left as it was: the code changes only the cursor, although the method's doc comment says it makes all providers available. |
| `Translator.AutomaticTranslator.GetAvailableProviders` | src/translator.ts:153-157 | A name is listed exactly when a registered provider with that name is available. |
| `Translator.AutomaticTranslator.GetAllProvidersInfo` | src/translator.ts:163-168 | There is one record per registered provider, in order, giving its name and current availability. |

## Left out

- The HTTP providers are not modelled. This covers the request building, the parsing of responses and the mapping of HTTP statuses to `ErrorType`, in every file under `src/providers/`. A provider is modelled by a reply oracle and by the one rule they all share: a rate-limit failure makes it unavailable.
- The default registry of six concrete providers is a constructor parameter, because those providers are not modelled.
- `src/server.ts` is not part of this model. That includes its batch endpoint, which runs translations concurrently over one shared cursor. Concurrency and interleaving of awaits are not modelled: each `translate` call runs to completion.
- `src/index.ts`, the command-line example and `example.js` are not part of this model.
- The errors that `translate` throws carry their data: the requested name, the registered names and the provider's error. The English wording of the messages is not modelled.
- `Translator.AutomaticTranslator.Translate` requires `chunkSize >= 0`. With a negative size and non-blank text, `chunkText` never returns. The window end stays at or below the cursor, so the cursor advances at most to index 1, and from then on the loop pushes empty pieces forever. Non-integer and NaN sizes are also left out.
- `Chunker.ChunkText` requires a chunk size of at least 1 for non-empty text. With size 0 the source loop never ends; `Chunker.NextCutStallsAtZero` proves the cut does not move.
- `JsString.ToLower` and `JsString.LowerChar` lower-case only ASCII letters: `LowerChar` leaves every other character unchanged, including non-ASCII letters. JavaScript's full Unicode case mapping is not modelled.
- An exception that is not a `TranslationError` is modelled as a failure whose kind is not `RATE_LIMIT`. The source treats both alike.
- A reply oracle depends only on the chunk, the options and how many requests the provider has served. Answers that depend on time, the network or randomness are covered only insofar as that count distinguishes them.
- The registry is a sequence value inside the translator. The source stores the caller's array itself, so a later change the caller makes to that array would show in the registry. That aliasing is not modelled.
- `Chunker.ChunkText` and the `JsString` functions count lengths and indices in Unicode code points, where JavaScript counts UTF-16 code units. Text with characters outside the Basic Multilingual Plane is therefore cut at different places than in the source. The source can split a surrogate pair, and the model cannot represent a lone surrogate. The size bound in `Chunker.ChunkText` and `Chunker.ChunksBounded` holds in code points, not in code units.
- `Translator.AutomaticTranslator.ResetProviders` follows the code, which resets only the cursor, not the doc comment at `src/translator.ts:141`, which says every provider becomes available again.
