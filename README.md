# weebo core, modelled in Dafny

weebo is a bilingual voice chat assistant. The user speaks, types or sends images.
The back end (FastAPI) transcribes speech with a Whisper server, asks a local
language model (Ollama) for an English answer and then for its Chinese translation,
stores the conversation in SQLite, and synthesises the English answer segment by
segment with a speech server (Zonos). The React front end reads the reply as
newline-delimited JSON and plays the audio.

This project models the sequential core of that system and proves properties of it:

- the segmenters of the back end, the front end and the speech server, and the
  speech client's chunker;
- the message processors: save, ask, save, then a payload or a stream of one text
  event and one audio event per segment, followed by the merge of the segment files;
- the conversation ledger: messages, audio segments and merged audio as three
  in-memory tables behind a service class;
- the assistant's audio bookkeeping: merging segment files, choosing the merged or
  on-demand audio, and building `audio_info`;
- the language-model service: the bounded history, the sanitising `set_messages`,
  the retry loop, the fallback table, the Chinese line filter and the two-request
  reply;
- the speech-to-text client: transcript post-processing and the context window;
- the speech client: speaker, chunks and synthesis results;
- the request validity rules and the message dictionary form;
- the two legacy database migrations;
- the front end's stream framing and dispatch, its WAV header helpers, its
  application reducer and the chat hook.

Each source file becomes one module. Code that updates state step by step is
modelled as Dafny classes and methods with loops. Each method is proved equal to a
specification function, and the lemmas state the source's promises about those
functions. Pure code becomes functions and lemmas. Network services, JSON encoding
and decoding, random ids and clocks are function parameters (oracles). The file
system is a map from path to samples.

Shared modules carry no source behaviour of their own:

- `Wrappers`: Option and Result;
- `Json`: JSON values and Python truthiness;
- `Strs`: Python and JavaScript string primitives, and the last-n slice of a list;
- `Sentences`: the `(?<=[.!?])\s+` split;
- `Framing`: newline framing;
- `NewSchema`: the tables the migrations write, with the columns of back-end/models/database_models.py as the intended schema.

## Model

| member | source | states |
|---|---|---|
| AppContext.Merge | front-end/src/context/AppContext.js:42 | `{ ...msg, ...data }` has the keys of both; the data's values win and every other key keeps the message's value |
| AppContext.AddMessageAppends | front-end/src/context/AppContext.js:32-36 | `ADD_MESSAGE` appends the payload at the end of the messages and changes no other field |
| AppContext.UpdateMessageInPlace | front-end/src/context/AppContext.js:38-44 | `UPDATE_MESSAGE` keeps length and order; messages with the matching id get the data merged over them, all others are unchanged |
| AppContext.UpdateMissingIdIsIdentity | front-end/src/context/AppContext.js:38-44 | `UPDATE_MESSAGE` for an id no message carries leaves the state as it was |
| AppContext.SettersReplaceOneField | front-end/src/context/AppContext.js:46-68 | `SET_MESSAGES`, `SET_PROCESSING`, `SET_ERROR` and `SET_PLAYING` each set their one field to the payload and keep every other field |
| AppContext.ToggleTwice | front-end/src/context/AppContext.js:70-74 | `TOGGLE_LANGUAGE` applied twice gives back the state |
| AppContext.ClearKeepsAudio | front-end/src/context/AppContext.js:76-80 | `CLEAR_HISTORY` empties the messages and leaves the audio queue, the audio cache and every other field alone |
| AppContext.QueueAllAppends | front-end/src/context/AppContext.js:82-86 | a run of `QUEUE_AUDIO` actions appends their items to the queue in dispatch order |
| AppContext.DequeueEmpty | front-end/src/context/AppContext.js:88-92 | `DEQUEUE_AUDIO` on an empty queue leaves the state unchanged |
| AppContext.DequeueAllDrops | front-end/src/context/AppContext.js:88-92 | n `DEQUEUE_AUDIO` actions drop the first n queue entries, or all of them when there are fewer |
| AppContext.QueueIsFifo | front-end/src/context/AppContext.js:82-92 | the queue is first in, first out: after queueing new items and dequeueing the old entries, exactly the new items remain |
| AppContext.StoreSetsOneKey | front-end/src/context/AppContext.js:94-101 | `STORE_AUDIO_DATA` sets exactly the payload's key of the audio cache; other keys and fields are unchanged |
| AppContext.UnknownIsIdentity | front-end/src/context/AppContext.js:103-104 | an unknown action type returns the state unchanged |
| AppContext.Persisted | front-end/src/context/AppContext.js:133 | `slice(-100)` keeps min(n, 100) messages and they are the last ones, in order |
| AppContext.PersistedKeepsNewest | front-end/src/context/AppContext.js:131-137 | the newest message is always persisted and nothing persisted is foreign to the list |
| Assistant.SortByIndex | back-end/services/assistant.py:162 | the stable sort by `segment_index` is a permutation of its input |
| Assistant.SortByIndexSorted | back-end/services/assistant.py:162 | the sorted list is in ascending index order and has exactly the input's entries with their multiplicities |
| Assistant.SortedUnchanged | back-end/services/assistant.py:105 | a list already in index order is left exactly as it is (the sort is stable) |
| Assistant.SortKeepsMembers | back-end/services/assistant.py:105 | an entry is in the sorted list exactly when it was listed |
| Assistant.PresentMembers | back-end/services/assistant.py:163-164 | an entry is used exactly when it is listed and its file exists in the storage directory |
| Assistant.ReadsOfPresent | back-end/services/assistant.py:162-166 | one file is read per existing entry, in order, and each read is that entry's file |
| Assistant.ReadsAll | back-end/services/assistant.py:162-166 | when every listed file exists, every one is read, in the list's order |
| Assistant.PresentSorted | back-end/services/assistant.py:162-166 | skipping missing files keeps the ascending index order |
| Assistant.MergeEmptyDoesNothing | back-end/services/assistant.py:157-158 | an empty `audio_paths` writes no file and leaves the tables unchanged |
| Assistant.MergeWithoutFilesDoesNothing | back-end/services/assistant.py:168-169 | when no segment file exists nothing is written and the tables are unchanged |
| Assistant.MergeWritesSortedSegments | back-end/services/assistant.py:160-184 | a merge writes `merged_{id}.wav` in the storage directory holding the samples of exactly the existing segment files in ascending index order, at the first listed entry's rate |
| Assistant.MergeRecordsAllEntries | back-end/services/assistant.py:189-204 | after a merge only the merged path changes among the files, and the saved record names the message, the merged file, its rate and the count of all listed entries, missing files included |
| Assistant.RecordMergeAppends | back-end/services/assistant.py:196-204 | for a message without a merged record, exactly one record is appended, with the duration computed from the sample count and rate, and the rate's column default if it is `None` |
| Assistant.MergedFilePreferred | back-end/services/assistant.py:77-97 | an existing recorded merged file is returned as is, with the recorded rate (24000 when absent), marked merged, and no file is touched |
| Assistant.OnDemandNoneIff | back-end/services/assistant.py:100-121 | the on-demand join yields nothing exactly when no listed segment file exists |
| Assistant.NoAudioIff | back-end/services/assistant.py:73-121 | `get_message_audio` returns None exactly when no merged file is available and no segment file exists |
| Assistant.OnDemandInIndexOrder | back-end/services/assistant.py:99-148 | the on-demand reply joins the existing segment files in index order, takes the first existing segment's rate (24000 when absent or falsy), is marked merged, and leaves no temporary file |
| Assistant.AudioInfo | back-end/services/assistant.py:224-241 | `audio_info` has `path` exactly when the merged path is truthy or `audio_paths` is a string (the string wins), `sample_rate` exactly when it is truthy, `segments` exactly when `audio_paths` is a list, and no other key |
| Assistant.Assistant.constructor | back-end/services/assistant.py:22-32 | the assistant holds the database service and the audio storage directory |
| Assistant.Assistant.ReadSegments | back-end/services/assistant.py:162-166 | the loop reads exactly the existing files of the entries, in order |
| Assistant.Assistant.MergeAudioSegments | back-end/services/assistant.py:154-213 | the files written and the new tables are those of the merge specification, and the database invariant is kept |
| Assistant.Assistant.RecordMergeInDb | back-end/services/assistant.py:189-208 | the audio-path update and the merged record are applied to the tables in that order |
| Assistant.Assistant.GetMessageAudio | back-end/services/assistant.py:73-152 | the reply and the files left afterwards are those of the selection specification |
| Assistant.Assistant.AddSegment | back-end/services/assistant.py:111-118 | appending one existing segment keeps the join equal to the concatenation of the files read, with the first file's rate |
| Assistant.Assistant.JoinSegments | back-end/services/assistant.py:99-121 | the fallback loop's result is the on-demand join of the existing segment files in index order |
| Assistant.Assistant.JoinSorted | back-end/services/assistant.py:109-118 | the loop over sorted entries joins exactly the existing files, in order, with the first existing entry's rate |
| AudioUtils.LE16Value | front-end/src/utils/audioUtils.js:28-30 | the two bytes `setUint16(o, v, true)` stores read back, low byte first, as v modulo 2^16 |
| AudioUtils.LE32Value | front-end/src/utils/audioUtils.js:20 | the four bytes `setUint32(o, v, true)` stores read back, low byte first, as v modulo 2^32 |
| AudioUtils.HeaderBytes | front-end/src/utils/audioUtils.js:9-45 | the header is 44 bytes long |
| AudioUtils.WriteString | front-end/src/utils/audioUtils.js:2-6 | the loop stores the low byte of each character code at offset + i and leaves every other byte of the view unchanged |
| AudioUtils.SetUint16 | front-end/src/utils/audioUtils.js:28 | a little-endian 16-bit store changes exactly two bytes |
| AudioUtils.SetUint32 | front-end/src/utils/audioUtils.js:20 | a little-endian 32-bit store changes exactly four bytes |
| AudioUtils.WriteRiffHeader | front-end/src/utils/audioUtils.js:17-22 | the first 12 bytes become the RIFF header: `RIFF`, 36 + data size, `WAVE` |
| AudioUtils.WriteFmtChunk | front-end/src/utils/audioUtils.js:23-38 | bytes 12-35 become the fmt chunk while the RIFF header stays in place |
| AudioUtils.WriteFmtHead | front-end/src/utils/audioUtils.js:23-30 | bytes 12-23 become `fmt `, length 16, format 1 and the channel count |
| AudioUtils.WriteFmtRates | front-end/src/utils/audioUtils.js:31-38 | bytes 24-35 become the sample rate, byte rate, block align and bit depth |
| AudioUtils.WriteDataHeader | front-end/src/utils/audioUtils.js:39-42 | bytes 36-43 become `data` and the data size, completing the header |
| AudioUtils.CreateWavHeader | front-end/src/utils/audioUtils.js:9-45 | a fresh 44-byte buffer holding exactly the header's bytes |
| AudioUtils.ParseWavHeader | front-end/src/utils/audioUtils.js:76-104 | a result exists exactly when the view has the 36 bytes the reads need |
| AudioUtils.ValidIffTags | front-end/src/utils/audioUtils.js:99 | `isValid` holds exactly when bytes 0-3 spell `RIFF` and bytes 8-11 spell `WAVE` |
| AudioUtils.FmtFields | front-end/src/utils/audioUtils.js:23-38 | the fmt chunk holds `fmt `, 16, 1, channels, sample rate, byte rate = rate * channels * depth / 8, block align = channels * depth / 8 and depth, each modulo its field width |
| AudioUtils.HeaderLayout | front-end/src/utils/audioUtils.js:9-45 | every field of the header sits at the offset the WAV format gives it, with the value written there modulo its width |
| AudioUtils.HeaderParts | front-end/src/utils/audioUtils.js:17-42 | the header is the RIFF header, the fmt chunk and the data header, in that order |
| AudioUtils.HeaderRoundTrip | front-end/src/utils/audioUtils.js:76-104 | a created header parses as valid with the same sample rate, channels and bit depth when each fits its field |
| AudioUtils.ParseOfLayout | front-end/src/utils/audioUtils.js:94-102 | any bytes with both tags in place parse as valid with the fields read at offsets 24, 22 and 34 |
| Database.ById | back-end/services/database_service.py:157-171 | the row returned, if any, is a row of the table |
| Database.ByIdPrefersExact | back-end/services/database_service.py:162 | when some row carries the exact `message_id`, the first such row is returned |
| Database.ByIdNoneIff | back-end/services/database_service.py:157-171 | the lookup finds nothing exactly when no row has that `message_id` and no key starts with `assistant-{id}` |
| Database.PrefixedKeyContainsId | back-end/services/database_service.py:166-167 | a key matching the strict lookup's `assistant-{id}%` pattern also matches the tolerant `%{id}%` pattern |
| Database.ByFlexibleId | back-end/services/database_service.py:257-290 | the row returned, if any, is a row of the table; its tiers are stated by the lemmas below |
| Database.FlexibleFindsWhatByIdFinds | back-end/services/database_service.py:257-290 | the tolerant lookup finds a row whenever the strict one does |
| Database.FlexibleThirdTier | back-end/services/database_service.py:276-278 | with no exact `message_id` or key hit, the first row whose key contains the id is returned |
| Database.FlexibleMissWithoutHyphen | back-end/services/database_service.py:281-290 | an id without `-` that matches no earlier tier is not found |
| Database.FlexibleFirstTier | back-end/services/database_service.py:264-267 | the first row with the exact `message_id` is returned |
| Database.FlexibleSecondTier | back-end/services/database_service.py:269-273 | with no exact `message_id`, the first row with the key `assistant-{id}` is returned |
| Database.FlexibleFallsThrough | back-end/services/database_service.py:263-290 | with no hit in the first three tiers, the result is the fourth tier's for an id with `-`, and None otherwise |
| Database.FlexibleFourthTier | back-end/services/database_service.py:280-288 | with `-` in the id and no hit in tiers 1-3, the first row whose `message_id` starts with the id's first part, or whose key contains it, is returned |
| Database.FlexibleNoneIff | back-end/services/database_service.py:257-290 | the lookup returns None exactly when no row meets any tier that is tried |
| Database.KeyOf | back-end/services/database_service.py:38 | the key is the role, one `-`, then the message id |
| Database.NextId | back-end/services/database_service.py:50-53 | the id SQLite assigns is at least 1 and larger than every id in use |
| Database.KeyIndex | back-end/services/database_service.py:69 | the first row with the key, or None exactly when no row has it |
| Database.SaveMessageAppends | back-end/services/database_service.py:34-60 | the corrected save (see Findings): it appends one row under `{role}-{id}` with the role, the id, the content (text as is, other values JSON-encoded) and a fresh row id, returns the id, and keeps the constraints and the other tables; a taken key fails and changes nothing |
| Database.SavedMessageFoundById | back-end/services/database_service.py:157-171 | after the corrected save, the message is found again by its id, and its dict gives the role, the id and the content back (plain text as `{"text": ...}`) |
| Database.BuildSegments | back-end/services/database_service.py:88-96 | one row per listed dict, in order, with the call's defaults and the column defaults for `None`; None exactly when an entry is not a dict |
| Database.ColumnValue | back-end/models/audio.py:11-12 | a `None` handed to a column with a default stores that default; any other value is stored as given |
| Database.BuiltPathsSet | back-end/models/audio.py:10 | the built rows all have a path exactly when every listed dict gives one |
| Database.ReplaceSegments | back-end/services/database_service.py:85-96 | after a replacement the owner has exactly the new segments and every other owner's segments are unchanged |
| Database.ReplaceKeepsPaths | back-end/models/audio.py:10 | replacing segments by rows with paths keeps every stored segment's path non-null |
| Database.SaveWithAudioFindOrCreate | back-end/services/database_service.py:62-106 | the corrected call (see Findings): the constraints hold; a message is added exactly when none has the key, existing rows never change, and the keyed row exists afterwards; it succeeds exactly when there are no paths or every entry is a dict whose path is not `None`; without paths the segments are untouched; a failure changes nothing |
| Database.FoundOrNewFacts | back-end/services/database_service.py:69-80 | in the corrected call, the row found by key, or the one added when the key is free, is the keyed row afterwards and has a positive id |
| Database.SaveWithAudioReplacesSegments | back-end/services/database_service.py:83-98 | in the corrected call, with a non-empty list of dicts with paths, the message's segments become exactly the listed ones in order with the call's defaults; other messages' segments are unchanged |
| Database.ChatSegmentDefaults | back-end/services/database_service.py:89-95 | an entry with no keys is stored with index 0, empty path and text, and 24000 Hz; an index or rate given as `None` takes the column default, 0 and 16000 Hz |
| Database.SaveAudioSegmentsReplaces | back-end/services/database_service.py:359-383 | the save succeeds exactly when every entry is a dict with a non-null path; the id's segments then become exactly the listed ones, in order, nothing else changes and the constraints hold; a failure changes nothing |
| Database.SegmentPathRequired | back-end/services/database_service.py:369-383 | a segment dict without a path fails the save, and a rate left out is stored as the column's 16000 Hz |
| Database.SaveMessageLostAsWritten | back-end/services/database_service.py:41-47 | as written, `save_message` never stores a message and returns None, where the corrected save stores it under a free key and returns its id |
| Database.SaveWithAudioLostAsWritten | back-end/services/database_service.py:72-95 | as written, `save_message_with_audio` succeeds only for an existing message with no paths, changing nothing, where the corrected call also succeeds without paths for a new message |
| Database.Cleared | back-end/services/database_service.py:241-255 | clearing leaves tables that meet the constraints |
| Database.ClearedFindsNothing | back-end/services/database_service.py:241-255 | after clearing no lookup finds anything |
| Database.AfterMarker | back-end/services/database_service.py:310-312 | the text after the first `assistant-` is a suffix of the key |
| Database.FixChanges | back-end/services/database_service.py:308-313 | a row is rewritten exactly when its key holds the marker and does not end with its `message_id` |
| Database.FixCountIsDifferences | back-end/services/database_service.py:304-317 | the count returned is the number of rows actually rewritten |
| Database.FixCountZero | back-end/services/database_service.py:319-323 | when no row needs a fix the count is 0 |
| Database.EnsureConsistentSound | back-end/services/database_service.py:296-327 | only `message_id`s change, the constraints hold, and after a committing run every key holding the marker ends with its row's id |
| Database.EnsureConsistentIdempotent | back-end/services/database_service.py:296-327 | a second run changes nothing and reports 0 |
| Database.AudioTarget | back-end/services/database_service.py:389-394 | the row chosen, if any, is a row of the table |
| Database.UpdateAudioPathOneRow | back-end/services/database_service.py:385-424 | exactly one row's `audio_path` changes when the id matches a `message_id`, or a row id when it is all digits; otherwise False and nothing changes |
| Database.MergedRowOf | back-end/services/database_service.py:439-445 | the record keeps the dict's message and path; a missing rate or count takes the call's default 24000 or 0, a given one is kept, and a `None` one takes the column default, so neither is ever NULL |
| Database.SaveMergedInsertOnly | back-end/services/database_service.py:426-455 | a record is inserted, with defaults 24000 Hz, duration 0 and count 0 (a `None` rate or count also takes its column default), exactly when the dict names a message and a path and that message has no record yet; existing records never change |
| Database.SaveMergedTwiceFails | back-end/services/database_service.py:438-448 | saving the same message's merged audio again fails and changes nothing |
| Database.DatabaseService.constructor | back-end/services/database_service.py:20-24 | the service starts over the given tables, which meet the constraints |
| Database.DatabaseService.SaveMessage | back-end/services/database_service.py:34-60 | the new tables and the result are those of the corrected save specification, and the constraints are kept |
| Database.DatabaseService.SaveMessageWithAudio | back-end/services/database_service.py:62-106 | the new tables and the result are those of the corrected find-or-create specification |
| Database.DatabaseService.CollectSegments | back-end/services/database_service.py:88-96 | the insert loop builds exactly the rows of the listed dicts, or stops at the first non-dict |
| Database.DatabaseService.SaveAudioSegments | back-end/services/database_service.py:359-383 | the new tables and the result are those of the replacement specification, which fails on a dict without a path |
| Database.DatabaseService.GetMessageById | back-end/services/database_service.py:157-171 | a dict is returned exactly when some row has the exact id or a key starting with `assistant-{id}` |
| Database.DatabaseService.GetMessageByFlexibleId | back-end/services/database_service.py:257-290 | whatever the strict lookup finds the tolerant one finds too, None is returned exactly when no row meets any tier tried, and the dict returned is some row's |
| Database.DatabaseService.ClearSession | back-end/services/database_service.py:241-255 | all three tables are emptied and True is returned |
| Database.DatabaseService.EnsureConsistentMessageIds | back-end/services/database_service.py:296-327 | the new tables and the count are those of the normalisation specification |
| Database.DatabaseService.FixRows | back-end/services/database_service.py:304-317 | the row loop fails exactly when a row has no usable key, and otherwise rewrites every row that needs it and counts them |
| Database.DatabaseService.UpdateMessageAudioPath | back-end/services/database_service.py:385-424 | the new tables and the result are those of the audio-path specification |
| Database.DatabaseService.SaveMergedAudio | back-end/services/database_service.py:426-455 | the new tables and the result are those of the merged-record specification |
| Framing.SplitCharConcat | front-end/src/utils/messageUtils.js:41-43 | splitting a concatenation glues the last piece of the first text to the first piece of the second and keeps every other piece |
| Framing.JoinSplitChar | front-end/src/utils/messageUtils.js:43 | joining the pieces of `split('\n')` with `'\n'` gives the text back |
| Framing.SplitCharNoSeparator | front-end/src/utils/messageUtils.js:43-44 | no line handed on and no buffered remainder contains a newline |
| Framing.FrameStep | front-end/src/utils/messageUtils.js:41-46 | one read: splitting the buffer plus the chunk yields exactly the lines that the whole text received so far completes, and leaves its unterminated tail in the buffer |
| Framing.RemainderSplit | front-end/src/utils/messageUtils.js:44 | the buffered remainder holds no newline, so splitting it gives it back alone |
| Framing.SplitCharIsSplitBy | front-end/src/utils/messageUtils.js:43 | the character-by-character `split('\n')` of the framing is the general separator split on a one-character separator |
| LlmService.Keep | back-end/services/llm_service.py:76-77 | each side of the split keeps only entries of its kind, drawn from the history, and is no longer than it |
| LlmService.KeepPartitions | back-end/services/llm_service.py:76-77 | every entry lands on exactly one side of the system/non-system split |
| LlmService.AddInvalidRoleUnchanged | back-end/services/llm_service.py:67-69 | a role other than user, assistant or system leaves the history unchanged |
| LlmService.AddKeepsSystemMessages | back-end/services/llm_service.py:71-83 | after an append the system messages are exactly the old ones plus the new one, in order, and the others are the last 50 when the history exceeded 51 entries |
| LlmService.AddBoundsHistory | back-end/services/llm_service.py:74-83 | after an append at most 51 non-system entries remain, and a truncated history holds at most the system messages plus 50 |
| LlmService.AddedTurnIsLast | back-end/services/llm_service.py:71 | a user or assistant message just added is the last entry of the history |
| LlmService.EntryOf | back-end/services/llm_service.py:482-493 | an entry is accepted only with a valid role |
| LlmService.Sanitised | back-end/services/llm_service.py:480-493 | the accepted entries all have valid roles and are no more than the input |
| LlmService.SanitisedConcat | back-end/services/llm_service.py:481-493 | the filter works element by element and keeps the order |
| LlmService.SanitisedOne | back-end/services/llm_service.py:482-493 | an element is kept iff it is a dict with `role` and `content` and a valid string role, and then contributes exactly that entry |
| LlmService.SetMessagesWellFormed | back-end/services/llm_service.py:496-504 | the installed history always has a system message and only valid roles |
| LlmService.SetMessagesRoundTrip | back-end/services/llm_service.py:473-513 | feeding what `get_messages` returned back to `set_messages` restores the same history |
| LlmService.SetMessagesAllInvalid | back-end/services/llm_service.py:496-502 | with no well-formed entry the history is the system prompt alone |
| LlmService.AllAttemptsFail | back-end/services/llm_service.py:266-304 | when all three attempts fail the request yields None |
| LlmService.FirstAttemptWins | back-end/services/llm_service.py:286-288 | a first reply with status 200 is the answer, whatever later attempts would do |
| LlmService.FaultNamed | back-end/services/llm_service.py:428-447 | a fallback name is unknown exactly when it is none of the four table keys |
| LlmService.FallbackUnknownIsException | back-end/services/llm_service.py:447 | an unknown error kind gets the `exception` entry |
| LlmService.FallbackHasChinese | back-end/services/llm_service.py:428-452 | every fallback entry has a non-empty Chinese text |
| LlmService.ApiErrorNamesModel | back-end/services/llm_service.py:433-436 | the connection-error entry names the model in both languages |
| LlmService.HandleTranslationFailure | back-end/services/llm_service.py:454-461 | the English text is kept and a non-empty Chinese notice is given |
| LlmService.ChineseLinesOne | back-end/services/llm_service.py:376-387 | a blank line is kept as "", a line more than 30% CJK is kept stripped, any other line is dropped |
| LlmService.FilterKeepsNonChinese | back-end/services/llm_service.py:390-391 | a text without CJK characters comes back unchanged |
| LlmService.ChineseLinesSound | back-end/services/llm_service.py:383-387 | every kept line is blank or more than 30% Chinese |
| LlmService.ChineseOf | back-end/services/llm_service.py:229-247 | the Chinese text of a reply is never empty |
| LlmService.ChineseOfText | back-end/services/llm_service.py:238-247 | a text reply yields its filtered lines, or the fixed notice when that is empty |
| LlmService.EnglishRequest | back-end/services/llm_service.py:189-191 | the English request has the history's length and differs from it only in the leading system message |
| LlmService.SystemPromptCompoundsAsWritten | back-end/services/llm_service.py:189-191 | as written, the shallow copy makes the second request carry the system prompt twice where the first carried it once |
| LlmService.BlankInputIgnored | back-end/services/llm_service.py:114-115 | blank input gets no reply and leaves the history unchanged |
| LlmService.InputRecordedFirst | back-end/services/llm_service.py:114-118 | any other input gets a reply and is recorded as the last history entry before any request |
| LlmService.TurnKeepsSystemMessages | back-end/services/llm_service.py:184-193 | a turn never changes the stored system messages |
| LlmService.ReplyHasChinese | back-end/services/llm_service.py:112-165 | every reply has a non-empty Chinese text |
| LlmService.ApiErrorReported | back-end/services/llm_service.py:195-196 | when the English request fails three times the reply is the `api_error` entry naming the model |
| LlmService.ApiErrorMaskedAsWritten | back-end/services/llm_service.py:126-143 | as written, that failure is reported as the generic `exception` entry instead |
| LlmService.TranslationFailureKeepsEnglish | back-end/services/llm_service.py:234-236 | when the translation request fails the sanitised English is kept with the translation-unavailable notice |
| LlmService.ChosenModel | back-end/services/llm_service.py:21-44 | the model is the first available one when the configured one is not listed, otherwise the configured or default model |
| LlmService.LLMService.constructor | back-end/services/llm_service.py:13-44 | the history starts as the system prompt alone and the model is the chosen one |
| LlmService.LLMService.AddMessage | back-end/services/llm_service.py:60-84 | the new history is the appended and truncated history; the model is unchanged |
| LlmService.LLMService.SetMessages | back-end/services/llm_service.py:473-505 | the new history is the accepted entries with a system message guaranteed |
| LlmService.LLMService.GetMessages | back-end/services/llm_service.py:507-513 | returns the history as role/content dicts |
| LlmService.LLMService.MakeApiRequest | back-end/services/llm_service.py:249-304 | at most three POSTs; the result is the first status-200 message, or None after three failures |
| LlmService.LLMService.ExtractChineseLines | back-end/services/llm_service.py:373-393 | the loop computes the line filter |
| LlmService.LLMService.GetChineseTranslation | back-end/services/llm_service.py:209-247 | the result is the Chinese text of the translation request's outcome |
| LlmService.LLMService.GetResponse | back-end/services/llm_service.py:112-165 | (corrected, see Findings rows 1-2) reply and new history are those of the turn specification |
| LlmService.LLMService.ReplyOf | back-end/services/llm_service.py:126-165 | (corrected, see Findings row 2) the reply built from the English outcome is that of the reply specification |
| MessageModel.ToDict | back-end/models/message.py:31-65 | the dict always has id, message_id, role and created_at (ISO text or None); it has `content` exactly when some content column is set, `audio_path` and `images` exactly when those columns are set, and no other key |
| MessageModel.JsonContentDecoded | back-end/models/message.py:41-45 | non-empty content that parses as JSON is returned decoded |
| MessageModel.PlainContentWrapped | back-end/models/message.py:46-48 | when the content is set and `json.loads` fails on it, the dict's `content` is `{"text": content}` |
| MessageModel.SeparateColumnsUsed | back-end/models/message.py:49-54 | without `content`, the English and Chinese columns are used when either is set, and there is no `content` key when neither is |
| MessageModel.AudioPathCopied | back-end/models/message.py:57-58 | a set audio path is copied as text |
| MessageModel.ImagePaths | back-end/models/message.py:62-63 | the kept image paths are no more than the comma-separated parts |
| MessageModel.ImagesClean | back-end/models/message.py:62-63 | every listed image path is non-empty, stripped and comma-free |
| MessageModel.ImagesRoundTrip | back-end/models/message.py:23 | a list of clean paths stored comma-joined is listed back as exactly those paths, in order |
| MessageProcessor.Create | back-end/services/message_processor.py:344-355 | a processor is created exactly for the four known types, and any other type fails with the "不支持的消息类型" error naming it |
| MessageProcessor.CreateKindName | back-end/services/message_processor.py:346-353 | each kind is created from its own name |
| MessageProcessor.ValidRequestHasProcessor | back-end/main.py:73-80 | a request that passed validation always gets a processor of the kind its type names |
| MessageProcessor.UserSavedBeforeReply | back-end/services/message_processor.py:44-54 | when both saves succeed the two new rows are the user's message then the assistant's English text, earlier rows are untouched, and the response carries the assistant row's id |
| MessageProcessor.StreamChoice | back-end/services/message_processor.py:71-81 | without streaming the response is one payload; with streaming the segments are those of the English text |
| MessageProcessor.BlankMessageFails | back-end/services/message_processor.py:44-50 | a missing or blank message gets no reply, so the call fails after the user message is saved and the model's history is unchanged |
| MessageProcessor.SegmentNamesDistinct | back-end/services/message_processor.py:116 | different segments get different file names |
| MessageProcessor.SegmentPathsDistinct | back-end/services/message_processor.py:116-117 | different segments are written to different paths |
| MessageProcessor.AudioStream | back-end/services/message_processor.py:100-161 | the stream yields at most one event and one path entry per segment |
| MessageProcessor.Writable | back-end/services/message_processor.py:119-124 | audio reaches the stream exactly when it exists and its sample rate is positive, since `wave` rejects any other rate |
| MessageProcessor.OutcomeOfResult | back-end/services/message_processor.py:101-161 | a segment contributes audio exactly when synthesis succeeds with audio at a positive rate; a raised error or a rejected rate contributes nothing |
| MessageProcessor.AudioStreamStep | back-end/services/message_processor.py:105-153 | one more segment adds at most one event, its path entry and its file |
| MessageProcessor.StreamIndicesIncrease | back-end/services/message_processor.py:100 | audio events come in strictly increasing segment order |
| MessageProcessor.EventIffSynthesised | back-end/services/message_processor.py:103-160 | a segment has an audio event exactly when its synthesis gave audio, and the event carries that audio and rate |
| MessageProcessor.StreamFilesWritten | back-end/services/message_processor.py:116-130 | each listed entry's file holds its event's audio: no later segment overwrites an earlier one |
| MessageProcessor.StreamThenMerge | back-end/services/message_processor.py:164-169 | the background merge of the streamed entries joins exactly the streamed audio in stream order, at the first event's rate, into the merged file; nothing is merged when no audio was streamed |
| MessageProcessor.PlanOfSorted | back-end/services/assistant.py:162-164 | on already sorted entries the merge reads them in their given order |
| MessageProcessor.ImagePrompt | back-end/services/message_processor.py:256-258 | the prompt is longer than the fixed prefix exactly when a message is given |
| MessageProcessor.ImagePromptParts | back-end/services/message_processor.py:256-258 | the prompt starts with the image description and ends with the message when there is one |
| MessageProcessor.Descriptions | back-end/services/message_processor.py:287-307 | there is at most one description per file |
| MessageProcessor.DescriptionsFromFiles | back-end/services/message_processor.py:291-307 | each description comes from an image file or an audio file with a non-empty transcript; other files add nothing |
| MessageProcessor.CompositePromptParts | back-end/services/message_processor.py:310-314 | the prompt has its file part exactly when there are descriptions and its message part exactly when a message is given, and is empty with neither |
| MessageProcessor.TextMessageProcessor.constructor | back-end/services/message_processor.py:21-22 | the processor holds the given services |
| MessageProcessor.TextMessageProcessor.Process | back-end/services/message_processor.py:34-81 | (corrected saves and turn, see Findings rows 1, 2 and 6) the tables, the model history and the response are those of the text-turn specification |
| MessageProcessor.TextMessageProcessor.SynthesiseSegment | back-end/services/message_processor.py:101-103 | the guarded synthesis of one segment gives the audio of the segment specification, or None on a raised error; what of it `wave` accepts is that segment's outcome |
| MessageProcessor.TextMessageProcessor.GenerateResponseStream | back-end/services/message_processor.py:84-169 | the lines, the collected entries, the written files and the merge task are those of the stream specification |
| MessageProcessor.VoiceMessageProcessor.constructor | back-end/services/message_processor.py:217 | the processor wraps the given text processor |
| MessageProcessor.VoiceMessageProcessor.Process | back-end/services/message_processor.py:179-218 | (corrected save, see Findings row 6) without speech the answer is a 400 and nothing changes; otherwise the voice message is saved and the transcript is processed as text |
| MessageProcessor.ImageMessageProcessor.constructor | back-end/services/message_processor.py:270 | the processor wraps the given text processor and image directory |
| MessageProcessor.ImageMessageProcessor.Process | back-end/services/message_processor.py:222-271 | (corrected save, see Findings row 6) the image is stored as `{imageId}.jpg`, the user message records it, and the image prompt is processed as text |
| MessageProcessor.MixedMessageProcessor.constructor | back-end/services/message_processor.py:338 | the processor wraps the given text processor and image directory |
| MessageProcessor.MixedMessageProcessor.DescribeFiles | back-end/services/message_processor.py:287-307 | the descriptions are those of the files; every image file is stored under its id and nothing else is written |
| MessageProcessor.MixedMessageProcessor.Process | back-end/services/message_processor.py:275-339 | (corrected save, see Findings row 6) the mixed message is saved with its prompt and descriptions, and the composite prompt is processed as text |
| MessageUtils.SplitTextIntoSegments | front-end/src/utils/messageUtils.js:2-28 | the loop computes the segment specification |
| MessageUtils.ShortTextIsReturned | front-end/src/utils/messageUtils.js:3-5 | empty text and text within the limit come back as `[text]` |
| MessageUtils.SegmentsPacked | front-end/src/utils/messageUtils.js:12-21 | every segment is at most `maxLength + 1` long unless it is a single over-long sentence |
| MessageUtils.JoinExceedsLimit | front-end/src/utils/messageUtils.js:13-14 | the bound `maxLength + 1` is reached, because the test omits the joining space |
| MessageUtils.LongTextSegmentsNonEmpty | front-end/src/utils/messageUtils.js:16-25 | a long text never yields an empty segment |
| MessageUtils.SegmentsKeepWords | front-end/src/utils/messageUtils.js:8-27 | packing keeps every word of the text, in order |
| MessageUtils.StreamStep | front-end/src/utils/messageUtils.js:41-46 | one read extends the callbacks by those of the buffer plus the chunk |
| MessageUtils.ProcessStreamData | front-end/src/utils/messageUtils.js:31-84 | the callbacks are those of the complete lines of the whole stream, in order, whatever the chunking, followed by one completion, or by `onError(error.message)` and no completion when a read fails; the unfinished tail stays buffered |
| MessageUtils.DispatchLines | front-end/src/utils/messageUtils.js:46-76 | the inner loop makes the callbacks of its lines in order; a line that is not JSON, or is `null`, reports the parse failure |
| MessageUtils.NullLineFails | front-end/src/utils/messageUtils.js:47-75 | a line holding JSON `null` makes exactly one call, `onError('解析响应数据失败')` |
| MessageUtils.UnterminatedLineNotDelivered | front-end/src/utils/messageUtils.js:43-44 | a stream without a newline delivers no line |
| RequestModels.NewRequest | back-end/models/request_models.py:7-21 | a missing file list is stored as empty, an omitted speaker is "default" and an omitted `stream_audio` True, and the other arguments are kept as given |
| RequestModels.TextValidIff | back-end/models/request_models.py:25-27 | a text request is valid exactly when its message has a non-whitespace character |
| RequestModels.VoiceValidIff | back-end/models/request_models.py:29-31 | a voice request is valid exactly when its first file's type contains "audio" |
| RequestModels.ImageValidIff | back-end/models/request_models.py:33-35 | an image request is valid exactly when its first file's type contains "image" |
| RequestModels.MixedValidIff | back-end/models/request_models.py:37-41 | a mixed request is valid exactly when it has non-blank text or at least one file |
| RequestModels.UnknownTypeInvalid | back-end/models/request_models.py:43 | any other type is never valid |
| RequestModels.ValidityIgnoresDelivery | back-end/models/request_models.py:23-43 | validity does not depend on the session, speaker or streaming flag |
| RequestModels.ValidUploadHasFile | back-end/models/request_models.py:29-35 | a valid voice or image request always has a first file |
| RequestModels.NoFilesNeedsText | back-end/models/request_models.py:18 | a text or mixed request built without files is valid exactly when its message is not blank |
| Sentences.SplitSentences | back-end/utils/text_utils.py:12 | splitting after `.`, `!` or `?` followed by whitespace always yields at least one piece |
| Sentences.SentencesKeepWords | front-end/src/utils/messageUtils.js:8 | splitting into sentences only drops whitespace: the words are kept, in order |
| Sentences.SentenceWordInText | back-end/utils/text_utils.py:12 | every word of a sentence is a word of the text |
| SttModel.FixKeepsWord | back-end/models/stt_model.py:120-124 | a correction only changes letter case and keeps a word a word |
| SttModel.Capitalize | back-end/models/stt_model.py:130 | `capitalize()` keeps the length |
| SttModel.SentencesAt | back-end/models/stt_model.py:130 | splitting on `'. '`, recasing each piece and joining is the character-wise rule: piece starts raised, the rest lowered |
| SttModel.PostProcessAsWrittenWords | back-end/models/stt_model.py:120-134 | as written, post-processing only changes letter case and spacing: the lower-cased words are those of the input |
| SttModel.EmptyTranscriptUnchanged | back-end/models/stt_model.py:92-93 | an empty transcript is returned unchanged |
| SttModel.PostProcessAsWrittenIdempotent | back-end/models/stt_model.py:120-136 | as written, post-processing twice gives the same text as once |
| SttModel.CorrectionUndoneAsWritten | back-end/models/stt_model.py:120-134 | as written, `"a i'm"` becomes `"A i'm"`: the correction to `I'm` is lower-cased again |
| SttModel.CorrectionKept | back-end/models/stt_model.py:120-134 | with the correction, `"a i'm"` becomes `"A I'm"` |
| SttModel.PostProcessKeepsCorrections | back-end/models/stt_model.py:120-136 | with the correction, post-processing raises the first letter of each sentence and keeps every other character of the corrected, single-spaced words |
| SttModel.RememberKeepsWindow | back-end/models/stt_model.py:76-79 | the window keeps at most five entries; a transcript longer than five characters becomes the newest and the rest are the most recent earlier ones; a shorter one changes nothing |
| SttModel.ContextOfWindow | back-end/models/stt_model.py:43 | the context is empty exactly when the window is, and holds the words of its last three transcripts |
| SttModel.TranscribeOk | back-end/models/stt_model.py:66-81 | (corrected post-processing, see Findings row 3) a readable reply yields its post-processed transcript, which is remembered |
| SttModel.UnreadableKeepsWindow | back-end/models/stt_model.py:86-88 | a reply whose transcript cannot be read yields None and leaves the window as it was |
| SttModel.FailedRequestKeepsWindow | back-end/models/stt_model.py:82-85 | a failed request yields None and leaves the window as it was |
| SttModel.SpeechToTextModel.constructor | back-end/models/stt_model.py:13-17 | the language starts as "en" and the window empty |
| SttModel.SpeechToTextModel.SetLanguage | back-end/models/stt_model.py:138-140 | the language is replaced and the window kept |
| SttModel.SpeechToTextModel.Transcribe | back-end/models/stt_model.py:19-88 | (corrected post-processing, see Findings row 3) the result and the new window are those of the transcription specification; the language is unchanged |
| SttModel.SpeechToTextModel.RememberTranscript | back-end/models/stt_model.py:76-79 | the window becomes the remembered window |
| TextUtils.SplitTextIntoSegments | back-end/utils/text_utils.py:5-56 | the loop computes the segment specification |
| TextUtils.ShortTextIsOneSegment | back-end/utils/text_utils.py:8-9 | empty text gives no segment and text within the limit gives `[text]` |
| TextUtils.SegmentsFit | back-end/utils/text_utils.py:17-54 | every segment is within the limit unless it is a single word that alone exceeds it |
| TextUtils.SegmentsKeepWords | back-end/utils/text_utils.py:12-54 | no word is lost, split or reordered: the space-joined segments have the words of the input |
| TextUtils.SegmentsNonEmpty | back-end/utils/text_utils.py:36-43 | when every word is shorter than the limit, no segment is empty |
| TextUtils.LongFirstWordFlushesEmpty | back-end/utils/text_utils.py:41-43 | a first word as long as the limit flushes the still-empty word group: `"abcd"` with limit 3 gives `["", "abcd"]` |
| TtsApi.SeparatorCut | tts_server/api.py:55-60 | the separator search finds no cut, or a cut past the window's first character and inside it |
| TtsApi.CutPoint | tts_server/api.py:52-70 | the cut never exceeds the limit, and is at least 1 for a positive limit |
| TtsApi.FindCut | tts_server/api.py:52-70 | the search computes the cut point |
| TtsApi.SplitText | tts_server/api.py:41-80 | the loop computes the split specification |
| TtsApi.SpaceFallbackUnreachable | tts_server/api.py:63-67 | the space fallback never finds a cut the separator loop missed, because `' '` is already a separator |
| TtsApi.SegmentsBounded | tts_server/api.py:43-80 | every segment has at most `max_length` characters |
| TtsApi.SegmentsKeepNonSpace | tts_server/api.py:73-78 | cutting only drops whitespace: the non-space characters of the segments, in order, are those of the text |
| TtsApi.OnlyFirstSegmentMayBeEmpty | tts_server/api.py:43-78 | no segment after the first is empty, and none is when the text starts with a non-space character |
| TtsApi.ZeroLimitNoProgress | tts_server/api.py:50-74 | with `max_length = 0` the cut is at 0 and a stripped remainder is left as it was, so the loop never ends |
| TtsApi.GenerateAudioSegment | tts_server/api.py:83-116 | a success carries the samples and rate the model gave for the text; a failure is returned as an error item carrying the text and the failure's message, never raised |
| TtsApi.GenerateStream | tts_server/api.py:155-176 | one item per segment, in order, labelled with its index and the total; item i carries the samples and rate synthesised from segment i with seed `seed + i`, or that call's error message |
| TtsModel.CollapseKeepsWords | back-end/models/tts_model.py:82 | collapsing whitespace keeps the words, in order |
| TtsModel.ChunksNonEmpty | back-end/models/tts_model.py:96-102 | an empty chunk is never pushed |
| TtsModel.ChunksBounded | back-end/models/tts_model.py:93-99 | a chunk is at most 500 characters unless it is one sentence of the text on its own |
| TtsModel.ChunksKeepWords | back-end/models/tts_model.py:88-102 | chunking keeps every word of the text, in order |
| TtsModel.Successes | back-end/models/tts_model.py:107-112 | the kept results are no more than the chunks |
| TtsModel.SuccessesEmptyIffAllFailed | back-end/models/tts_model.py:111-120 | there is no success exactly when every chunk failed |
| TtsModel.FirstSuccess | back-end/models/tts_model.py:111-112 | the first kept result is the first chunk result that is not None |
| TtsModel.CombineFirstRate | back-end/models/tts_model.py:115-119 | the combined audio exists when some chunk succeeded and has the first successful chunk's sample rate |
| TtsModel.ChunkResults | back-end/models/tts_model.py:108-110 | result i is the synthesis of chunk i with the set speaker |
| TtsModel.GenerateWithSpeakerSucceeds | back-end/models/tts_model.py:77-123 | with a speaker set, generation never raises |
| TtsModel.BlankTextGivesNone | back-end/models/tts_model.py:79-80 | empty or whitespace-only text gives None without a call, for whole texts and for segments |
| TtsModel.SegmentIsOneCall | back-end/models/tts_model.py:295-303 | a segment is one request whose text has the segment's words single-spaced; without a speaker the call raises |
| TtsModel.ShortTextOneCall | back-end/models/tts_model.py:82-123 | text of at most 500 characters after collapsing makes a single call with the collapsed text |
| TtsModel.CombineNoneIffAllFailed | back-end/models/tts_model.py:107-120 | the combined audio is None exactly when every chunk's synthesis failed |
| TtsModel.LongTextChunked | back-end/models/tts_model.py:85-120 | a long text is chunked with its words kept in order, never raises, and gives None exactly when every chunk failed |
| TtsModel.ProcessNeverFails | back-end/models/tts_model.py:280-292 | with a speaker set, processing chunks never fails and gives at most one audio per chunk |
| TtsModel.ProcessFailureSticks | back-end/models/tts_model.py:283-290 | once a chunk raises, processing the rest raises the same error |
| TtsModel.Tokens | back-end/models/tts_model.py:262 | there is at most one token per character |
| TtsModel.TokensFromVocab | back-end/models/tts_model.py:262 | every token is the vocabulary entry of a character of the text |
| TtsModel.LocalInputFramed | back-end/models/tts_model.py:256-278 | the model input is framed by 0 on both ends with at most 510 tokens between, and there is no run exactly when no character is in the vocabulary |
| TtsModel.TextToSpeechModel.constructor | back-end/models/tts_model.py:17-29 | no speaker is set yet |
| TtsModel.TextToSpeechModel.SetSpeaker | back-end/models/tts_model.py:73-75 | the speaker is set |
| TtsModel.TextToSpeechModel.ChunkText | back-end/models/tts_model.py:88-102 | the loop computes the chunks |
| TtsModel.TextToSpeechModel.SynthesizeChunks | back-end/models/tts_model.py:107-112 | the loop keeps the successful chunk results, in order |
| TtsModel.TextToSpeechModel.GenerateAudioAsync | back-end/models/tts_model.py:77-123 | the result is that of the generation specification |
| TtsModel.TextToSpeechModel.GenerateAudioSegment | back-end/models/tts_model.py:295-303 | the result is that of the segment specification |
| TtsModel.TextToSpeechModel.ProcessTextChunks | back-end/models/tts_model.py:280-292 | the result is that of the processing specification |
| UseChat.OrElse | front-end/src/hooks/useChat.js:42-44 | the logical-or default is `x` when it is defined and truthy, and `d` otherwise |
| Strs.LastN | back-end/services/llm_service.py:80 | `xs[-n:]` (and `slice(-n)` at front-end/src/hooks/useChat.js:67) is a suffix of the list, of length `min(n, len(xs))` |
| UseChat.RecordIdWindow | front-end/src/hooks/useChat.js:31-35 | the id window keeps at most 20 ids, the new one last, dropping the oldest |
| UseChat.SeenIdRejected | front-end/src/hooks/useChat.js:23-26 | an id already in the window is rejected and nothing changes |
| UseChat.RepeatNotAdded | front-end/src/hooks/useChat.js:50-63 | a message repeating the last one (same role, same English text or same string) is not added, but its id is still recorded |
| UseChat.NewMessageAddedLast | front-end/src/hooks/useChat.js:67 | a new message is added last and the list keeps its 20 newest entries, the earlier ones in order |
| UseChat.ObjectContentNormalised | front-end/src/hooks/useChat.js:41-45 | object content becomes `english`/`chinese` defaulting to '' and `audio` defaulting to null, and nothing else |
| UseChat.AddedIdRecorded | front-end/src/hooks/useChat.js:31 | a fresh id is recorded whether or not the message is added |
| UseChat.AddMessageKeepsWindow | front-end/src/hooks/useChat.js:18-77 | `addMessage` keeps the id window within 20 entries |
| UseChat.PatchAudio | front-end/src/hooks/useChat.js:139-141 | an `audio` event without a truthy `message_id` is given the reply's id, and any other event is left as it was |
| UseChat.LinesKeepWindow | front-end/src/hooks/useChat.js:119-163 | the reply's lines keep the id window within 20 entries |
| UseChat.RequestEndsIdle | front-end/src/hooks/useChat.js:165-170 | whatever the reply, the request ends with `isProcessing` false and the id window within 20 entries |
| UseChat.RejectedRecordsStatus | front-end/src/hooks/useChat.js:99-101 | a rejected request records the server's status after the request-failed prefix |
| UseChat.TextEventRecordsId | front-end/src/hooks/useChat.js:126-133 | a `text` event makes its `message_id` the reply's id, records it, and adds one message |
| UseChat.ChatHook.constructor | front-end/src/hooks/useChat.js:5-15 | the hook starts with the saved messages, an empty id window, not busy and no error |
| UseChat.ChatHook.AddMessage | front-end/src/hooks/useChat.js:18-77 | the new state is that of the `addMessage` specification |
| UseChat.ChatHook.PushRecentId | front-end/src/hooks/useChat.js:31-35 | the id window is pushed and trimmed; nothing else changes |
| UseChat.ChatHook.PushMessage | front-end/src/hooks/useChat.js:37-76 | the message list is updated by the dedup-and-cap rule; nothing else changes |
| UseChat.ChatHook.HandleLines | front-end/src/hooks/useChat.js:119-163 | the state, the reply id and the count of adds are those of the lines' effect |
| UseChat.ChatHook.HandleLine | front-end/src/hooks/useChat.js:120-162 | one complete line has the line's effect |
| UseChat.ChatHook.HandleEvent | front-end/src/hooks/useChat.js:125-159 | one parsed event has the event's effect |
| UseChat.ChatHook.HandleChatRequest | front-end/src/hooks/useChat.js:80-171 | the new state is that of the request specification |
| NewSchema.RateOf | back-end/migrate_db.py:75 | a segment or merged rate is the dict's `sample_rate` when it is given and not `None`, and 24000 otherwise, since a `None` takes the column default of back-end/models/database_models.py:50 and 70 |
| NewSchema.SegmentsOf | back-end/migrate_db.py:68-77 | no segment rows unless `audio_paths` is truthy; then one row per entry, in order, owned by the message and never with a NULL rate, and failure exactly when it is not a list of dicts |
| NewSchema.EntriesFor | back-end/migrate_db.py:69-77 | the rows exist exactly when every entry is a dict, one per entry in order, each built with the defaults 0, '', '' and the rate of `RateOf` |
| NewSchema.NotAllDicts | back-end/migrate_db.py:69-72 | a non-dict entry makes the whole list fail |
| NewSchema.MergedOfCases | back-end/migrate_db.py:80-86 | one merged row is written exactly for a truthy `merged_audio`, with its path defaulting to '' and its rate that of `RateOf` (24000 for a missing or `None` rate, never NULL), and a non-dict one fails |
| NewSchema.Insert | back-end/migrate_db.py:64-65 | the message gets the next id, or the flush fails exactly when the key is already stored (the unique index of `messages.key`) |
| NewSchema.AddWithAudioLinked | back-end/migrate_db.py:56-86 | adding a message with its audio keeps every audio row's owner a stored message, appends exactly that message, and puts its audio rows after the earlier ones, owned by it |
| NewSchema.Session.constructor | back-end/migrate_db.py:38 | the session starts on empty tables |
| NewSchema.Session.AddMessage | back-end/migrate_db.py:64-65 | the new state and id are those of the insert, and nothing changes when it fails |
| NewSchema.Session.AddSegments | back-end/migrate_db.py:68-77 | succeeds exactly when the segment rows of `SegmentsOf` exist, and then appends exactly them |
| NewSchema.Session.AddMerged | back-end/migrate_db.py:80-86 | succeeds exactly when the merged row of `MergedOf` is well formed, and then appends exactly it |
| NewSchema.Session.AddAll | back-end/migrate_db.py:56-86 | succeeds exactly when adding the message with its `SegmentsOf` and `MergedOf` rows succeeds, and then has that state |
| RebuildDb.BackupDatabase | back-end/rebuild_db.py:29-46 | the backup exists exactly when the database file exists and the copy succeeds, and is then named `{db_path}.backup_{timestamp}` |
| RebuildDb.BackupPathsDistinct | back-end/rebuild_db.py:35-36 | a backup sits next to the database, named after it, and backups taken at different times never overwrite each other |
| RebuildDb.SplitOnce | back-end/rebuild_db.py:107 | `key.split('-', 1)` has one part exactly when the key has no `-`, and otherwise two parts joined by the first `-` |
| RebuildDb.DashFound | back-end/rebuild_db.py:107-109 | the search for `-` finds one exactly when the key has one |
| RebuildDb.SplitKeyOfKey | back-end/rebuild_db.py:107-109 | a key `{role}-{message_id}` with a role free of `-` gives back that role and id |
| RebuildDb.KeyOfSplitKey | back-end/rebuild_db.py:107-109 | a key with a `-` is rebuilt from its parts, and a key without one gives role `unknown` and the whole key as id |
| RebuildDb.MigrateData | back-end/rebuild_db.py:68-166 | (corrected, see Findings row 4) the committed tables and the result are those of the migration specification, whose audio rows take their rate from `NewSchema.RateOf` |
| RebuildDb.MigrateRow | back-end/rebuild_db.py:99-146 | (corrected, see Findings row 4) one row succeeds exactly when its conversion does, and then has its effect, with audio rows rated as `NewSchema.RateOf` gives |
| RebuildDb.RowsFailFrom | back-end/rebuild_db.py:155-159 | once a row raises, the whole loop has raised |
| RebuildDb.ConvertRowsMessages | back-end/rebuild_db.py:98-148 | after a successful loop the tables are linked and hold one message per legacy row, in order, with id i+1, the row's key, the role and id split from it, its content and its timestamp, and its audio rows rated as `NewSchema.RateOf` gives |
| RebuildDb.LastRowAdded | back-end/rebuild_db.py:115-146 | (corrected, see Findings row 4) one converted row keeps the tables linked and appends exactly its own message |
| RebuildDb.MigrateFailsCleanly | back-end/rebuild_db.py:68-166 | (corrected, see Findings row 4) a run fails, committing nothing, exactly when the old database is missing, the table has another layout, or some row raises |
| RebuildDb.ConvertedKeysDistinct | back-end/rebuild_db.py:99-124 | a successful run had no NULL key and no key twice |
| RebuildDb.RowsLostAsWritten | back-end/rebuild_db.py:115-121 | as written, a single well-formed legacy row makes the run fail with nothing migrated, where the corrected loop migrates it into one message |
| MigrateDb.ParseKeyAgrees | back-end/migrate_db.py:52-53 | both migrations read the same role and id out of every key |
| MigrateDb.ParseKeyOfKey | back-end/migrate_db.py:52-53 | a key `{role}-{message_id}` with a role free of `-` gives back that role and id |
| MigrateDb.StoredTimestamp | back-end/migrate_db.py:61 | the stored timestamp is never NULL: it is the dict's `timestamp` when given and not `None`, and otherwise the clock reading `now`, since a `None` takes the column default `datetime.now` of back-end/models/database_models.py:19 |
| MigrateDb.StringContentEncodedTwice | back-end/migrate_db.py:60 | a dict whose content is already text is stored JSON-encoded here, where the other migration stores the text itself |
| MigrateDb.MigrateOldToNew | back-end/migrate_db.py:7-96 | (corrected, see Findings row 5) what is committed is that of the migration specification, in which a missing or `None` timestamp is the clock reading `now` |
| MigrateDb.MigrateRow | back-end/migrate_db.py:56-86 | (corrected, see Findings row 5) one key/value row succeeds exactly when its conversion does, and then has its effect, with the timestamp of `StoredTimestamp` |
| MigrateDb.RowsFailFrom | back-end/migrate_db.py:91-94 | once a row raises, the whole loop has raised |
| MigrateDb.ConvertRowsMessages | back-end/migrate_db.py:38-88 | after a successful loop the tables are linked and hold one message per legacy row, in order, with id i+1, the row's key, the role and id split from it, its stored content, its given timestamp or else the clock reading `now`, and its audio rows |
| MigrateDb.LastRowAdded | back-end/migrate_db.py:56-86 | (corrected, see Findings row 5) one converted row keeps the tables linked and appends exactly its own message, stamped as `StoredTimestamp` gives |
| MigrateDb.MigrateOutcomes | back-end/migrate_db.py:20-96 | (corrected, see Findings row 5) nothing is committed exactly when there is no `messages` table or a row raises; a table of another layout commits nothing migrated; a commit is linked and holds every row, stamped as `StoredTimestamp` gives |
| MigrateDb.ConvertedKeysDistinct | back-end/migrate_db.py:52-65 | a successful run had no NULL key and no key twice |
| MigrateDb.TimestampRejectedAsWritten | back-end/migrate_db.py:61 | as written, a legacy message with an ISO timestamp string fails the run, where the corrected conversion stores it with that timestamp |

## Left out

- Network calls (Ollama, Whisper, the speech server) and `requests`/`aiohttp`/`fetch` are oracle parameters. Each oracle returns the decoded reply or None for a failed request. Timeouts, headers and the float request options are not modelled.
- `json.loads`, `json.dumps` and `JSON.parse` are oracle parameters. The model does not prove that they are inverses, except where a lemma takes that as its hypothesis.
- `uuid4`, `Date.now`, `Math.random`, `datetime.now` and `strftime` are parameters. `generateId` (messageUtils.js:87-89) is not modelled, because it is only a random-id draw.
- The storage directories (`AUDIO_STORAGE_DIR`, `IMAGE_STORAGE_DIR`) are parameters. The file system is a map from path to decoded samples. The WAV encoding of segment files, base64 transport and float-to-int16 clipping (message_processor.py:111-128) are not modelled, because they are floating-point and byte-level I/O. Only `setframerate`'s rejection of a rate that is not positive is modelled (MessageProcessor.Writable).
- back-end/utils/audio_utils.py, the normalisation in stt_model.py:23-37 and tts_model.py:170-180, and the merged duration at assistant.py:201 are not part of this model. They are floating-point signal processing.
- The local speech model's file loading, `phonemize_text` and the ONNX session call (tts_model.py:31-71, 269-276) are not modelled. Only the token preparation of `generate_audio_local` is. The constructor is modelled in the configured `api` mode.
- `_get_available_models` (llm_service.py:46-58) is an HTTP call. Its result is a parameter of the constructor.
- The regex cleaners `_sanitize_for_tts` and `_clean_response`, and the prefix patterns and English-sentence removal of `_extract_chinese_translation` (llm_service.py:343-369), are parameters, because their meaning is the regex engine's. `_create_translation_prompt` is prompt text: the translation request is identified by the English text alone.
- Letter case is ASCII only and whitespace is the ASCII whitespace characters. Python's `str.split()`, `capitalize()` and `lower()` also act on other Unicode characters.
- `async` code, FastAPI background tasks and streaming generators run sequentially. The merge task is returned as a value, and the stream as the list of its lines.
- main.py routing is not part of this model, apart from the validity and factory dispatch it relies on. main.py:107 calls a `get_audio_by_message_id` method that database_service.py does not define.
- message_processor.py:57-60 is not modelled, because it is dead code: the saved English text is always a string at that point.
- MessageProcessor.SegmentName: a missing assistant message id is written as the text `None`, as Python's f-string does.
- MessageProcessor.UserSavedBeforeReply and MessageProcessor.StreamChoice are stated for any reply turn, not only for those the language model can produce.
- Database.DatabaseService: SQL `LIKE` wildcards inside ids (`%`, `_`) are not modelled. Matching is exact substring or prefix, without case for ASCII letters only.
- Database.SavedMessage and RebuildDb.ConvertRow reject a key that is already stored, as the unique index of back-end/models/database_models.py:15 does. The `Message` of back-end/models/message.py:10, which database_service.py and rebuild_db.py actually import, declares no such index, so the source would store a second row under that key. New keys carry a fresh uuid, so this arises only for a repeated legacy key.
- Database.SaveWithAudio: the corrected call stores each segment's `text` in the column of back-end/models/database_models.py:49. The `AudioSegment` of back-end/models/audio.py, which database_service.py imports, has no such column (see Findings).
- `add_message`, `get_message_by_key`, `load_session`, `get_session_history` and the database half of `update_message_audio` (database_service.py:108-155) are not part of this model. Only the assistant's `audio_info` building (assistant.py:215-247) is.
- `get_db` returns a closed session (database_service.py:26-32). The model treats every service call as running in a working session.
- Migrations: file copies, `input()`, `create_new_database`, SQLite's binding of list-valued contents and the schema creation are not modelled. Ids start from a freshly created database.
- MigrateDb.MigrateOldToNew: the `__main__` block (migrate_db.py:98-116), which renames the database files whatever the outcome, is not modelled.
- MessageUtils.SplitTextIntoSegments and MessageUtils.SegmentsPacked measure length in code points (`|s|`). JavaScript's `length` (messageUtils.js:3, 14) counts UTF-16 code units, so for characters outside the Basic Multilingual Plane the source's limit is reached sooner than the model's.
- RequestModels.Upload: `content_type` is modelled as a string. FastAPI's `UploadFile.content_type` may be `None`, and then `"audio" in None` and `"image" in None` (request_models.py:31, 35) raise `TypeError` instead of returning False. The model does not capture that raise.
- TtsApi.SplitText requires `max_length >= 1`. It therefore leaves out both a limit of 0, with which the source's loop never ends (TtsApi.ZeroLimitNoProgress), and negative limits, which the source also accepts.
- AppContext: the JSON round trip of the `slice(-100)` persistence through `localStorage` is not modelled. The window itself is.
- UseChat.SameContent compares the `english` values structurally. The source's `===` (useChat.js:56-58) compares an object or array value by reference, so two equal but distinct objects count as different there.
- UseChat: `clearHistory` and `exportChatHistory` (useChat.js:174-210) are not modelled. They are `localStorage` and file-download effects. `localStorage` writes in `addMessage` are left out too.

## Findings

| source | as written | input that shows it | evidently intended | confidence | as-written member | corrected member |
|---|---|---|---|---|---|---|
| back-end/services/llm_service.py:189-191 | `self.messages.copy()` is shallow, so `+= SYSTEM_PROMPT` grows the stored system message on every turn | any history whose first entry is a system message, over two turns | each English request carries the system prompt once, and the stored history is unchanged | not executed | LlmService.SystemPromptCompoundsAsWritten | LlmService.TurnKeepsSystemMessages |
| back-end/services/llm_service.py:126-143 | a failed English request returns the fallback dict, `_sanitize_for_tts` then raises on it, and the caller gets the generic `exception` reply | three failed POSTs for the English request | the `api_error` reply naming the model (lines 195-196) | not executed | LlmService.ApiErrorMaskedAsWritten | LlmService.ApiErrorReported |
| back-end/models/stt_model.py:120-134 | `capitalize()` lower-cases the rest of each sentence, undoing the `i'm` → `I'm` corrections | `"a i'm"` becomes `"A i'm"` | `"A I'm"`: sentences start upper case and the corrections are kept | not executed | SttModel.CorrectionUndoneAsWritten | SttModel.PostProcessKeepsCorrections |
| back-end/rebuild_db.py:115-121 | `Message(timestamp=...)` names a column that back-end/models/message.py does not define; the `TypeError` is caught at lines 155-159 and the run returns False | a legacy table with the single row `user-1` → `"hi"` | every legacy row migrated into one message with its audio | not executed | RebuildDb.RowsLostAsWritten | RebuildDb.ConvertRowsMessages |
| back-end/migrate_db.py:61 | the timestamp text goes into the `DateTime` column (back-end/models/database_models.py:19), which SQLite's `DateTime` type rejects at flush, so the run fails | a legacy row whose value is `{"content": "hi", "timestamp": "2024-01-01T00:00:00"}` | the message stored with that timestamp | not executed | MigrateDb.TimestampRejectedAsWritten | MigrateDb.ConvertRowsMessages |
| back-end/services/database_service.py:41-47 | `Message(timestamp=...)` names a column that back-end/models/message.py does not define; the `TypeError` is caught at lines 57-60 and `save_message` returns None | `save_message("user", "hi")` on any database | the message stored and its id returned | not executed | Database.SaveMessageLostAsWritten | Database.SaveMessageAppends |
| back-end/services/database_service.py:72-95 | creating the message passes `timestamp=`, and each segment passes `text=`, which back-end/models/audio.py does not define; the exception is caught at lines 103-106 and the call returns False | `save_message_with_audio("assistant", "hi", "m1")` on an empty database | the message created, and with paths its segments replaced | not executed | Database.SaveWithAudioLostAsWritten | Database.SaveWithAudioFindOrCreate |
