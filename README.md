# wabot core in Dafny

This project models the core of wabot, a WhatsApp bot that answers chat
messages with Google's Gemini models. The model covers three parts:

- **The API key pool** (`lib/apiKeyPool.js`). For each service name it keeps
  an ordered list of interchangeable keys and a rotation cursor. `getKey`
  hands keys out round-robin, `addKey` appends a key unless it is already
  there, and `removeKey` drops every copy of a key and resets a cursor that
  now points past the end. Every change to the list writes the whole key map
  to the key file.
- **The history manager** (`lib/historyManager.js`). It keeps one JSON file
  of turns per chat and per conversation track. The file lives at
  `history/<user>/chat_history.json`, or at
  `history/<user>/<track>/chat_history.json` for a named track. The user id
  is the part of the chat id before `@`, with every character outside
  `[A-Za-z0-9]` replaced by `_`. The first read of the default track moves a
  file from the older `HISTORY/<whole chat id sanitised>.json` layout to the
  new place. `getFormattedHistoryForContext` renders the most recent turns as
  `User: …` / `Assistant: …` lines.
- **The two AI commands of `sansekai.js`**:
  - `/a` asks the chat model. It sends the last thirty turns of the chat and
    the pictures those turns mention, loaded back from disk.
  - `/g` asks the image model. It sends the uploaded picture, up to ten
    pictures from the image conversation and the rendered conversation. It
    stores and sends the picture it gets back.
  - `/a` draws a key from the pool at the start of each attempt; `/g` draws
    one once the attempt has passed its content check. A missing key or an
    empty-string key fails the attempt. After a failed attempt both commands
    give up once the retry count reaches 10 or the number of keys in the
    pool.

Modules, one file each:

- `Wrappers`: `Option`.
- `Text`: the JavaScript string operations the code uses. This covers
  `split`, `join`, `trim`, `slice(-n)`, decimal formatting of ids, and the
  bracketed-tag regular expressions `\[TAG([0-9]+)\]`.
- `ApiKeys`: the pool as a value (`Pool`, `Draw`, `Add`, `Remove`) and the
  class `ApiKeyPool`, whose methods update its fields in place and are
  proved to follow the value-level steps.
- `History`: the file system as a map from path to file, the pure steps
  `SaveStep`, `ReadStep` and `ClearStep`, and the class `TurnStore`, whose
  methods perform those steps.
- `Attachments`: the image folders, the three image loaders, `saveImageToFile`
  and the file-name conventions.
- `ChatContext`: the request parts and `contents` list of `/a`.
- `ImageGenContext`: the request parts of `/g`, with the ten-picture cap.
- `ImageGenResponse`: how `/g` reads the image model's answer and the record
  it saves.
- `Commands`: what both commands share. This is the event log of messages
  sent, the retry rule, the generic retry loop `RetryLoop` with its lemmas,
  `compressImage`, and the catch clause that reports a final failure.
- `AskCommand` and `ImageCommand`: the two commands. Each is a pure run
  function (`AskRun`, `GenRun`) proved equal to the imperative handler
  (`Ask`, `GenerateImage`) that works on the shared pool and history store.

The outside world (the model calls, the media download, the `sharp`
re-encoding, `Date.now()` and the timestamps) is a parameter: an `oracle`
gives what it does during each attempt.

## Model

| member | source | states |
|---|---|---|
| ApiKeys.LoadEntries | lib/apiKeyPool.js:17-50 | A missing or unreadable file gives an empty pool. A legacy string entry becomes a one-element list, an array is kept as is, other values are ignored, and every loaded service starts at cursor 0. |
| ApiKeys.ApiKeyPool.constructor | lib/apiKeyPool.js:9-15 | The new pool holds exactly the services the key file provides with a string or a list: a string becomes a one-key list, a list is kept as it is. Each starts with cursor 0, the cursors are consistent, and nothing has been written yet. |
| ApiKeys.KeyCount | lib/apiKeyPool.js:122-127 | For a consistent pool, the count is 0 exactly when `getKey` returns no key. |
| ApiKeys.Draw | lib/apiKeyPool.js:63-81 | No key and no change for an unknown service or an empty list. Otherwise it returns the key under the cursor (a missing cursor counts as 0) and advances the cursor by one modulo the list length. Other services' cursors and all lists are unchanged, and consistency is kept. |
| ApiKeys.Add | lib/apiKeyPool.js:83-98 | Reports true exactly when the key was not yet in the service's list. It then appends the key, creating the list if needed. A duplicate changes nothing. Afterwards the key is present, cursors are untouched and consistency is kept. |
| ApiKeys.Without | lib/apiKeyPool.js:106 | The filter keeps exactly the elements different from the key, with the same multiplicities. It shortens the list exactly when the key occurs. |
| ApiKeys.WithoutKeepsOrder | lib/apiKeyPool.js:106 | Filtering distributes over concatenation, so it keeps relative order. |
| ApiKeys.Remove | lib/apiKeyPool.js:100-120 | Reports true exactly when the service exists and holds the key. It removes every copy. After a removal, a cursor at or past the new length becomes 0 and any other cursor is kept, and a missing cursor stays missing. Other services are unchanged, consistency is kept, and an emptied list has cursor 0. |
| ApiKeys.DrawMany | lib/apiKeyPool.js:63-81 | The results of n consecutive `getKey` calls, one per call, each on the pool the previous call left; `RoundRobin` states which key each one is. |
| ApiKeys.DrawnPool | lib/apiKeyPool.js:63-81 | The pool n consecutive `getKey` calls leave: consistent, with the key lists unchanged. |
| ApiKeys.DrawAfter | lib/apiKeyPool.js:63-81 | Call n + 1 returns the key of the pool the first n calls left, and leaves that pool advanced by one more call. |
| ApiKeys.RoundRobin | lib/apiKeyPool.js:70-76 | Call i of n consecutive calls returns the key at position (cursor + i) mod length. |
| ApiKeys.DrawnFromStart | lib/apiKeyPool.js:63-81 | From cursor 0, the i-th draw returns the key at position i modulo the number of keys (checked for the first round and the first key of the second). |
| ApiKeys.FullRotation | lib/apiKeyPool.js:63-81 | From cursor 0, as many calls as there are keys return every key once in insertion order, and the next call returns the first key again. |
| ApiKeys.ApiKeyPool.GetKey | lib/apiKeyPool.js:63-81 | Returns the key `Draw` gives, leaves the pool in the state `Draw` gives, and writes nothing. |
| ApiKeys.ApiKeyPool.AddKey | lib/apiKeyPool.js:83-98 | Follows `Add` and writes the new key map exactly when a key was added. |
| ApiKeys.ApiKeyPool.RemoveKey | lib/apiKeyPool.js:100-120 | Its flag and new keys and cursors are those of `Remove` (every copy removed, an out-of-range cursor reset to 0, any other kept), and it writes the new key map exactly when a key was removed. |
| ApiKeys.ApiKeyPool.GetKeyCount | lib/apiKeyPool.js:122-127 | Agrees with `KeyCount` on the pool's state. |
| ApiKeys.ApiKeyPool.AllKeys | lib/apiKeyPool.js:129-131 | Every listed service has as many keys as `getKeyCount` reports. An unlisted service reports 0. |
| History.Sanitize | lib/historyManager.js:29 | Same length. Each character outside `[A-Za-z0-9]` becomes `_` and each other character is kept. |
| History.UserIdFromChatId | lib/historyManager.js:25-30 | The id is the sanitised prefix of the chat id up to, and not including, the first `@`, or all of it when there is no `@`. It holds only letters, digits and `_`. |
| History.FilenameShape | lib/historyManager.js:38-64 | The file is `history/<user>/chat_history.json` for the default track and `history/<user>/<track>/chat_history.json` otherwise. |
| History.LegacyDistinct | lib/historyManager.js:116-121 | The legacy file is never the canonical file of any track. |
| History.PartitionsDistinct | lib/historyManager.js:46-50 | Two tracks of one chat share a file exactly when they are equal or both select the default directory. |
| History.SaveStep | lib/historyManager.js:73-98 | Appends one turn to the track's file, creating it if absent. A file `JSON.parse` rejects is left alone. Every other file is unchanged. |
| History.ReadStep | lib/historyManager.js:106-151 | Returns the canonical file's turns when it exists (none when it does not parse). Otherwise, for the track "chat" only, a parsable legacy file is returned and moved to the canonical path, with everything else unchanged. Every other case gives no turns and no change. |
| History.ClearStep | lib/historyManager.js:159-174 | Reports whether the canonical file existed and deletes exactly that file. |
| History.ReadSaveRead | lib/historyManager.js:73-151 | Read, save a turn, read again: the second read returns the first read's turns followed by the new turn. |
| History.SaveBeforeMigration | lib/historyManager.js:73-142 | Saving before the legacy file was ever read starts a fresh canonical file. The next read sees only the new turn, and the legacy file stays behind. |
| History.ReadIdempotent | lib/historyManager.js:106-151 | A second read changes nothing and returns the same turns, so migration happens at most once. |
| History.ClearThenRead | lib/historyManager.js:106-174 | After a clear, a read returns no turns, except that the default track falls back to a legacy file that is still present. |
| History.TracksIndependent | lib/historyManager.js:38-98 | Saving to or clearing one track leaves every other track's turns unchanged. |
| History.RenderTurn | lib/historyManager.js:194-196 | The line starts with `User: ` for the role `user` and with `Assistant: ` for every other role. |
| History.RenderAll | lib/historyManager.js:194-196 | One line per turn, in order. |
| History.WindowShape | lib/historyManager.js:191 | `slice(-n)` keeps the last min(n, length) turns for a positive n, and everything for 0. |
| History.FormatHistory | lib/historyManager.js:183-197 | The text is empty exactly when the window holds no turn. |
| History.FormatEndsWithLatest | lib/historyManager.js:183-197 | After a turn is saved, the context for a positive bound ends with that turn's line, preceded by a newline and the earlier turns of the window. |
| History.TurnStore.constructor | lib/historyManager.js:4-8 | The store starts with the given files. |
| History.TurnStore.SaveMessageToHistory | lib/historyManager.js:73-98 | The files become `SaveStep` of the old files. |
| History.TurnStore.GetMessageHistory | lib/historyManager.js:106-151 | The returned turns and the new files are `ReadStep` of the old files. |
| History.TurnStore.ClearMessageHistory | lib/historyManager.js:159-174 | The flag and the new files are `ClearStep` of the old files. |
| History.TurnStore.GetFormattedHistoryForContext | lib/historyManager.js:183-197 | Returns `FormatHistory` of the turns `ReadStep` gives and leaves the files `ReadStep` leaves, so a legacy file may be moved. |
| Attachments.FindFrom | sansekai.js:140 | The result is the first position at or after i whose name starts with `<id>.`, or none when no such file exists. |
| Attachments.FindImage | sansekai.js:140 | `files.find`: the first file named `<id>.…`, and none exactly when no file is. |
| Attachments.MimeOfStoredName | sansekai.js:149 | A file named `<stem>.<ext>` is reported as `image/<ext>`. |
| Attachments.LookupImage | sansekai.js:133-156 | None exactly when the folder is missing or holds no file of that id. Otherwise the bytes of such a file, with the mime type its extension names. |
| Attachments.LoadByReference | sansekai.js:124-125 | A reference that does not split on `:` into exactly two pieces loads nothing. Otherwise the second piece is looked up. |
| Attachments.ReferenceParts | sansekai.js:124 | A kind and an id without colons split back into exactly those two pieces. |
| Attachments.LoadByDigits | sansekai.js:612 | A reference built from a label and a digit id looks up that id. |
| Attachments.UploadedImageId | sansekai.js:902-926 | The id is never empty, and there is none for an empty reference. A reference starting with the bracketed tag yields exactly the digits the regular expression captures. |
| Attachments.UploadedReferenceForms | sansekai.js:906-920 | The bracketed tag `[UPLOADED IMAGE:<id>]…`, the form `UPLOADED IMAGE:<id>` and the bare id all name the same digit id. |
| Attachments.LoadUploadedImage | sansekai.js:901-961 | An invalid reference loads nothing. Otherwise the id is looked up in `<user>/image_gen/uploads`. |
| Attachments.CompressedMime | sansekai.js:55-69 | The result is always an output format. JPEG, JPG, PNG and WebP keep their name, and every other type becomes `image/jpeg`. |
| Attachments.Extension | sansekai.js:105 | The extension never contains `/`. |
| Attachments.FileNameNamesImage | sansekai.js:104-106 | The stored name `<id>.<ext>` is one the id finds. |
| Attachments.OutputMimesLabelThemselves | sansekai.js:55-105 | For every format `compressImage` writes, the extension names it back. |
| Attachments.SubtypeLabelsItself | sansekai.js:105-149 | `image/<ext>` with no `/` or `.` in `<ext>` is named back by its extension. |
| Attachments.WriteFile | sansekai.js:110 | `writeFileSync`: the new file is present, other files are kept, and nothing else appears. |
| Attachments.SaveFile | sansekai.js:99-110 | Writes into the folder, creating it if needed. Other folders are unchanged. |
| Attachments.SavedImageLoads | sansekai.js:104-156 | An image stored under a fresh id loads back with the same bytes, labelled `image/<ext>`. |
| Attachments.ChatImageRoundTrip | sansekai.js:91-161 | A picture `saveImageToFile` stores under a fresh id is what `IMAGE ATTACHED:<id>` loads later: the same bytes under the same mime type. |
| Attachments.GeneratedFileName | sansekai.js:1189-1190 | The name of a generated image is one its id finds, and a missing subtype becomes `jpg`. |
| Attachments.GeneratedImageRoundTrip | sansekai.js:164-203 | A generated picture saved under a fresh id loads back by `GENERATED IMAGE:<id>` with its bytes and mime type. |
| ChatContext.ImageParts | sansekai.js:617-622 | One inline part exactly when a picture loaded. |
| ChatContext.LoadAttached | sansekai.js:606-612 | The captured digits are looked up in the sender's images folder. |
| ChatContext.RenderChatTurnCases | sansekai.js:604-638 | A turn whose first attachment tag names a stored picture gives that picture and `Role: [Image] <rest>`. A turn whose picture is gone gives no picture and has its tag replaced by `[Image]`. A turn without a tag reads `Role: content`. |
| ChatContext.UserRecordRenders | sansekai.js:584-638 | A user record `/a` wrote renders back as its text, with the stored attachment and `[Image]` in front, or as plain text. |
| ChatContext.AttachedRecordRenders | sansekai.js:557-630 | A record carrying an attachment reads `User: [Image] …`, with the picture when it still loads. |
| ChatContext.AttachedRecordParts | sansekai.js:606-629 | The tag of a user record is found at its front and names the saved id. Stripping it leaves the trimmed text, and replacing it leaves `[Image]` and the text. |
| ChatContext.KeptMembers | sansekai.js:601 | The turns used as context are exactly the turns other than a user turn equal to the current record. |
| ChatContext.CollectHistoryKept | sansekai.js:594-639 | The loop renders exactly the kept turns, one line each in order. It loads their pictures in the same order and never gives more pictures than lines. |
| ChatContext.RequestPartOrder | sansekai.js:642-668 | When a historical picture loads, the parts are the current picture, then the historical pictures in order, then the narrative. Otherwise the narrative is dropped and the parts are the current picture and the text. |
| ChatContext.TurnContentsPointwise | sansekai.js:698-711 | Entry i of the contents is kept turn i, under its model role (`assistant` becomes `model`), as text only. |
| ChatContext.BuildContents | sansekai.js:695-718 | The `contents` list equals the kept turns followed by the current message with all its parts. |
| ChatContext.AssembleParts | sansekai.js:581-668 | The merged parts equal `RequestParts`, whose order `RequestPartOrder` states. |
| ImageGenContext.RenderGenTurn | sansekai.js:1030-1087 | Every line of the `/g` history starts with `U` or `A` (`User: …` / `Assistant: …`). |
| ImageGenContext.GeneratedLabelParts | sansekai.js:1061-1068 | The captured digits of a generated tag are looked up in `<user>/image_gen/generated`. |
| ImageGenContext.GenWalk | sansekai.js:1020-1094 | Starting with at most ten pictures, the loop never brings the count above ten, and everything it adds is a picture. |
| ImageGenContext.GenRenderAvoidsNote | sansekai.js:1030-1087 | No rendered turn reads as the truncation note. |
| ImageGenContext.NoteComesLast | sansekai.js:1024-1029 | The truncation note, when added, is the last line. |
| ImageGenContext.CapStopsWalk | sansekai.js:1024-1029 | With ten pictures present, the next kept turn is not rendered. Exactly one note is added and the loop stops. Without a kept turn, nothing is added. |
| ImageGenContext.CollectGenHistory | sansekai.js:1010-1094 | The imperative loop, including its `continue` and `break`, collects exactly `GenHistory`, and the count grows by the number of pictures. |
| ImageGenContext.CollectTurns | sansekai.js:1019-1094 | The same loop for any rendering of turns equals `GenWalk`. |
| ImageGenContext.GenRequestBounded | sansekai.js:989-1102 | A `/g` request holds at most ten pictures, the upload included. Every part but the last is a picture, and the last is the text prompt. |
| ImageGenContext.AssembleGenParts | sansekai.js:964-1102 | The parts equal `GenRequestParts`: the upload when it loads, the history pictures, then the prompt with the conversation (when there are recent turns) and the instruction. |
| ImageGenResponse.LastImageNone | sansekai.js:1146-1152 | The parts loop finds no picture exactly when no part carries one. |
| ImageGenResponse.LastImageIsLast | sansekai.js:1146-1152 | The picture found is that of the last part carrying one. |
| ImageGenResponse.ScanAppend | sansekai.js:1146-1152 | Over two lists of parts, the later picture wins and the texts concatenate. |
| ImageGenResponse.ScanParts | sansekai.js:1146-1152 | The loop keeps the last picture and concatenates the non-empty texts of parts without a picture. |
| ImageGenResponse.ExtractCases | sansekai.js:1137-1184 | No candidate is one error, exactly. A first candidate with none of the fields the code tests is the "unexpected structure" error, exactly. A picture is only taken from one the candidate carries. A candidate with a non-empty top-level `text` and no `content` counts as having no picture. |
| ImageGenResponse.ContentPartsRead | sansekai.js:1143-1184 | For a `content.parts` answer: a picture exactly when some part has one, "no image" exactly when none has, and then the last picture with the concatenated texts. |
| ImageGenResponse.ExtractImage | sansekai.js:1133-1184 | The imperative reading equals `Extract`, whose cases `ExtractCases` states. |
| ImageGenResponse.GeneratedRecordRenders | sansekai.js:1059-1080 | A saved record reads back in the image conversation as the picture stored under its id, described by the trimmed text or by the default wording. |
| ImageGenResponse.RecordShape | sansekai.js:1202-1204 | The record is the tag, the id and `]`, then a space and the text when there is one. |
| ImageGenResponse.RecordTag | sansekai.js:1061 | The regular expression finds exactly the tag that opens the record, with the record's id as its digits. |
| ImageGenResponse.RecordDescription | sansekai.js:1061-1066 | The description read back from a one-line record is its trimmed text, or `an AI generated image` when there is none. |
| ImageGenResponse.AssistantGeneratedTurn | sansekai.js:1059-1080 | An assistant turn with a generated tag and no upload tag reads as the generated picture with its description. |
| Commands.SaveAllAppend | lib/historyManager.js:73-98 | Saving a + b turns equals saving a, then b. |
| Commands.FinalsAppend | sansekai.js:738-741 | Final messages add up over concatenated event lists. |
| Commands.GivesUpAtBound | sansekai.js:750-753 | After at least one failure, the loop gives up exactly when the retry count reaches min(10, keys), or 1 with no keys. That bound lies between 1 and 10. |
| Commands.RetryLoop | sansekai.js:689-768 | A run from attempt i makes more than i and at most 10 attempts, and never ends as an upload rejection. |
| Commands.RetryAttempts | sansekai.js:690-751 | With key counts unchanged by attempts, a run makes at most min(10, k) attempts, exactly that many when it gives up. A run that does not give up ended on an attempt of which the command's success condition holds. |
| Commands.RetryKeeps | sansekai.js:689-768 | A state invariant kept by failed attempts, plus what each attempt leaves, gives what the final state satisfies. |
| Commands.RetryReplies | sansekai.js:738-789 | When each attempt sends one final message exactly when it does not fail, the run sends exactly one, and it is its last event. |
| Commands.RetryFinals | sansekai.js:689-789 | The run sends one final message more than it started with. |
| Commands.RetryLast | sansekai.js:689-789 | The last event is the ending attempt's reply, or the failure reply. |
| Commands.RetryExtends | sansekai.js:689-768 | A run only appends to its events. |
| Commands.Compress | sansekai.js:24-88 | A successful re-encoding returns the new bytes in an output format named back by its own extension. A failure returns the original bytes: under their own type when `sharp` threw before the output format was chosen, and under the output format (JPEG for anything but JPEG, PNG or WebP) when it threw after. JPEG, PNG and WebP types are kept in every case. |
| Commands.FinalReplyAsWritten | sansekai.js:773-789 | As written, a command that runs out of attempts sends only the outer handler's generic reply, never its own failure message. |
| Commands.GiveUpEvents | sansekai.js:775-789 | As intended: delete the status message, then send the command's failure message, which is exactly one final message. |
| AskCommand.AskAttempt | sansekai.js:512-744 | An attempt never halts and never changes any key list. |
| AskCommand.AttemptSaves | sansekai.js:586-735 | The user turn is saved exactly when the attempt is attempt 0 and gets past the checks; if attempt 0 fails them, no later attempt saves it. The answer is saved exactly on success, which required a usable key, content, a download and an answer. The history files receive exactly those turns. |
| AskCommand.AttemptReplies | sansekai.js:738-748 | A successful attempt sends one final message, the answer, last. A failed attempt sends none. |
| AskCommand.AskAttemptsEndWell | sansekai.js:512-744 | Attempts keep the key count and succeed only with a key, content, a download and an answer. |
| AskCommand.AskRunAttempts | sansekai.js:689-768 | `/a` makes between 1 and min(10, k) attempts (1 with no keys), exactly the bound when it gives up. It ends delivered or given up, and delivery had a key, passed the checks and got an answer; `AskDeliveredKey` says which key was drawn and that it was not empty. |
| AskCommand.EmptyKeyGivesUp | sansekai.js:513-518 | With the empty string as the only Gemini key, `getKey` returns that key, the key check rejects it, and `/a` gives up after its one attempt having saved nothing. |
| AskCommand.AskAttemptsDraw | sansekai.js:513-518 | Before attempt i, exactly i keys have been drawn. An attempt that does not fail drew a usable key (neither missing nor empty) with `getKey` call i. |
| AskCommand.AskDeliveredKey | sansekai.js:513-518 | A delivered `/a` run drew a usable key on its last attempt: the key of `getKey` call r.attempts - 1, i.e. by `RoundRobin` the key at (cursor + attempts - 1) mod k. |
| AskCommand.DeliveredKeyOf | sansekai.js:689-768 | The same, for any attempts with those properties. |
| AskCommand.RunAttemptsOf | sansekai.js:689-768 | The same, for any attempts with those properties. |
| AskCommand.AttemptKeepsSaved | sansekai.js:586-735 | One attempt keeps the saved-so-far invariant when it fails and leaves the final saved state. |
| AskCommand.AskAttemptsKeepSaved | sansekai.js:586-735 | All attempts of `/a` do. |
| AskCommand.AskRunSaves | sansekai.js:481-735 | After the history read, `/a` saves the user turn at most once (by the first attempt), then the answer only on delivery. The history files receive exactly those turns in that order. |
| AskCommand.RunSavesOf | sansekai.js:689-768 | The same, for any attempts keeping that invariant. |
| AskCommand.AskAttemptsReplyOnce | sansekai.js:738-748 | Each attempt sends its answer as its one final message, or sends none. |
| AskCommand.AskRunReplies | sansekai.js:469-789 | `/a` opens with the status message and sends exactly one final message, last: the answer on delivery, the intended failure message when it gives up. |
| AskCommand.RunRepliesOf | sansekai.js:689-789 | The same, for any attempts with one reply each. The run extends the starting events. |
| AskCommand.PrepareRequest | sansekai.js:512-686 | Draws a key. It fails (throws) exactly when the key is missing or the empty string, without content, or when the download fails. On success the picture is stored, the user turn is saved unless retrying, and the parts equal `AskParts`. On failure the files are unchanged. |
| AskCommand.AttemptAsk | sansekai.js:691-766 | One attempt on the shared pool and store equals `AskAttempt`. |
| AskCommand.Ask | sansekai.js:461-789 | The handler's outcome, events, pool and files equal `AskRun` (with the intended give-up ending), about which the lemmas above hold. |
| ImageCommand.UploadMislabelled | sansekai.js:866-876 | As written, an upload in a format `compressImage` does not write is stored as JPEG bytes but loads back labelled with its original type. |
| ImageCommand.GifUploadMislabelled | sansekai.js:866-876 | A GIF upload loads back as JPEG bytes labelled `image/gif`. |
| ImageCommand.UploadReferenceLoads | sansekai.js:881-961 | The saved reference looks up its id in the uploads folder. |
| ImageCommand.UploadRoundTrip | sansekai.js:841-1003 | With the corrected naming, the reference in the user turn loads back exactly the compressed picture, under its own type, as the request's first part. |
| ImageCommand.GenPool | sansekai.js:965-973 | An attempt draws at most one key, keeps the lists and keeps the pool consistent. |
| ImageCommand.GenAttempt | sansekai.js:1213-1258 | An attempt never changes any key list. |
| ImageCommand.GenAttemptEffects | sansekai.js:964-1258 | Attempts keep the key count. Not failing required content, a usable key and an answer. A success required a picture and saves exactly its record. A halt is exactly the "no image" answer. Anything but success leaves history, folders and saved turns alone. |
| ImageCommand.GenAttemptReplies | sansekai.js:1229-1252 | An attempt that does not fail sends one final message, the picture or the refusal, last. A failed attempt sends none. |
| ImageCommand.DeliveredImageReadsBack | sansekai.js:1059-1080 | The record of a delivered picture is the last saved turn. A later attempt renders it as that picture, under its own mime type, with its trimmed text. |
| ImageCommand.GenAttemptsEndWell | sansekai.js:964-1258 | Attempts keep the key count and end only as `GenEndedAt` says. |
| ImageCommand.GenRunAttempts | sansekai.js:1211-1283 | A rejected upload is exactly the zero-attempt outcome. Otherwise `/g` makes between 1 and min(10, k) attempts, exactly the bound when it gives up. Delivery or a block ended on an attempt with content, a key and an answer carrying a picture, or the "no image" answer respectively; `GenDeliveredKey` says which key was drawn and that it was not empty. |
| ImageCommand.GenAttemptsDraw | sansekai.js:972-976 | When the message has something to draw, exactly i keys have been drawn before attempt i. An attempt that does not fail drew a usable key with `getKey` call i. |
| ImageCommand.GenDeliveredKey | sansekai.js:972-976 | A `/g` run that was delivered or blocked drew a usable key on its last attempt: the key of `getKey` call r.attempts - 1. |
| ImageCommand.GenDeliveredKeyOf | sansekai.js:1211-1283 | The same, for any attempts with those properties. |
| ImageCommand.GenAttemptKeepsStore | sansekai.js:1213-1258 | A failed attempt leaves the store as it was. Any attempt leaves `GenSaved`. |
| ImageCommand.GenAttemptsKeepStore | sansekai.js:1213-1258 | All attempts of `/g` do. |
| ImageCommand.GenRunSaves | sansekai.js:841-1206 | A rejected upload stores nothing. Otherwise `/g` stores the upload, saves the user turn once before any attempt, then only a delivered picture and its record. The files receive exactly those turns in order. |
| ImageCommand.AcceptedSaves | sansekai.js:890-1206 | The same, once the upload is accepted. |
| ImageCommand.GenRunSavesOf | sansekai.js:1211-1283 | The same, for any attempts keeping the store invariant. |
| ImageCommand.GenAttemptsReplyOnce | sansekai.js:1229-1252 | Each attempt sends its picture or refusal as its one final message, or sends none. |
| ImageCommand.GenRunReplies | sansekai.js:799-1305 | `/g` opens with the status message and sends exactly one final message, last. That message is the upload failure text, the picture with its caption, the refusal, or the intended failure message, according to how the run ended. |
| ImageCommand.GenRunRepliesOf | sansekai.js:1211-1283 | The same, for any attempts with one reply each. |
| ImageCommand.ImageGenReadKeeps | lib/historyManager.js:116 | Reading the `image_gen` track never moves a file. |
| ImageCommand.PrepareGen | sansekai.js:964-1108 | Fails exactly without content, or when the key is missing or the empty string. It draws a key only past the content check, changes no history file, and on success the parts equal `GenRequestParts` over the image conversation. |
| ImageCommand.GenerateAndSave | sansekai.js:1111-1258 | A picture stores its file, saves its record and sends the picture. "No image" sends the refusal. Anything else changes nothing and is retried. |
| ImageCommand.AttemptGen | sansekai.js:1213-1258 | One attempt on the shared pool and store equals `GenAttempt`. |
| ImageCommand.ProcessUpload | sansekai.js:841-888 | The upload step equals `PrepareUpload`, which stores the upload under the corrected name. |
| ImageCommand.RetryGen | sansekai.js:1211-1283 | The loop equals `RetryLoop` over the `/g` attempts. |
| ImageCommand.GenerateImage | sansekai.js:792-1305 | The handler's outcome, events, pool and files equal `GenRun` (with the intended give-up ending and upload name), about which the lemmas above hold. |

## Left out

- Sending, editing and deleting WhatsApp messages are recorded as events, not performed. A send that itself fails is not modelled.
- The Gemini calls are an oracle. Model names, safety settings, the system prompt file (`loadSystemPrompt`) and the response text of the chat model are parameters or left out.
- `compressImage`'s `sharp` pipeline (resize to 1280×720, quality settings) is the `Reencoding` the environment reports: the new bytes, a failure before the output format is chosen, or a failure after it. Which sharp errors fall on which side is not modelled.
- Base64 encoding and decoding are the identity: a loaded image carries its bytes.
- `Date.now()` ids and ISO timestamps are parameters. Two files with the same id are not excluded in general; the round-trip lemmas require a fresh id.
- `ensureDirectoryExists` is left out. A folder appears when the first file is written into it, and a history file is written without creating its directory.
- `saveKeys` is the `saves` log of `ApiKeyPool`. A failing write is not modelled.
- JSON parsing is reduced to a file that parses into turns or is rejected. A file that parses into something other than an array of turns is not modelled.
- History I/O errors other than an unparsable file are left out (a failed `unlinkSync`, write errors).
- `path.join` is string concatenation with `/`. Track names are taken to be single path segments without `.` or `..`.
- Strings are `seq<char>` of Unicode scalar values, while JavaScript strings are sequences of UTF-16 code units. A character outside the Basic Multilingual Plane (an emoji, say) is one `char` here but two code units in JavaScript, so `Sanitize` writes one `_` for it where lib/historyManager.js:29 writes two. WhatsApp chat ids are ASCII, so no chat id is affected.
- The regular expressions are modelled only for the tags the code uses.
- The `errorMessages` log and `console` output are left out.
- The one-second delay between attempts (`setTimeout`) is left out.
- The `if (!isRetrying)` guard around the `/g` user-turn save is always true at that point, so the model saves that turn once, unconditionally.
- The other commands of `sansekai.js` (menu, key management, history clearing through the chat) and the connection code are not part of this model.
- Concurrency: two commands running at once over the shared pool and files are not modelled. Each run is sequential.
- Ask: a run that gives up ends with the intended catch clause (`GiveUpEvents`: delete the status message, then the command's own failure text). As written (sansekai.js:773-789), the user instead gets only the outer handler's generic reply and the status message stays; `FinalReplyAsWritten` states that ending, but the run model does not carry it.
- AskRunReplies: its give-up reply is the intended failure text `AskFailText`, not the generic reply the code as written sends (see the first row of "## Findings").
- GenerateImage: a run that gives up ends with the intended catch clause, as for `Ask`, not with the generic reply of sansekai.js:1288-1305 as written. The upload is stored under the name of the format it was stored in (`UploadFileName`), not under the type it arrived with as sansekai.js:869 does; `UploadMislabelled` states the as-written naming.
- GenRunReplies: its give-up reply is the intended failure text `GenFailText`, not the generic reply the code as written sends.
- ProcessUpload: names the stored upload after its stored format (`UploadFileName`), the corrected naming of the second row of "## Findings", not after the type it arrived with (sansekai.js:869).
- PrepareUpload: uses the same corrected naming as `ProcessUpload`.

## Findings

| source | as written | input that shows it | evidently intended | confidence | as-written member | corrected member |
|---|---|---|---|---|---|---|
| sansekai.js:770-789, sansekai.js:1286-1305 | `thinkingMsgKey` and `errorMessages` are declared with `let` inside the `try` block, so the `catch` block cannot see them. `typeof` skips the delete, and reading `errorMessages` throws, so the outer handler answers with its generic text. | Any `/a` or `/g` run in which every attempt fails, e.g. a pool without `keygemini` keys | Delete the status message and reply with the command's own failure message | not executed | Commands.FinalReplyAsWritten | Commands.GiveUpEvents |
| sansekai.js:866-876 | The `/g` upload is stored under the extension of the mime type it arrived with, but its bytes are the re-encoded JPEG when that type is not JPEG, PNG or WebP | An `image/gif` upload: stored as `<id>.gif` with JPEG bytes, loaded back labelled `image/gif` | Name the file after the stored format, as `saveImageToFile` does | not executed | ImageCommand.GifUploadMislabelled | ImageCommand.UploadRoundTrip |
