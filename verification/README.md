# pokkit-ai-open-text-chat: a verified model of the chat client's core

This project models the sequential logic of a browser chat client. The client stores its chat threads, text messages and media messages in PocketBase and sends conversations to Anthropic's API. Four parts are modelled, each in its own module:

- **`MediaRecords`** (`dbAiMediaMessageUtils.ts`): the media-message record schema. It also covers the validated snapshot returned by the list call, the error wrapping of the create call, and the subscription. The subscription keeps a local list `allRecords` and reconciles it with `create` / `update` / `delete` change events, calling `onChange` after each one. The subscription is a class whose fields the event callback updates. Read as a map keyed by id (a later entry winning), the list is proved to change under every event, and every sequence of events, exactly as that map does (`ReconcileById`, `ReplayById`); this holds with duplicate ids too. When ids start unique and every create carries a new id, they also stay unique (`ReconcileMatchesMap`, `ReplayMatchesMap`).
- **`MediaStore`** (`aiMediaMessageRecordsStore.ts`): the record store and the per-thread view of it. It also covers the media file URL, the cached-files store (a map from file reference to `File`), the watcher that fetches every uncached file, and the view that joins each record with its cached file. The stores are classes. The watcher is a loop, proved against `Requests` and `FetchedFiles`, whose convergence is proved separately.
- **`ChatFiles`** (`utils.ts`): the base64 payload of a data URL and the content kind of a MIME type. It also covers the file-to-content-block conversion and the batch conversion (modelled as `Promise.all` followed by keeping the successes), the extension-to-MIME table, and the file built from a media URL.
- **`ChatScreen`** (`AiChatScreen.tsx`): the conversation view (text messages joined with their attachments, sorted by `created`) and the builder from a stored turn to a provider message. It also covers the submit handler. `RunSubmit` specifies the handler as the sequence of backend and provider calls it makes plus its result. `ChatSession.Submit` performs the handler step by step on the screen state (`mode`, `streamedText`) and is proved to make exactly those calls.

Helper modules:

- `Wrappers`: `Option`.
- `Strings`: JavaScript `split` with a string separator, its round trip with `join`, and JavaScript's string `<`, which compares UTF-16 code units (so a character above U+FFFF sorts before U+FFFF).
- `Seqs`: `filter` and `map`.
- `Sorting`: `Array.prototype.sort` with a comparator that never returns 0. It is modelled as the stable insertion order and proved to sort and permute.

External calls are modelled as values supplied by the caller:

- the PocketBase calls' answers;
- `FileReader.readAsDataURL` (`Codecs.readDataUrl`);
- the content-block schema (`Codecs.acceptsBlock`);
- `fetch` plus `blob` (`fetchBlob`);
- the Anthropic calls (`Backend`);
- the server base URL (`baseUrl`).

## Behaviour of note

- A `FileReader` error rejects the whole batch conversion through `Promise.all`, not just that file's attachment. In the submit handler the rejection escapes before the last `setMode`, so the mode stays `thinking` (`SubmitResult.Aborted`).
- The result of writing the assistant message is ignored: the submit reports success as soon as the provider answers.

## Model

| member | source | states |
|---|---|---|
| Strings.Split | src/modules/aiChat/utils.ts:12 | never empty; its pieces join back to the string (JoinSplit), and there is one piece iff the separator is absent (SplitSingleIff) |
| Strings.LastSegment | src/modules/aiChat/utils.ts:43-44 | what `.pop()` returns: the text after the last separator (LastSegmentAfter), or the whole string without one (LastSegmentWhole) |
| Strings.JoinSplit | src/modules/aiChat/utils.ts:12 | joining the pieces of a split with the separator gives back the original string |
| Strings.SplitSingleIff | src/modules/aiChat/utils.ts:12 | a split has a single piece exactly when the separator does not occur |
| Strings.SplitPrefixFree | src/modules/aiChat/utils.ts:12 | a prefix without the separator's first character joins the first piece |
| Strings.SplitWithoutSeparator | src/modules/aiChat/utils.ts:21 | a string without the separator splits into itself alone |
| Strings.SplitAfterSeparator | src/modules/aiChat/utils.ts:12 | a leading separator yields an empty first piece |
| Strings.SplitAppendPiece | src/modules/aiChat/utils.ts:43-44 | appending a separator and a separator-free tail adds exactly that tail as the last piece |
| Strings.LastSegmentAfter | src/modules/aiChat/utils.ts:43-44 | `.split(c).pop()` of `p + c + t` is `t` when `t` has no `c` |
| Strings.LastSegmentWhole | src/modules/aiChat/utils.ts:44 | without the separator, the last segment is the whole string |
| Strings.CodeUnits | src/modules/aiChat/AiChatScreen.tsx:75 | a character below U+10000 is one unit, itself and never a surrogate; any other is a lead surrogate then a trail surrogate |
| Strings.Utf16 | src/modules/aiChat/AiChatScreen.tsx:75 | a string of n characters is between n and 2n code units |
| Strings.Utf16Injective | src/modules/aiChat/AiChatScreen.tsx:75 | different strings have different UTF-16 encodings |
| Strings.StrLess | src/modules/aiChat/AiChatScreen.tsx:75 | the comparison the sort key uses: lexicographic order of UTF-16 code units, a proper prefix first |
| Strings.SupplementaryBeforeBmpEnd | src/modules/aiChat/AiChatScreen.tsx:75 | U+10000 sorts before U+FFFF, the reverse of code-point order |
| Strings.BmpOrder | src/modules/aiChat/AiChatScreen.tsx:75 | on characters below U+10000 the order is the characters' order |
| Strings.StrLessIrreflexive | src/modules/aiChat/AiChatScreen.tsx:75 | no string is less than itself |
| Strings.StrLessTransitive | src/modules/aiChat/AiChatScreen.tsx:75 | string `<` is transitive |
| Strings.StrLessTotal | src/modules/aiChat/AiChatScreen.tsx:75 | two different strings are ordered one way or the other |
| Strings.StrLessAsymmetric | src/modules/aiChat/AiChatScreen.tsx:75 | string `<` never holds both ways |
| Seqs.Filter | src/modules/aiMediaMessages/dbAiMediaMessageUtils.ts:45 | the kept elements all satisfy the predicate and are no more than the input |
| Seqs.FilterMember | src/modules/aiMediaMessages/dbAiMediaMessageUtils.ts:45 | an element is kept iff it is in the input and satisfies the predicate |
| Seqs.FilterConcat | src/modules/aiMediaMessages/dbAiMediaMessageUtils.ts:45 | filtering distributes over concatenation, so relative order is kept |
| Seqs.FilterKeepsAll | src/modules/aiMediaMessages/aiMediaMessageRecordsStore.ts:23 | a filter that accepts every element returns its input |
| Seqs.FilterDropsAll | src/modules/aiMediaMessages/aiMediaMessageRecordsStore.ts:49 | a filter that accepts nothing returns the empty list |
| Seqs.Map | src/modules/aiMediaMessages/dbAiMediaMessageUtils.ts:44 | same length, and each element is the function applied at the same index |
| Seqs.MapConcat | src/modules/aiMediaMessages/dbAiMediaMessageUtils.ts:44 | mapping distributes over concatenation |
| Sorting.SortBy | src/modules/aiChat/AiChatScreen.tsx:75 | keeps the length; SortBySortsAndPermutes shows it sorts and permutes |
| Sorting.InsertMultiset | src/modules/aiChat/AiChatScreen.tsx:75 | one insertion step adds exactly the inserted element |
| Sorting.InsertSorted | src/modules/aiChat/AiChatScreen.tsx:75 | inserting into a sorted list keeps it sorted |
| Sorting.SortBySortsAndPermutes | src/modules/aiChat/AiChatScreen.tsx:75 | the sort returns a permutation of its input that is non-decreasing under string `<` |
| Sorting.InsertStrictlySorted | src/modules/aiChat/AiChatScreen.tsx:75 | inserting a key different from all others keeps a strict order strict |
| Sorting.SortByStrict | src/modules/aiChat/AiChatScreen.tsx:75 | with pairwise different keys the result is strictly increasing |
| Sorting.StrictlySortedUnique | src/modules/aiChat/AiChatScreen.tsx:75 | a strictly sorted list is the only sorted arrangement of its elements |
| MediaRecords.ToPayload | src/modules/aiMediaMessages/dbAiMediaMessageUtils.ts:4-13 | a record's payload has exactly the eight schema keys |
| MediaRecords.ParseMediaRecord | src/modules/aiMediaMessages/dbAiMediaMessageUtils.ts:4-13 | parsing succeeds iff every schema key holds a string, and then the record carries those values |
| MediaRecords.ParseToPayload | src/modules/aiMediaMessages/dbAiMediaMessageUtils.ts:4-13 | parsing a record's own payload gives the record back |
| MediaRecords.ValidatedSnapshot | src/modules/aiMediaMessages/dbAiMediaMessageUtils.ts:43-46 | the valid fetched records, parsed and in fetched order: characterised by SnapshotConcat, SnapshotSingle and SnapshotFromFetched |
| MediaRecords.SnapshotConcat | src/modules/aiMediaMessages/dbAiMediaMessageUtils.ts:43-46 | the snapshot of a concatenation is the concatenation of the snapshots (fetched order kept) |
| MediaRecords.SnapshotSingle | src/modules/aiMediaMessages/dbAiMediaMessageUtils.ts:43-46 | one fetched record is kept as parsed when valid and silently dropped otherwise |
| MediaRecords.SnapshotFromFetched | src/modules/aiMediaMessages/dbAiMediaMessageUtils.ts:43-46 | every kept record is the parse of a fetched one, and there are no more than fetched |
| MediaRecords.SnapshotOfValidRecords | src/modules/aiMediaMessages/dbAiMediaMessageUtils.ts:43-46 | a snapshot of valid records is taken whole and in order |
| MediaRecords.ListMediaRecords | src/modules/aiMediaMessages/dbAiMediaMessageUtils.ts:37-51 | the list fails exactly when the fetch throws; otherwise at most as many records as fetched |
| MediaRecords.CreatedRecord | src/modules/aiMediaMessages/dbAiMediaMessageUtils.ts:22-36 | a throwing create becomes a failure; otherwise the result is the schema parse of the answer |
| MediaRecords.CreatedRecordEcho | src/modules/aiMediaMessages/dbAiMediaMessageUtils.ts:30-31 | a create answered with a valid record returns that record |
| MediaRecords.Reconcile | src/modules/aiMediaMessages/dbAiMediaMessageUtils.ts:68-87 | the list after one event: characterised by CreateAppends, UpdateReplaces, DeleteRemoves, InvalidPayloadIgnored and ReconcileById |
| MediaRecords.NotifiesChange | src/modules/aiMediaMessages/dbAiMediaMessageUtils.ts:68-87 | whether the callback reaches `onChange`: every event except an invalid update or delete (InvalidPayloadIgnored) |
| MediaRecords.ReplayEvents | src/modules/aiMediaMessages/dbAiMediaMessageUtils.ts:68-87 | the events applied in arrival order: related to the map semantics by ReplayById |
| MediaRecords.CreateAppends | src/modules/aiMediaMessages/dbAiMediaMessageUtils.ts:69-72 | a valid create appends at the end and adds one entry with that id, and `onChange` is called |
| MediaRecords.DuplicateCreatesKeepBoth | src/modules/aiMediaMessages/dbAiMediaMessageUtils.ts:69-72 | two creates with one id leave two more entries with that id (no duplicate check) |
| MediaRecords.WithoutIdRemovesAll | src/modules/aiMediaMessages/dbAiMediaMessageUtils.ts:77 | the id filter removes every record with that id and keeps exactly the others |
| MediaRecords.WithoutAbsentId | src/modules/aiMediaMessages/dbAiMediaMessageUtils.ts:84 | filtering out an absent id changes nothing |
| MediaRecords.UpdateReplaces | src/modules/aiMediaMessages/dbAiMediaMessageUtils.ts:73-79 | a valid update removes all records with its id, keeps the others in order and appends the new one |
| MediaRecords.DeleteRemoves | src/modules/aiMediaMessages/dbAiMediaMessageUtils.ts:80-85 | a valid delete removes all records with its id and keeps the others in order |
| MediaRecords.InvalidPayloadIgnored | src/modules/aiMediaMessages/dbAiMediaMessageUtils.ts:70-86 | an invalid payload leaves the list unchanged; `onChange` is still called iff the action is not update or delete |
| MediaRecords.ByIdAppend | src/modules/aiMediaMessages/dbAiMediaMessageUtils.ts:71 | appending a record sets its id in the map by id |
| MediaRecords.ByIdWithoutId | src/modules/aiMediaMessages/dbAiMediaMessageUtils.ts:77 | the id filter removes exactly that key from the map by id |
| MediaRecords.UniqueIdsAppend | src/modules/aiMediaMessages/dbAiMediaMessageUtils.ts:71 | appending a fresh id keeps ids unique |
| MediaRecords.UniqueIdsFilter | src/modules/aiMediaMessages/dbAiMediaMessageUtils.ts:77 | filtering keeps ids unique |
| MediaRecords.UpdateMatchesMap | src/modules/aiMediaMessages/dbAiMediaMessageUtils.ts:73-79 | with unique ids an update keeps them unique and acts on the map as an overwrite |
| MediaRecords.DeleteMatchesMap | src/modules/aiMediaMessages/dbAiMediaMessageUtils.ts:80-85 | with unique ids a delete keeps them unique and acts on the map as a key removal |
| MediaRecords.ReconcileMatchesMap | src/modules/aiMediaMessages/dbAiMediaMessageUtils.ts:68-87 | with unique ids and a fresh create id, one event on the list agrees with the same event on the map |
| MediaRecords.ReplayMatchesMap | src/modules/aiMediaMessages/dbAiMediaMessageUtils.ts:68-87 | any event sequence with fresh creates keeps ids unique and agrees with the map semantics |
| MediaRecords.ReconcileById | src/modules/aiMediaMessages/dbAiMediaMessageUtils.ts:68-87 | on any list, duplicate ids included, one event changes the map by id exactly as the event changes the reference map |
| MediaRecords.ReplayById | src/modules/aiMediaMessages/dbAiMediaMessageUtils.ts:68-87 | the same agreement for every sequence of events |
| MediaRecords.MediaRecordSubscription.Subscribe | src/modules/aiMediaMessages/dbAiMediaMessageUtils.ts:53-94 | list failure: one `onError` call, no `onChange`, no feed. Success: `onChange` gets the validated snapshot first; a throwing feed then calls `onError` |
| MediaRecords.MediaRecordSubscription.OnEvent | src/modules/aiMediaMessages/dbAiMediaMessageUtils.ts:68-87 | the list becomes the event's reconciliation, and it is emitted exactly when the callback reaches `onChange` |
| MediaStore.ThreadRecords | src/modules/aiMediaMessages/aiMediaMessageRecordsStore.ts:23 | `undefined` unless the store is loaded; otherwise exactly the records of that thread |
| MediaStore.ThreadRecordsConcat | src/modules/aiMediaMessages/aiMediaMessageRecordsStore.ts:23 | the thread view distributes over concatenation (store order kept) |
| MediaStore.ThreadRecordsAllInThread | src/modules/aiMediaMessages/aiMediaMessageRecordsStore.ts:23 | records that all belong to the thread are returned unchanged |
| MediaStore.MediaRecordStore.constructor | src/modules/aiMediaMessages/aiMediaMessageRecordsStore.ts:13 | the record store starts `undefined` |
| MediaStore.MediaRecordStore.SetData | src/modules/aiMediaMessages/aiMediaMessageRecordsStore.ts:14 | `setData` replaces the whole value |
| MediaStore.MediaRecordStore.Clear | src/modules/aiMediaMessages/aiMediaMessageRecordsStore.ts:15 | `clear` resets the store to `undefined` |
| MediaStore.MediaRecordStore.GetMessagesByThreadId | src/modules/aiMediaMessages/aiMediaMessageRecordsStore.ts:18-25 | `undefined` unless loaded; otherwise exactly the records of that thread |
| MediaStore.MediaFileUrl | src/modules/aiMediaMessages/aiMediaMessageRecordsStore.ts:27-28 | the file's URL: its last two `/` pieces are the id and the reference (MediaFileUrlPieces) |
| MediaStore.MediaFileUrlPieces | src/modules/aiMediaMessages/aiMediaMessageRecordsStore.ts:27-28 | the URL's last two `/` pieces are the record id and the file reference |
| MediaStore.MediaFileUrlLastSegment | src/modules/aiMediaMessages/aiMediaMessageRecordsStore.ts:27-28 | the URL's last segment is the file reference when the reference has no `/` |
| MediaStore.CachedFilesStore.constructor | src/modules/aiMediaMessages/aiMediaMessageRecordsStore.ts:37 | the cache starts empty |
| MediaStore.CachedFilesStore.SetData | src/modules/aiMediaMessages/aiMediaMessageRecordsStore.ts:38 | `setData` replaces the whole map |
| MediaStore.CachedFilesStore.AddData | src/modules/aiMediaMessages/aiMediaMessageRecordsStore.ts:39 | a map merge: new keys overwrite, absent keys keep their old value |
| MediaStore.CachedFilesStore.Clear | src/modules/aiMediaMessages/aiMediaMessageRecordsStore.ts:40 | `clear` resets the cache to the empty map |
| MediaStore.Requests | src/modules/aiMediaMessages/aiMediaMessageRecordsStore.ts:48-51 | the URLs the watcher fetches: one per uncached record, in store order (RequestsAppend) |
| MediaStore.FetchedFiles | src/modules/aiMediaMessages/aiMediaMessageRecordsStore.ts:51-53 | what the watcher adds to the cache: characterised by FetchedFilesAppend, FetchedFilesKeys and FetchOne |
| MediaStore.RequestsAppend | src/modules/aiMediaMessages/aiMediaMessageRecordsStore.ts:48-51 | one more record adds its URL to the requests exactly when its reference is not cached |
| MediaStore.FetchedFilesAppend | src/modules/aiMediaMessages/aiMediaMessageRecordsStore.ts:51-53 | one more record adds its fetched file under the file's name, or nothing when cached or the fetch fails |
| MediaStore.WatchCachedFiles | src/modules/aiMediaMessages/aiMediaMessageRecordsStore.ts:43-57 | one URL is requested per uncached record, in store order, and the cache gains what the fetches return; nothing happens unless the store is loaded |
| MediaStore.WatchIdleWhenCached | src/modules/aiMediaMessages/aiMediaMessageRecordsStore.ts:48-49 | when every reference is cached, no fetch is issued and nothing is added |
| MediaStore.FetchedFilesKeys | src/modules/aiMediaMessages/aiMediaMessageRecordsStore.ts:53 | every added key is the name of a fetched file, i.e. the last segment of an uncached record's URL |
| MediaStore.FetchOne | src/modules/aiMediaMessages/aiMediaMessageRecordsStore.ts:51-53 | one uncached record: a failed fetch adds nothing; a successful one adds exactly one entry, keyed by the record's reference |
| MediaStore.WatchConverges | src/modules/aiMediaMessages/aiMediaMessageRecordsStore.ts:47-56 | when all fetches succeed, every reference is cached afterwards and a second run requests nothing |
| MediaStore.JoinCachedFile | src/modules/aiMediaMessages/aiMediaMessageRecordsStore.ts:63-66 | the joined entry's file is the cached file or `undefined`, and `fileUrl` is the reference |
| MediaStore.UnjoinJoin | src/modules/aiMediaMessages/aiMediaMessageRecordsStore.ts:65 | the join changes no other field: the record can be recovered from the entry |
| MediaStore.JoinedRecords | src/modules/aiMediaMessages/aiMediaMessageRecordsStore.ts:63-66 | same length and order as the records, each entry joined with its cached file |
| MediaStore.JoinedThreadRecords | src/modules/aiMediaMessages/aiMediaMessageRecordsStore.ts:68 | the joined view of one thread: equal to the plain thread view, joined (JoinedThreadRecordsAgree) |
| MediaStore.FilterJoinCommute | src/modules/aiMediaMessages/aiMediaMessageRecordsStore.ts:68 | filtering by thread after joining equals joining after filtering |
| MediaStore.JoinedThreadRecordsAgree | src/modules/aiMediaMessages/aiMediaMessageRecordsStore.ts:68 | the joined thread view is the plain thread view, joined |
| ChatFiles.Base64Payload | src/modules/aiChat/utils.ts:12 | there is no payload exactly when `;base64,` does not occur |
| ChatFiles.Base64PayloadOfDataUrl | src/modules/aiChat/utils.ts:12 | the payload of `data:<mime>;base64,<data>` is `<data>` |
| ChatFiles.FileToBase64 | src/modules/aiChat/utils.ts:4-13 | rejects iff the reader errors; succeeds iff it loads a string containing the marker |
| ChatFiles.FileToBase64OfDataUrl | src/modules/aiChat/utils.ts:4-13 | a well-formed data URL gives back its data |
| ChatFiles.ContentKind | src/modules/aiChat/utils.ts:20-21 | `document` for PDFs, otherwise the top-level type (ContentKindTopLevel, ContentKindWithoutSlash) |
| ChatFiles.ContentKindTopLevel | src/modules/aiChat/utils.ts:21 | apart from `application/pdf`, the kind is the text before the first `/` |
| ChatFiles.ContentKindWithoutSlash | src/modules/aiChat/utils.ts:21 | without `/` the kind is the whole MIME string |
| ChatFiles.FileDetails | src/modules/aiChat/utils.ts:15-25 | rejects iff the reader errors; a success is a base64 block with the file's MIME type, the payload and the content kind |
| ChatFiles.FailedBase64SkipsSchema | src/modules/aiChat/utils.ts:16-18 | a failed extraction fails without consulting the content schema |
| ChatFiles.Collect | src/modules/aiChat/utils.ts:27-31 | the batch yields at most one value per conversion |
| ChatFiles.CollectRejects | src/modules/aiChat/utils.ts:28 | the batch rejects exactly when some conversion rejects |
| ChatFiles.CollectIsPipeline | src/modules/aiChat/utils.ts:28-30 | without rejections the batch is the successes filtered and mapped, in order |
| ChatFiles.CollectAllSucceed | src/modules/aiChat/utils.ts:28-30 | when all succeed, every value is kept at its index |
| ChatFiles.CollectConcat | src/modules/aiChat/utils.ts:28-30 | the batch of a concatenation is the concatenation of the batches |
| ChatFiles.FilesToDetails | src/modules/aiChat/utils.ts:27-31 | at most one block per file, and every block is a file block |
| ChatFiles.FilesToDetailsRejects | src/modules/aiChat/utils.ts:28 | the batch rejects exactly when reading some file errors |
| ChatFiles.FilesToDetailsIsPipeline | src/modules/aiChat/utils.ts:28-30 | without reader errors the batch is the successful conversions, in input order |
| ChatFiles.FilesToDetailsAllSucceed | src/modules/aiChat/utils.ts:28-30 | when every file converts, the blocks are the conversions, one per file in order |
| ChatFiles.FilesToDetailsConcat | src/modules/aiChat/utils.ts:28-30 | converting two lists together equals converting them apart and concatenating |
| ChatFiles.FileTypeFor | src/modules/aiChat/utils.ts:33-45 | the type is one of the table's four MIME types, and `image/png` for every extension outside the table (case-sensitive) |
| ChatFiles.FileTypeAsWritten | src/modules/aiChat/utils.ts:45 | as evaluated, the lookup yields an `Object.prototype` member exactly for the prototype's names |
| ChatFiles.FileTypeAsWrittenConstructor | src/modules/aiChat/utils.ts:45 | the extension `constructor` yields a function rather than a MIME type |
| ChatFiles.FileTypeAgreesOffPrototype | src/modules/aiChat/utils.ts:45 | away from the prototype's names the lookup as written equals the corrected one |
| ChatFiles.FileFromMediaUrl | src/modules/aiChat/utils.ts:41-57 | a failed fetch is a failure and never throws; on success the file holds the fetched bytes |
| ChatFiles.FileFromMediaUrlNamed | src/modules/aiChat/utils.ts:43-45 | for `prefix/base.ext` the file is named `base.ext` and typed by `ext` |
| ChatFiles.FileFromMediaUrlNoDot | src/modules/aiChat/utils.ts:43-45 | with no dot in the name, the extension is the whole name |
| ChatScreen.FindThread | src/modules/aiChat/AiChatScreen.tsx:58 | no thread iff none has the friendly id; otherwise the first one that has it |
| ChatScreen.AttachmentsOf | src/modules/aiChat/AiChatScreen.tsx:73 | `undefined` when media is not loaded; otherwise exactly the media of that text message |
| ChatScreen.ConversationTurns | src/modules/aiChat/AiChatScreen.tsx:70-75 | the conversation view: characterised by ConversationTurnsSpec and ConversationOrderDetermined |
| ChatScreen.ConversationTurnsSpec | src/modules/aiChat/AiChatScreen.tsx:70-75 | one turn per text message with exactly its attachments, ascending by `created`, a permutation of the join |
| ChatScreen.ConversationOrderDetermined | src/modules/aiChat/AiChatScreen.tsx:75 | with distinct timestamps every sorted arrangement is this one, and it is strictly increasing |
| ChatScreen.ScreenTurns | src/modules/aiChat/AiChatScreen.tsx:58-75 | the turns shown for the URL's friendly id: characterised by ScreenTurnsWithoutThread and ScreenTurnsOfThread |
| ChatScreen.ScreenTurnsOfThread | src/modules/aiChat/AiChatScreen.tsx:58-75 | with a stored thread: one turn per text message of that thread, sorted, and every attachment shown belongs to the thread and to its turn's message |
| ChatScreen.ScreenTurnsWithoutThread | src/modules/aiChat/AiChatScreen.tsx:58-75 | without a stored thread for the friendly id, the view is empty |
| ChatScreen.CachedFilesOf | src/modules/aiChat/AiChatScreen.tsx:41-43 | a missing media list gives no files, and never more files than attachments |
| ChatScreen.CachedFilesOfMember | src/modules/aiChat/AiChatScreen.tsx:41-43 | the files kept are exactly the defined cached files of the attachments |
| ChatScreen.MessageFromTurn | src/modules/aiChat/AiChatScreen.tsx:37-52 | rejects iff converting the attachments rejects; else the record's role, its text first, then the attachments' blocks |
| ChatScreen.MessageFromTurnWithoutMedia | src/modules/aiChat/AiChatScreen.tsx:41-51 | a turn without a media list becomes its text alone |
| ChatScreen.MessagesFromTurns | src/modules/aiChat/AiChatScreen.tsx:163-167 | on success one message per turn, each the builder's message; a rejection comes from some turn |
| ChatScreen.UserMessage | src/modules/aiChat/AiChatScreen.tsx:155-161 | rejects iff the files' conversion rejects; else a user message with the text and then the blocks |
| ChatScreen.ModeForStatus | src/modules/aiChat/AiChatScreen.tsx:182 | `finished` maps to `ready`; every other status passes through |
| ChatScreen.RunSubmit | src/modules/aiChat/AiChatScreen.tsx:121-201 | the calls the handler makes and its result: characterised by the exit lemmas below, SuccessIff, AssistantWrittenIffSuccess, ProviderHistory and TitleGating |
| ChatScreen.ThreadCalls | src/modules/aiChat/AiChatScreen.tsx:126-136 | a thread creation exactly when no thread is stored (ExistingThreadReused, ThreadFailureExit) |
| ChatScreen.TextStage | src/modules/aiChat/AiChatScreen.tsx:138-200 | the run once the thread is known: a failed user write ends it (TextFailureExit) |
| ChatScreen.ConversionStage | src/modules/aiChat/AiChatScreen.tsx:155-200 | aborts when a conversion rejects, otherwise the provider stage (ConversionAbortExit) |
| ChatScreen.ProviderStage | src/modules/aiChat/AiChatScreen.tsx:170-200 | the title gating, the provider call and the assistant write (ProviderStageKinds) |
| ChatScreen.RunReachingProvider | src/modules/aiChat/AiChatScreen.tsx:121-201 | a run that reaches the provider is the thread creation, the user and media writes, then the provider stage |
| ChatScreen.WriteCallsKinds | src/modules/aiChat/AiChatScreen.tsx:126-154 | the writes before the conversions hold no assistant write, title call or provider call, and no thread creation when a thread is stored |
| ChatScreen.ProviderStageKinds | src/modules/aiChat/AiChatScreen.tsx:170-198 | the title is requested iff wanted and updated iff also generated; the provider is called; the assistant is written iff it answers |
| ChatScreen.ThreadFailureExit | src/modules/aiChat/AiChatScreen.tsx:126-136 | no stored thread and a failed creation: "thread not found", and the creation is the only call |
| ChatScreen.TextFailureExit | src/modules/aiChat/AiChatScreen.tsx:138-144 | a failed user-text write: "create ai text message failed", and that write is the last call |
| ChatScreen.ProviderFailureExit | src/modules/aiChat/AiChatScreen.tsx:179-189 | a failed provider call: "anthropic call failed", and no assistant message is written |
| ChatScreen.ConversionAbortExit | src/modules/aiChat/AiChatScreen.tsx:155-167 | a rejected conversion stops after the writes: no title, no provider call, no assistant write |
| ChatScreen.SuccessIff | src/modules/aiChat/AiChatScreen.tsx:121-201 | success iff a thread is available, the user text is written, the conversions resolve and the provider answers |
| ChatScreen.AssistantWrittenIffSuccess | src/modules/aiChat/AiChatScreen.tsx:186-200 | an assistant message is written iff the submit succeeds, as the last call, with the provider's text |
| ChatScreen.ExistingThreadReused | src/modules/aiChat/AiChatScreen.tsx:126-127 | a stored thread is reused: no thread is created, and the first call writes the user text to it |
| ChatScreen.ProviderHistory | src/modules/aiChat/AiChatScreen.tsx:163-169 | the provider gets the turns' messages in view order and then the new user message: turn count + 1 |
| ChatScreen.TitleGating | src/modules/aiChat/AiChatScreen.tsx:170-177 | a title is requested iff the history has more than 2 messages and the title is empty; updated only when generated |
| ChatScreen.StreamModes | src/modules/aiChat/AiChatScreen.tsx:182 | at most one mode per stream event, characterised by StreamModesStatuses and StreamModesContain |
| ChatScreen.StreamModesStatuses | src/modules/aiChat/AiChatScreen.tsx:182 | a `finished` status in the stream sets the mode to `ready` |
| ChatScreen.StreamModesContain | src/modules/aiChat/AiChatScreen.tsx:182 | every status event's mode is among the modes set |
| ChatScreen.ChatSession.constructor | src/modules/aiChat/AiChatScreen.tsx:79-80 | the screen starts `ready` with no streamed text |
| ChatScreen.ChatSession.SetMode | src/modules/aiChat/AiChatScreen.tsx:79 | `setMode` sets the mode and nothing else |
| ChatScreen.ChatSession.Issue | src/modules/aiChat/AiChatScreen.tsx:126-198 | one backend or provider call appended to the trace, the screen state unchanged |
| ChatScreen.ChatSession.ReceiveStream | src/modules/aiChat/AiChatScreen.tsx:179-184 | the callbacks set one mode per status event and leave the last streamed text |
| ChatScreen.ChatSession.CreateMediaMessages | src/modules/aiChat/AiChatScreen.tsx:148-154 | one media creation per file, in order, for the user message's id |
| ChatScreen.ChatSession.AskProvider | src/modules/aiChat/AiChatScreen.tsx:170-200 | makes exactly the provider stage's calls and returns its result |
| ChatScreen.ChatSession.Converse | src/modules/aiChat/AiChatScreen.tsx:155-200 | aborts on a rejected conversion, otherwise runs the provider stage |
| ChatScreen.ChatSession.WriteUserText | src/modules/aiChat/AiChatScreen.tsx:138-200 | makes exactly the calls of the stage after the thread is known |
| ChatScreen.ChatSession.Respond | src/modules/aiChat/AiChatScreen.tsx:123-201 | the inner function makes exactly `RunSubmit`'s calls and returns its result |
| ChatScreen.ChatSession.Submit | src/modules/aiChat/AiChatScreen.tsx:121-204 | mode `thinking` first, then the stream's modes, then `ready` on success and `error` on failure; `thinking` stays on a rejected conversion |

## Left out

- PocketBase (`create`, `getFullList`, `subscribe`), `fetch`/`blob`, `FileReader`, the Anthropic calls and `updateAiThreadRecordTitle` are foreign I/O. Their answers are parameters (`fetched`, `subscribeThrows`, `response`, `fetchBlob`, `Codecs`, `Backend`), and the calls the handler makes are recorded as a trace.
- The zod schema of provider content blocks lives in a file that is not part of this model, so it is the parameter `Codecs.acceptsBlock`. The media-record schema is modelled concretely: all eight keys must hold strings.
- `process.env.NEXT_PUBLIC_POCKETBASE_URL` is the parameter `baseUrl`.
- React and zustand reactivity, the `useEffect` scheduling of the watcher, and the order in which concurrent fetches resolve are not modelled: the model adds the fetched files in store order. Duplicate in-flight fetches are not modelled either.
- The watcher's `x.file in cachedFilesStore.data` and the join's `cachedFilesStore.data[x.file]` also see `Object.prototype` members. The model treats the cache as its own keys only.
- A create event `push`es onto the array already handed to `onChange`, so earlier emissions alias the live list. The model emits a value copy per call.
- The change feed's `subscribe` returns a promise that is not awaited. The model reduces it to whether opening the feed throws.
- `MediaRecords.MediaRecordSubscription.OnEvent`: events before the feed is open, and unsubscription, are not modelled.
- The text-message store (`aiTextMessageRecordsStore.ts`) is not part of this model. Its per-thread lookup is the parameter `textsFor`, and the thread store is its loaded list of threads.
- `createAnthropicMessage` is in a file that is not part of this model. It is modelled as building the message from its role and content unchanged.
- The stream statuses other than `finished` come from a file that is not part of this model. They are modelled as the screen's modes.
- `Sorting.SortBy`: for equal timestamps the comparator answers 1 both ways, so ECMAScript leaves the order to the engine. The model fixes one order (stable insertion). `ChatScreen.ConversationOrderDetermined` shows the order is unique when timestamps differ.
- The JSX rendering (the loading and error screens, the "No AI instance" branch, the message list and the thinking/streaming/error indicators) is presentation. So is `AiInputTextAndImages.tsx`, a DOM input widget.
- `console.error` logging, and the `"" ` fallbacks of `.pop() ?? ""`, which cannot be reached because `split` always returns at least one piece.
- `new File`'s coercion of a non-string `type` and the contents of the blob are not modelled; a file is its name, MIME type and bytes.
- The rejection that escapes the submit handler is not traced beyond the handler (`SubmitResult.Aborted`).

## Findings

| source | as written | input that shows it | evidently intended | confidence | as-written member | corrected member |
|---|---|---|---|---|---|---|
| src/modules/aiChat/utils.ts:45 | the extension is looked up with an indexed read of an object literal, which also finds members inherited from `Object.prototype`; these are not nullish, so the `image/png` default is skipped | a media URL ending in `photo.constructor` (also `.toString`, `.__proto__`, …) gets a function or object as its file type | every extension outside the five-entry table gets `image/png` | high; not executed | ChatFiles.FileTypeAsWritten (ChatFiles.FileTypeAsWrittenConstructor) | ChatFiles.FileTypeFor (used by ChatFiles.FileFromMediaUrl) |
