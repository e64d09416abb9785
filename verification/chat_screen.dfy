/**
 * The chat screen (src/modules/aiChat/AiChatScreen.tsx): the conversation view
 * built from the stored text and media messages of the current thread, the
 * provider messages built from it, and the submit handler that persists the
 * user's message, asks the provider for a reply and persists that.
 *
 * Every backend and provider call is an oracle: the `Backend` value holds what
 * each call answers, and the handler records the calls it makes as a trace.
 */
module ChatScreen {
  import opened Wrappers
  import opened Strings
  import opened Seqs
  import opened Sorting
  import opened ChatFiles
  import opened MediaStore

  datatype Role = User | Assistant

  /** The fields of a stored text message the screen uses. */
  datatype TextRecord = TextRecord(id: string, threadId: string, role: Role, contentText: string, created: string)

  /** The fields of a stored thread the screen uses. */
  datatype Thread = Thread(id: string, friendlyId: string, title: string)

  /** One entry of the conversation view: a text message and the media
      messages attached to it (`undefined` when the media store is not loaded). */
  datatype Turn = Turn(textMessage: TextRecord, mediaMessages: Option<seq<MediaWithFile>>)

  /** A message of the provider's conversation. */
  datatype ProviderMessage = ProviderMessage(role: Role, content: seq<ContentBlock>)

  datatype Mode = Ready | Thinking | Streaming | Error

  /** What `onStreamStatusChange` reports: a mode, or "finished". */
  datatype StreamStatus = StatusMode(mode: Mode) | Finished

  // ---------------------------------------------------------------------------
  // The conversation view (lines 58-75)

  /** The current thread: the first stored thread with the URL's friendly id. */
  function FindThread(threads: seq<Thread>, friendlyId: string): (r: Option<Thread>)
    ensures r.None? <==> forall i :: 0 <= i < |threads| ==> threads[i].friendlyId != friendlyId
    ensures r.Some? ==> exists i :: 0 <= i < |threads| && threads[i] == r.value &&
                          r.value.friendlyId == friendlyId &&
                          forall j :: 0 <= j < i ==> threads[j].friendlyId != friendlyId
    decreases |threads|
  {
    if |threads| == 0 then None
    else if threads[0].friendlyId == friendlyId then Some(threads[0])
    else
      var r := FindThread(threads[1..], friendlyId);
      assert forall i :: 0 <= i < |threads[1..]| ==> threads[1..][i] == threads[i + 1];
      r
  }

  function ForText(textId: string): MediaWithFile -> bool {
    (y: MediaWithFile) => y.aiTextMessageId == textId
  }

  /** The attachments of one text message: the media records that point at it,
      or nothing when the media list is not loaded. */
  function AttachmentsOf(media: Option<seq<MediaWithFile>>, textId: string): (r: Option<seq<MediaWithFile>>)
    ensures r.Some? <==> media.Some?
    ensures r.Some? ==> forall y :: y in r.value <==> y in media.value && y.aiTextMessageId == textId
  {
    if media.Some? then
      assert forall y :: y in Filter(ForText(textId), media.value) <==> y in media.value && y.aiTextMessageId == textId by {
        forall y ensures y in Filter(ForText(textId), media.value) <==> y in media.value && y.aiTextMessageId == textId {
          FilterMember(ForText(textId), media.value, y);
        }
      }
      Some(Filter(ForText(textId), media.value))
    else None
  }

  function TurnWith(media: Option<seq<MediaWithFile>>): TextRecord -> Turn {
    (x: TextRecord) => Turn(x, AttachmentsOf(media, x.id))
  }

  /** The sort key: `textMessage.created`. */
  function CreatedOf(t: Turn): string {
    t.textMessage.created
  }

  /** The conversation: each text message with its attachments, ordered by
      creation time. */
  function ConversationTurns(texts: Option<seq<TextRecord>>, media: Option<seq<MediaWithFile>>): seq<Turn> {
    SortBy(Map(TurnWith(media), texts.GetOr([])), CreatedOf)
  }

  /** One turn per text message, each carrying exactly that message's
      attachments, ordered by creation time. */
  lemma ConversationTurnsSpec(texts: Option<seq<TextRecord>>, media: Option<seq<MediaWithFile>>)
    ensures var r := ConversationTurns(texts, media);
            && |r| == |texts.GetOr([])|
            && SortedBy(r, CreatedOf)
            && multiset(r) == multiset(Map(TurnWith(media), texts.GetOr([])))
    ensures var r := ConversationTurns(texts, media);
            forall i :: 0 <= i < |r| ==>
              r[i].textMessage in texts.GetOr([]) &&
              r[i].mediaMessages == AttachmentsOf(media, r[i].textMessage.id)
    ensures var r := ConversationTurns(texts, media);
            forall x :: x in texts.GetOr([]) ==> Turn(x, AttachmentsOf(media, x.id)) in r
  {
    var joined := Map(TurnWith(media), texts.GetOr([]));
    var r := ConversationTurns(texts, media);
    SortBySortsAndPermutes(joined, CreatedOf);
    forall i | 0 <= i < |r|
      ensures r[i].textMessage in texts.GetOr([]) && r[i].mediaMessages == AttachmentsOf(media, r[i].textMessage.id)
    {
      assert r[i] in multiset(joined);
      var k :| 0 <= k < |joined| && joined[k] == r[i];
    }
    forall x | x in texts.GetOr([]) ensures Turn(x, AttachmentsOf(media, x.id)) in r {
      var k :| 0 <= k < |texts.GetOr([])| && texts.GetOr([])[k] == x;
      assert joined[k] in multiset(r);
    }
  }

  /** With pairwise different creation times the order is fully determined:
      every arrangement a sort may produce is this one. */
  lemma ConversationOrderDetermined(texts: seq<TextRecord>, media: Option<seq<MediaWithFile>>, other: seq<Turn>)
    requires forall i, j :: 0 <= i < j < |texts| ==> texts[i].created != texts[j].created
    requires SortedBy(other, CreatedOf)
    requires multiset(other) == multiset(Map(TurnWith(media), texts))
    ensures other == ConversationTurns(Some(texts), media)
    ensures StrictlySortedBy(ConversationTurns(Some(texts), media), CreatedOf)
  {
    var joined := Map(TurnWith(media), texts);
    SortByStrict(joined, CreatedOf);
    SortBySortsAndPermutes(joined, CreatedOf);
    StrictlySortedUnique(ConversationTurns(Some(texts), media), other, CreatedOf);
  }

  /** The turns the screen shows for a thread: the current thread is looked up
      by friendly id; without it (or with an empty id) neither store is read. */
  function ScreenTurns(threads: seq<Thread>, friendlyId: string,
                       textsFor: string -> Option<seq<TextRecord>>,
                       media: RecordsState, cache: map<string, File>): seq<Turn>
  {
    var current := FindThread(threads, friendlyId);
    var threadId := if current.Some? then current.value.id else "";
    if threadId == "" then ConversationTurns(None, None)
    else ConversationTurns(textsFor(threadId), JoinedThreadRecords(media, cache, threadId))
  }

  /** Without a stored thread the view is empty. */
  lemma ScreenTurnsWithoutThread(threads: seq<Thread>, friendlyId: string,
                                 textsFor: string -> Option<seq<TextRecord>>,
                                 media: RecordsState, cache: map<string, File>)
    requires forall i :: 0 <= i < |threads| ==> threads[i].friendlyId != friendlyId
    ensures ScreenTurns(threads, friendlyId, textsFor, media, cache) == []
  {
  }

  /** With a stored thread the view holds one turn per text message of that
      thread, and every attachment shown belongs to the thread and to its turn. */
  lemma ScreenTurnsOfThread(threads: seq<Thread>, friendlyId: string,
                            textsFor: string -> Option<seq<TextRecord>>,
                            media: RecordsState, cache: map<string, File>, t: Thread)
    requires FindThread(threads, friendlyId) == Some(t) && t.id != ""
    ensures var r := ScreenTurns(threads, friendlyId, textsFor, media, cache);
            && |r| == |textsFor(t.id).GetOr([])|
            && SortedBy(r, CreatedOf)
            && forall i :: 0 <= i < |r| ==> r[i].textMessage in textsFor(t.id).GetOr([])
    ensures var r := ScreenTurns(threads, friendlyId, textsFor, media, cache);
            forall i, m :: 0 <= i < |r| && r[i].mediaMessages.Some? && m in r[i].mediaMessages.value ==>
              m.threadId == t.id && m.aiTextMessageId == r[i].textMessage.id
  {
    var joined := JoinedThreadRecords(media, cache, t.id);
    var r := ScreenTurns(threads, friendlyId, textsFor, media, cache);
    assert r == ConversationTurns(textsFor(t.id), joined);
    ConversationTurnsSpec(textsFor(t.id), joined);
    forall i, m | 0 <= i < |r| && r[i].mediaMessages.Some? && m in r[i].mediaMessages.value
      ensures m.threadId == t.id && m.aiTextMessageId == r[i].textMessage.id
    {
      var all := JoinedRecords(media, cache);
      assert all.Some? && joined.value == Filter(JoinedInThread(t.id), all.value);
      FilterMember(JoinedInThread(t.id), all.value, m);
    }
  }

  // ---------------------------------------------------------------------------
  // Provider messages (lines 37-52)

  predicate HasCachedFile(m: MediaWithFile) {
    m.file.Some?
  }

  function CachedFileOf(m: MediaWithFile): File
    requires m.file.Some?
  {
    m.file.value
  }

  /** The cached files of a turn's attachments, skipping those not yet cached. */
  function CachedFilesOf(media: Option<seq<MediaWithFile>>): (r: seq<File>)
    ensures |r| <= |media.GetOr([])|
    ensures media.None? ==> r == []
  {
    var cached := Filter(HasCachedFile, media.GetOr([]));
    seq(|cached|, i requires 0 <= i < |cached| => CachedFileOf(cached[i]))
  }

  /** The files kept are exactly the cached files of the attachments. */
  lemma CachedFilesOfMember(media: seq<MediaWithFile>, f: File)
    ensures f in CachedFilesOf(Some(media)) <==> exists m :: m in media && m.file == Some(f)
  {
    var cached := Filter(HasCachedFile, media);
    if f in CachedFilesOf(Some(media)) {
      var i :| 0 <= i < |cached| && CachedFileOf(cached[i]) == f;
      FilterMember(HasCachedFile, media, cached[i]);
    }
    if exists m :: m in media && m.file == Some(f) {
      var m :| m in media && m.file == Some(f);
      FilterMember(HasCachedFile, media, m);
      var i :| 0 <= i < |cached| && cached[i] == m;
      assert CachedFilesOf(Some(media))[i] == f;
    }
  }

  /** `createAnthropicMessageFromAiTextAndMediaMessageWithCachedFileRecords`:
      the record's role, its text first, then its attachments' blocks. `None`
      when converting an attachment rejects. */
  function MessageFromTurn(turn: Turn, codecs: Codecs): (r: Option<ProviderMessage>)
    ensures r.None? <==> FilesToDetails(CachedFilesOf(turn.mediaMessages), codecs).None?
    ensures r.Some? ==>
              && r.value.role == turn.textMessage.role
              && |r.value.content| >= 1
              && r.value.content[0] == TextBlock(turn.textMessage.contentText)
              && r.value.content[1..] == FilesToDetails(CachedFilesOf(turn.mediaMessages), codecs).value
  {
    match FilesToDetails(CachedFilesOf(turn.mediaMessages), codecs)
    case None => None
    case Some(blocks) =>
      var content := [TextBlock(turn.textMessage.contentText)] + blocks;
      assert content[1..] == blocks;
      Some(ProviderMessage(turn.textMessage.role, content))
  }

  /** A turn with no attachments list becomes its text alone. */
  lemma MessageFromTurnWithoutMedia(x: TextRecord, codecs: Codecs)
    ensures MessageFromTurn(Turn(x, None), codecs) == Some(ProviderMessage(x.role, [TextBlock(x.contentText)]))
  {
    assert CachedFilesOf(None) == [];
    assert Map(DetailsWith(codecs), []) == [];
    assert Collect(Map(DetailsWith(codecs), [])) == Some([]);
    assert [TextBlock(x.contentText)] + [] == [TextBlock(x.contentText)];
  }

  /** The provider messages of all turns, or a rejection when any turn's
      attachments fail to convert. */
  function MessagesFromTurns(turns: seq<Turn>, codecs: Codecs): (r: Option<seq<ProviderMessage>>)
    ensures r.Some? ==> |r.value| == |turns|
    ensures r.Some? ==> forall i :: 0 <= i < |turns| ==>
              MessageFromTurn(turns[i], codecs) == Some(r.value[i])
    ensures r.None? ==> exists i :: 0 <= i < |turns| && MessageFromTurn(turns[i], codecs).None?
    decreases |turns|
  {
    if |turns| == 0 then Some([])
    else
      var head := MessageFromTurn(turns[0], codecs);
      var tail := MessagesFromTurns(turns[1..], codecs);
      assert forall i :: 0 <= i < |turns[1..]| ==> turns[1..][i] == turns[i + 1];
      if head.None? || tail.None? then None
      else
        var r := [head.value] + tail.value;
        assert forall i :: 1 <= i < |r| ==> r[i] == tail.value[i - 1];
        Some(r)
  }

  /** The new user message: its text, then the converted files. */
  function UserMessage(text: string, files: seq<File>, codecs: Codecs): (r: Option<ProviderMessage>)
    ensures r.None? <==> FilesToDetails(files, codecs).None?
    ensures r.Some? ==> r.value == ProviderMessage(User, [TextBlock(text)] + FilesToDetails(files, codecs).value)
  {
    match FilesToDetails(files, codecs)
    case None => None
    case Some(blocks) => Some(ProviderMessage(User, [TextBlock(text)] + blocks))
  }

  /** The mode the stream's status callback sets: a finished stream makes the
      screen ready again, every other status is shown as it is. */
  function ModeForStatus(s: StreamStatus): (m: Mode)
    ensures s == Finished ==> m == Ready
    ensures s.StatusMode? ==> m == s.mode
  {
    match s
    case Finished => Ready
    case StatusMode(m) => m
  }

  // ---------------------------------------------------------------------------
  // onSubmit (lines 121-204)

  /** A callback the provider call makes while it streams. */
  datatype StreamEvent = StatusChanged(status: StreamStatus) | TextChanged(text: string)

  /** What each backend and provider call answers. The media-message creations
      and the assistant-message write are absent: their results are ignored. */
  datatype Backend = Backend(
    createdThread: Option<Thread>,
    createdUserText: Option<TextRecord>,
    generatedTitle: Option<string>,
    stream: seq<StreamEvent>,
    completion: Option<string>)

  /** The backend and provider calls the handler makes. */
  datatype Call =
    | CreateThread(friendlyId: string, title: string)
    | CreateTextMessage(threadId: string, role: Role, contentText: string)
    | CreateMediaMessage(threadId: string, file: File, aiTextMessageId: string)
    | GenerateTitle(messages: seq<ProviderMessage>)
    | UpdateTitle(id: string, title: string)
    | CallProvider(messages: seq<ProviderMessage>)

  /** The inner function's result; `Aborted` is a rejected file conversion,
      which escapes the handler before its last `setMode`. */
  datatype SubmitResult = Success | Failure(error: string) | Aborted

  const ThreadNotFound: string := "thread not found"
  const TextMessageFailed: string := "create ai text message failed"
  const ProviderFailed: string := "anthropic call failed"

  /** The submitted input: the text and the attached files. */
  datatype Input = Input(text: string, files: seq<File>)

  /** The calls made, the result, and the stream delivered to the callbacks. */
  datatype SubmitRun = SubmitRun(calls: seq<Call>, result: SubmitResult, stream: seq<StreamEvent>)

  function MediaCallWith(threadId: string, aiTextMessageId: string): File -> Call {
    (f: File) => CreateMediaMessage(threadId, f, aiTextMessageId)
  }

  /** One media-record creation per attached file, for the new text message. */
  function MediaCalls(threadId: string, files: seq<File>, aiTextMessageId: string): seq<Call> {
    Map(MediaCallWith(threadId, aiTextMessageId), files)
  }

  /** A title is asked for once the history holds more than two messages and
      the thread has no title yet. */
  predicate WantsTitle(messages: seq<ProviderMessage>, thread: Thread) {
    |messages| > 2 && thread.title == ""
  }

  /** The title requests: a generation, and an update when it succeeds. */
  function TitleCalls(messages: seq<ProviderMessage>, thread: Thread, generated: Option<string>): seq<Call> {
    if WantsTitle(messages, thread) then
      [GenerateTitle(messages)] + (if generated.Some? then [UpdateTitle(thread.id, generated.value)] else [])
    else []
  }

  /** `run` after the calls `before`. */
  function Prepend(before: seq<Call>, run: SubmitRun): SubmitRun {
    run.(calls := before + run.calls)
  }

  /** The provider stage: the title requests, the provider call, and the
      assistant message when the provider answers. */
  function ProviderStage(t: Thread, messages: seq<ProviderMessage>, backend: Backend): SubmitRun {
    var calls := TitleCalls(messages, t, backend.generatedTitle) + [CallProvider(messages)];
    if backend.completion.None? then SubmitRun(calls, Failure(ProviderFailed), backend.stream)
    else SubmitRun(calls + [CreateTextMessage(t.id, Assistant, backend.completion.value)], Success, backend.stream)
  }

  /** The conversion stage, given the new user message and the history, either
      of which may have rejected. */
  function ConversionStage(t: Thread, newUser: Option<ProviderMessage>, history: Option<seq<ProviderMessage>>,
                           backend: Backend): SubmitRun
  {
    if newUser.None? || history.None? then SubmitRun([], Aborted, [])
    else ProviderStage(t, history.value + [newUser.value], backend)
  }

  /** The user text write followed by the media writes. */
  function UserTextCalls(t: Thread, input: Input, aiTextMessageId: string): seq<Call> {
    [CreateTextMessage(t.id, User, input.text)] + MediaCalls(t.id, input.files, aiTextMessageId)
  }

  /** From the user text write on, once the thread is known. */
  function TextStage(t: Thread, input: Input, newUser: Option<ProviderMessage>, history: Option<seq<ProviderMessage>>,
                     backend: Backend): SubmitRun
  {
    if backend.createdUserText.None? then
      SubmitRun([CreateTextMessage(t.id, User, input.text)], Failure(TextMessageFailed), [])
    else
      Prepend(UserTextCalls(t, input, backend.createdUserText.value.id), ConversionStage(t, newUser, history, backend))
  }

  /** The thread creation, made only without a stored thread. */
  function ThreadCalls(current: Option<Thread>, friendlyId: string): seq<Call> {
    if current.Some? then [] else [CreateThread(friendlyId, "")]
  }

  /** The thread the handler writes to, when it has one. */
  function ThreadUsed(current: Option<Thread>, backend: Backend): Option<Thread> {
    if current.Some? then current else backend.createdThread
  }

  /** The handler's inner function as a specification: the calls in order and
      the result, each failure exit stopping everything after it. */
  function RunSubmit(current: Option<Thread>, friendlyId: string, input: Input, turns: seq<Turn>,
                     codecs: Codecs, backend: Backend): SubmitRun
  {
    var thread := ThreadUsed(current, backend);
    if thread.None? then SubmitRun(ThreadCalls(current, friendlyId), Failure(ThreadNotFound), [])
    else
      Prepend(ThreadCalls(current, friendlyId),
              TextStage(thread.value, input, UserMessage(input.text, input.files, codecs),
                        MessagesFromTurns(turns, codecs), backend))
  }

  lemma ConcatAssoc(a: seq<Call>, b: seq<Call>, c: seq<Call>)
    ensures a + b + c == a + (b + c)
  {
  }

  /** Whether some call of `calls` is of the kind `p`. */
  predicate Makes(calls: seq<Call>, p: Call -> bool) {
    exists i :: 0 <= i < |calls| && p(calls[i])
  }

  lemma MakesConcat(a: seq<Call>, b: seq<Call>, p: Call -> bool)
    ensures Makes(a + b, p) <==> Makes(a, p) || Makes(b, p)
  {
    if Makes(a + b, p) {
      var i :| 0 <= i < |a + b| && p((a + b)[i]);
      if i >= |a| {
        assert b[i - |a|] == (a + b)[i];
      }
    }
    if Makes(b, p) {
      var i :| 0 <= i < |b| && p(b[i]);
      assert (a + b)[|a| + i] == b[i];
    }
    if Makes(a, p) {
      var i :| 0 <= i < |a| && p(a[i]);
      assert (a + b)[i] == a[i];
    }
  }

  predicate IsAssistantWrite(c: Call) {
    c.CreateTextMessage? && c.role == Assistant
  }

  predicate IsProviderCall(c: Call) {
    c.CallProvider?
  }

  predicate IsTitleRequest(c: Call) {
    c.GenerateTitle?
  }

  predicate IsTitleUpdate(c: Call) {
    c.UpdateTitle?
  }

  predicate IsThreadCreation(c: Call) {
    c.CreateThread?
  }

  /** Whether both file conversions of the submit resolve. */
  predicate ConversionsResolve(input: Input, turns: seq<Turn>, codecs: Codecs) {
    UserMessage(input.text, input.files, codecs).Some? && MessagesFromTurns(turns, codecs).Some?
  }

  /** The provider's conversation once both conversions resolve. */
  function Conversation(input: Input, turns: seq<Turn>, codecs: Codecs): seq<ProviderMessage>
    requires ConversionsResolve(input, turns, codecs)
  {
    MessagesFromTurns(turns, codecs).value + [UserMessage(input.text, input.files, codecs).value]
  }

  /** The calls of a run that reaches the provider: the thread creation, the
      user and media writes, then the provider stage. */
  lemma RunReachingProvider(current: Option<Thread>, friendlyId: string, input: Input, turns: seq<Turn>,
                            codecs: Codecs, backend: Backend)
    requires ThreadUsed(current, backend).Some? && backend.createdUserText.Some?
    requires ConversionsResolve(input, turns, codecs)
    ensures var t := ThreadUsed(current, backend).value;
            var stage := ProviderStage(t, Conversation(input, turns, codecs), backend);
            RunSubmit(current, friendlyId, input, turns, codecs, backend) ==
              stage.(calls := ThreadCalls(current, friendlyId) +
                              UserTextCalls(t, input, backend.createdUserText.value.id) + stage.calls)
  {
  }

  /** The writes before the conversions are a thread creation (only without a
      stored thread), the user text and media creations: no assistant write, no
      title request or update, no provider call. */
  lemma {:induction false} WriteCallsKinds(current: Option<Thread>, friendlyId: string, t: Thread, input: Input, textId: string)
    ensures var w := ThreadCalls(current, friendlyId) + UserTextCalls(t, input, textId);
            && !Makes(w, IsAssistantWrite) && !Makes(w, IsProviderCall)
            && !Makes(w, IsTitleRequest) && !Makes(w, IsTitleUpdate)
            && (current.Some? ==> !Makes(w, IsThreadCreation))
  {
    var threadCalls := ThreadCalls(current, friendlyId);
    var media := MediaCalls(t.id, input.files, textId);
    var w := threadCalls + UserTextCalls(t, input, textId);
    assert w == threadCalls + [CreateTextMessage(t.id, User, input.text)] + media;
    forall i | 0 <= i < |w|
      ensures !IsAssistantWrite(w[i]) && !IsProviderCall(w[i]) && !IsTitleRequest(w[i]) && !IsTitleUpdate(w[i])
      ensures current.Some? ==> !IsThreadCreation(w[i])
    {
      if i > |threadCalls| {
        assert w[i] == media[i - |threadCalls| - 1];
      }
    }
  }

  /** The calls of the provider stage: the generation is requested iff wanted,
      the update iff also generated, the provider is always called, and the
      assistant message is written iff the provider answers. */
  lemma ProviderStageKinds(t: Thread, messages: seq<ProviderMessage>, backend: Backend)
    ensures var c := ProviderStage(t, messages, backend).calls;
            && (Makes(c, IsAssistantWrite) <==> backend.completion.Some?)
            && (Makes(c, IsTitleRequest) <==> WantsTitle(messages, t))
            && (Makes(c, IsTitleUpdate) <==> WantsTitle(messages, t) && backend.generatedTitle.Some?)
            && !Makes(c, IsThreadCreation)
            && Makes(c, IsProviderCall)
  {
    var c := ProviderStage(t, messages, backend).calls;
    var title := TitleCalls(messages, t, backend.generatedTitle);
    assert c[|title|] == CallProvider(messages);
    if backend.completion.Some? {
      assert IsAssistantWrite(c[|title| + 1]);
    }
    if WantsTitle(messages, t) {
      assert IsTitleRequest(c[0]);
      if backend.generatedTitle.Some? {
        assert IsTitleUpdate(c[1]);
      }
    }
    forall i | 0 <= i < |c|
      ensures !IsThreadCreation(c[i])
      ensures IsAssistantWrite(c[i]) ==> backend.completion.Some?
      ensures IsTitleRequest(c[i]) ==> WantsTitle(messages, t)
      ensures IsTitleUpdate(c[i]) ==> WantsTitle(messages, t) && backend.generatedTitle.Some?
    {
    }
  }

  /** Failure exit 1: no stored thread and creating one failed. The only call
      is that creation. */
  lemma ThreadFailureExit(friendlyId: string, input: Input, turns: seq<Turn>, codecs: Codecs, backend: Backend)
    requires backend.createdThread.None?
    ensures RunSubmit(None, friendlyId, input, turns, codecs, backend) ==
              SubmitRun([CreateThread(friendlyId, "")], Failure(ThreadNotFound), [])
  {
  }

  /** Failure exit 2: creating the user text message failed. Nothing is called
      after that write. */
  lemma TextFailureExit(current: Option<Thread>, friendlyId: string, input: Input, turns: seq<Turn>,
                        codecs: Codecs, backend: Backend)
    requires ThreadUsed(current, backend).Some? && backend.createdUserText.None?
    ensures var run := RunSubmit(current, friendlyId, input, turns, codecs, backend);
            && run.result == Failure(TextMessageFailed)
            && run.calls == ThreadCalls(current, friendlyId) +
                            [CreateTextMessage(ThreadUsed(current, backend).value.id, User, input.text)]
            && !Makes(run.calls, IsProviderCall) && !Makes(run.calls, IsAssistantWrite) && run.stream == []
  {
    var run := RunSubmit(current, friendlyId, input, turns, codecs, backend);
    forall i | 0 <= i < |run.calls| ensures !IsProviderCall(run.calls[i]) && !IsAssistantWrite(run.calls[i]) {
    }
  }

  /** Failure exit 3: the provider call failed. No assistant message is written. */
  lemma ProviderFailureExit(current: Option<Thread>, friendlyId: string, input: Input, turns: seq<Turn>,
                            codecs: Codecs, backend: Backend)
    requires ThreadUsed(current, backend).Some? && backend.createdUserText.Some?
    requires ConversionsResolve(input, turns, codecs) && backend.completion.None?
    ensures var run := RunSubmit(current, friendlyId, input, turns, codecs, backend);
            run.result == Failure(ProviderFailed) && Makes(run.calls, IsProviderCall) && !Makes(run.calls, IsAssistantWrite)
  {
    var t := ThreadUsed(current, backend).value;
    var w := ThreadCalls(current, friendlyId) + UserTextCalls(t, input, backend.createdUserText.value.id);
    var stage := ProviderStage(t, Conversation(input, turns, codecs), backend);
    RunReachingProvider(current, friendlyId, input, turns, codecs, backend);
    WriteCallsKinds(current, friendlyId, t, input, backend.createdUserText.value.id);
    ProviderStageKinds(t, Conversation(input, turns, codecs), backend);
    MakesConcat(w, stage.calls, IsProviderCall);
    MakesConcat(w, stage.calls, IsAssistantWrite);
  }

  /** A rejected file conversion stops after the writes: no title request, no
      provider call, no assistant write. */
  lemma ConversionAbortExit(current: Option<Thread>, friendlyId: string, input: Input, turns: seq<Turn>,
                            codecs: Codecs, backend: Backend)
    requires ThreadUsed(current, backend).Some? && backend.createdUserText.Some?
    requires !ConversionsResolve(input, turns, codecs)
    ensures var run := RunSubmit(current, friendlyId, input, turns, codecs, backend);
            && run.result == Aborted && run.stream == []
            && run.calls == ThreadCalls(current, friendlyId) +
                            UserTextCalls(ThreadUsed(current, backend).value, input, backend.createdUserText.value.id)
            && !Makes(run.calls, IsProviderCall) && !Makes(run.calls, IsAssistantWrite) && !Makes(run.calls, IsTitleRequest)
  {
    WriteCallsKinds(current, friendlyId, ThreadUsed(current, backend).value, input, backend.createdUserText.value.id);
  }

  /** The submit succeeds exactly when a thread is available, the user text is
      written, both conversions resolve and the provider answers; the media
      creations and the assistant write do not decide it. */
  lemma SuccessIff(current: Option<Thread>, friendlyId: string, input: Input, turns: seq<Turn>,
                   codecs: Codecs, backend: Backend)
    ensures RunSubmit(current, friendlyId, input, turns, codecs, backend).result == Success <==>
              && ThreadUsed(current, backend).Some?
              && backend.createdUserText.Some?
              && ConversionsResolve(input, turns, codecs)
              && backend.completion.Some?
  {
  }

  /** An assistant message is written if and only if the submit succeeds, and
      then as the last call, with the provider's text. */
  lemma AssistantWrittenIffSuccess(current: Option<Thread>, friendlyId: string, input: Input, turns: seq<Turn>,
                                   codecs: Codecs, backend: Backend)
    ensures var run := RunSubmit(current, friendlyId, input, turns, codecs, backend);
            Makes(run.calls, IsAssistantWrite) <==> run.result == Success
    ensures var run := RunSubmit(current, friendlyId, input, turns, codecs, backend);
            run.result == Success ==>
              run.calls[|run.calls| - 1] ==
                CreateTextMessage(ThreadUsed(current, backend).value.id, Assistant, backend.completion.value)
  {
    var thread := ThreadUsed(current, backend);
    if thread.Some? && backend.createdUserText.Some? {
      var t := thread.value;
      WriteCallsKinds(current, friendlyId, t, input, backend.createdUserText.value.id);
      if ConversionsResolve(input, turns, codecs) {
        var w := ThreadCalls(current, friendlyId) + UserTextCalls(t, input, backend.createdUserText.value.id);
        var stage := ProviderStage(t, Conversation(input, turns, codecs), backend);
        RunReachingProvider(current, friendlyId, input, turns, codecs, backend);
        ProviderStageKinds(t, Conversation(input, turns, codecs), backend);
        MakesConcat(w, stage.calls, IsAssistantWrite);
      }
    } else {
      var run := RunSubmit(current, friendlyId, input, turns, codecs, backend);
      forall i | 0 <= i < |run.calls| ensures !IsAssistantWrite(run.calls[i]) {
      }
    }
  }

  /** A stored thread is reused: no thread is created, and the first call
      writes the user text to that thread. */
  lemma ExistingThreadReused(thread: Thread, friendlyId: string, input: Input, turns: seq<Turn>,
                             codecs: Codecs, backend: Backend)
    ensures var run := RunSubmit(Some(thread), friendlyId, input, turns, codecs, backend);
            run.calls[0] == CreateTextMessage(thread.id, User, input.text)
    ensures !Makes(RunSubmit(Some(thread), friendlyId, input, turns, codecs, backend).calls, IsThreadCreation)
  {
    if backend.createdUserText.Some? {
      var w := ThreadCalls(Some(thread), friendlyId) + UserTextCalls(thread, input, backend.createdUserText.value.id);
      WriteCallsKinds(Some(thread), friendlyId, thread, input, backend.createdUserText.value.id);
      if ConversionsResolve(input, turns, codecs) {
        var stage := ProviderStage(thread, Conversation(input, turns, codecs), backend);
        RunReachingProvider(Some(thread), friendlyId, input, turns, codecs, backend);
        ProviderStageKinds(thread, Conversation(input, turns, codecs), backend);
        MakesConcat(w, stage.calls, IsThreadCreation);
      }
    } else {
      var run := RunSubmit(Some(thread), friendlyId, input, turns, codecs, backend);
      forall i | 0 <= i < |run.calls| ensures !IsThreadCreation(run.calls[i]) {
      }
    }
  }

  /** The provider sees the existing turns' messages in view order followed by
      the new user message: one more message than turns. */
  lemma ProviderHistory(current: Option<Thread>, friendlyId: string, input: Input, turns: seq<Turn>,
                        codecs: Codecs, backend: Backend)
    requires ThreadUsed(current, backend).Some? && backend.createdUserText.Some?
    requires ConversionsResolve(input, turns, codecs)
    ensures var run := RunSubmit(current, friendlyId, input, turns, codecs, backend);
            var i := if backend.completion.Some? then |run.calls| - 2 else |run.calls| - 1;
            && 0 <= i < |run.calls|
            && run.calls[i].CallProvider?
            && |run.calls[i].messages| == |turns| + 1
            && run.calls[i].messages[|turns|] == UserMessage(input.text, input.files, codecs).value
            && forall k :: 0 <= k < |turns| ==> MessageFromTurn(turns[k], codecs) == Some(run.calls[i].messages[k])
  {
    RunReachingProvider(current, friendlyId, input, turns, codecs, backend);
  }

  /** A title is requested if and only if the provider stage is reached with
      at least two earlier turns and an empty title; the update follows only a
      successful generation. */
  lemma TitleGating(current: Option<Thread>, friendlyId: string, input: Input, turns: seq<Turn>,
                    codecs: Codecs, backend: Backend)
    requires ThreadUsed(current, backend).Some? && backend.createdUserText.Some?
    requires ConversionsResolve(input, turns, codecs)
    ensures var run := RunSubmit(current, friendlyId, input, turns, codecs, backend);
            Makes(run.calls, IsTitleRequest) <==> |turns| >= 2 && ThreadUsed(current, backend).value.title == ""
    ensures var run := RunSubmit(current, friendlyId, input, turns, codecs, backend);
            Makes(run.calls, IsTitleUpdate) <==>
              |turns| >= 2 && ThreadUsed(current, backend).value.title == "" && backend.generatedTitle.Some?
  {
    var t := ThreadUsed(current, backend).value;
    var w := ThreadCalls(current, friendlyId) + UserTextCalls(t, input, backend.createdUserText.value.id);
    var stage := ProviderStage(t, Conversation(input, turns, codecs), backend);
    RunReachingProvider(current, friendlyId, input, turns, codecs, backend);
    WriteCallsKinds(current, friendlyId, t, input, backend.createdUserText.value.id);
    ProviderStageKinds(t, Conversation(input, turns, codecs), backend);
    MakesConcat(w, stage.calls, IsTitleRequest);
    MakesConcat(w, stage.calls, IsTitleUpdate);
  }

  // ---------------------------------------------------------------------------
  // The stream callbacks and the screen state

  /** The modes `onStreamStatusChange` sets, in order. */
  function StreamModes(stream: seq<StreamEvent>): (r: seq<Mode>)
    ensures |r| <= |stream|
    decreases |stream|
  {
    if |stream| == 0 then []
    else
      var last := stream[|stream| - 1];
      StreamModes(stream[..|stream| - 1]) + (if last.StatusChanged? then [ModeForStatus(last.status)] else [])
  }

  /** The text `onStreamChange` leaves, starting from `text`. */
  function LastText(stream: seq<StreamEvent>, text: string): string
    decreases |stream|
  {
    if |stream| == 0 then text
    else
      var last := stream[|stream| - 1];
      if last.TextChanged? then last.text else LastText(stream[..|stream| - 1], text)
  }

  /** A finished stream sets the mode back to ready; other statuses pass through. */
  lemma StreamModesStatuses(stream: seq<StreamEvent>)
    ensures forall i :: 0 <= i < |stream| && stream[i] == StatusChanged(Finished) ==> Ready in StreamModes(stream)
  {
    forall i | 0 <= i < |stream| && stream[i] == StatusChanged(Finished) ensures Ready in StreamModes(stream) {
      StreamModesContain(stream, i);
    }
  }

  lemma {:induction false} StreamModesContain(stream: seq<StreamEvent>, i: int)
    requires 0 <= i < |stream| && stream[i].StatusChanged?
    ensures ModeForStatus(stream[i].status) in StreamModes(stream)
    decreases |stream|
  {
    if i < |stream| - 1 {
      StreamModesContain(stream[..|stream| - 1], i);
    }
  }

  /** The screen's state: `mode`, `streamedText`, and (for the proofs) every
      mode set and every backend call made, in order. */
  class ChatSession {
    var mode: Mode
    var streamedText: string
    var modeTrace: seq<Mode>
    var calls: seq<Call>

    constructor ()
      ensures mode == Ready && streamedText == "" && modeTrace == [] && calls == []
    {
      mode := Ready;
      streamedText := "";
      modeTrace := [];
      calls := [];
    }

    /** `setMode` */
    method SetMode(m: Mode)
      modifies this
      ensures mode == m && modeTrace == old(modeTrace) + [m]
      ensures streamedText == old(streamedText) && calls == old(calls)
    {
      mode := m;
      modeTrace := modeTrace + [m];
    }

    /** A backend or provider call. */
    method Issue(c: Call)
      modifies this
      ensures calls == old(calls) + [c]
      ensures mode == old(mode) && modeTrace == old(modeTrace) && streamedText == old(streamedText)
    {
      calls := calls + [c];
    }

    /** The callbacks of `callAnthropic`, one event at a time. */
    method ReceiveStream(stream: seq<StreamEvent>)
      modifies this
      ensures modeTrace == old(modeTrace) + StreamModes(stream)
      ensures |StreamModes(stream)| > 0 ==> mode == modeTrace[|modeTrace| - 1]
      ensures |StreamModes(stream)| == 0 ==> mode == old(mode)
      ensures streamedText == LastText(stream, old(streamedText))
      ensures calls == old(calls)
    {
      for i := 0 to |stream|
        invariant modeTrace == old(modeTrace) + StreamModes(stream[..i])
        invariant |StreamModes(stream[..i])| > 0 ==> mode == modeTrace[|modeTrace| - 1]
        invariant |StreamModes(stream[..i])| == 0 ==> mode == old(mode)
        invariant streamedText == LastText(stream[..i], old(streamedText))
        invariant calls == old(calls)
      {
        assert stream[..i + 1][..i] == stream[..i];
        match stream[i]
        case StatusChanged(s) =>
          SetMode(ModeForStatus(s));
        case TextChanged(t) =>
          streamedText := t;
      }
      assert stream[..|stream|] == stream;
    }

    /** Creates the media records of the attached files, one after another. */
    method CreateMediaMessages(threadId: string, files: seq<File>, aiTextMessageId: string)
      modifies this
      ensures calls == old(calls) + MediaCalls(threadId, files, aiTextMessageId)
      ensures mode == old(mode) && modeTrace == old(modeTrace) && streamedText == old(streamedText)
    {
      for i := 0 to |files|
        invariant calls == old(calls) + MediaCalls(threadId, files[..i], aiTextMessageId)
        invariant mode == old(mode) && modeTrace == old(modeTrace) && streamedText == old(streamedText)
      {
        assert files[..i + 1] == files[..i] + [files[i]];
        MapConcat(MediaCallWith(threadId, aiTextMessageId), files[..i], [files[i]]);
        Issue(CreateMediaMessage(threadId, files[i], aiTextMessageId));
      }
      assert files[..|files|] == files;
    }

    /** The title requests, the streamed provider call and the assistant write. */
    method AskProvider(t: Thread, messages: seq<ProviderMessage>, backend: Backend) returns (resp: SubmitResult)
      modifies this
      ensures var run := ProviderStage(t, messages, backend);
              && resp == run.result
              && calls == old(calls) + run.calls
              && modeTrace == old(modeTrace) + StreamModes(run.stream)
              && (|StreamModes(run.stream)| > 0 ==> mode == modeTrace[|modeTrace| - 1])
              && (|StreamModes(run.stream)| == 0 ==> mode == old(mode))
              && streamedText == LastText(run.stream, old(streamedText))
    {
      if |messages| > 2 && t.title == "" {
        Issue(GenerateTitle(messages));
        if backend.generatedTitle.Some? {
          Issue(UpdateTitle(t.id, backend.generatedTitle.value));
        }
      }
      assert calls == old(calls) + TitleCalls(messages, t, backend.generatedTitle);
      Issue(CallProvider(messages));
      ReceiveStream(backend.stream);
      if backend.completion.None? {
        return Failure(ProviderFailed);
      }
      Issue(CreateTextMessage(t.id, Assistant, backend.completion.value));
      return Success;
    }

    /** From the conversions on: either rejects, or the provider stage. */
    method Converse(t: Thread, input: Input, turns: seq<Turn>, codecs: Codecs, backend: Backend)
      returns (resp: SubmitResult)
      modifies this
      ensures var run := ConversionStage(t, UserMessage(input.text, input.files, codecs),
                                         MessagesFromTurns(turns, codecs), backend);
              && resp == run.result
              && calls == old(calls) + run.calls
              && modeTrace == old(modeTrace) + StreamModes(run.stream)
              && (|StreamModes(run.stream)| > 0 ==> mode == modeTrace[|modeTrace| - 1])
              && (|StreamModes(run.stream)| == 0 ==> mode == old(mode))
              && streamedText == LastText(run.stream, old(streamedText))
    {
      var newUser := UserMessage(input.text, input.files, codecs);
      if newUser.None? {
        return Aborted;
      }
      var history := MessagesFromTurns(turns, codecs);
      if history.None? {
        return Aborted;
      }
      resp := AskProvider(t, history.value + [newUser.value], backend);
    }

    /** The user text write, the media writes, then the rest. */
    method WriteUserText(t: Thread, input: Input, turns: seq<Turn>, codecs: Codecs, backend: Backend)
      returns (resp: SubmitResult)
      modifies this
      ensures var run := TextStage(t, input, UserMessage(input.text, input.files, codecs),
                                   MessagesFromTurns(turns, codecs), backend);
              && resp == run.result
              && calls == old(calls) + run.calls
              && modeTrace == old(modeTrace) + StreamModes(run.stream)
              && (|StreamModes(run.stream)| > 0 ==> mode == modeTrace[|modeTrace| - 1])
              && (|StreamModes(run.stream)| == 0 ==> mode == old(mode))
              && streamedText == LastText(run.stream, old(streamedText))
    {
      Issue(CreateTextMessage(t.id, User, input.text));
      if backend.createdUserText.None? {
        return Failure(TextMessageFailed);
      }
      CreateMediaMessages(t.id, input.files, backend.createdUserText.value.id);
      assert calls == old(calls) + UserTextCalls(t, input, backend.createdUserText.value.id);
      ghost var stage := ConversionStage(t, UserMessage(input.text, input.files, codecs),
                                         MessagesFromTurns(turns, codecs), backend);
      resp := Converse(t, input, turns, codecs, backend);
      ConcatAssoc(old(calls), UserTextCalls(t, input, backend.createdUserText.value.id), stage.calls);
    }

    /** The handler's inner function: each step awaited in turn, returning at
        the first failure. */
    method Respond(current: Option<Thread>, friendlyId: string, input: Input, turns: seq<Turn>,
                   codecs: Codecs, backend: Backend)
      returns (resp: SubmitResult)
      modifies this
      ensures var run := RunSubmit(current, friendlyId, input, turns, codecs, backend);
              && resp == run.result
              && calls == old(calls) + run.calls
              && modeTrace == old(modeTrace) + StreamModes(run.stream)
              && (|StreamModes(run.stream)| > 0 ==> mode == modeTrace[|modeTrace| - 1])
              && (|StreamModes(run.stream)| == 0 ==> mode == old(mode))
              && streamedText == LastText(run.stream, old(streamedText))
    {
      var thread: Option<Thread>;
      if current.Some? {
        thread := current;
      } else {
        Issue(CreateThread(friendlyId, ""));
        thread := backend.createdThread;
      }
      assert calls == old(calls) + ThreadCalls(current, friendlyId);
      if thread.None? {
        return Failure(ThreadNotFound);
      }
      ghost var stage := TextStage(thread.value, input, UserMessage(input.text, input.files, codecs),
                                   MessagesFromTurns(turns, codecs), backend);
      ghost var run := RunSubmit(current, friendlyId, input, turns, codecs, backend);
      assert run == Prepend(ThreadCalls(current, friendlyId), stage);
      ghost var beforeText := calls;
      resp := WriteUserText(thread.value, input, turns, codecs, backend);
      ConcatAssoc(old(calls), ThreadCalls(current, friendlyId), stage.calls);
      assert run.stream == stage.stream && run.result == stage.result;
    }

    /** `onSubmit`: thinking first; then ready on success and error on failure.
        A rejected conversion leaves the mode at thinking. */
    method Submit(current: Option<Thread>, friendlyId: string, input: Input, turns: seq<Turn>,
                  codecs: Codecs, backend: Backend)
      returns (resp: SubmitResult)
      modifies this
      ensures var run := RunSubmit(current, friendlyId, input, turns, codecs, backend);
              && resp == run.result
              && calls == old(calls) + run.calls
              && modeTrace == old(modeTrace) + [Thinking] + StreamModes(run.stream) +
                   (if resp == Aborted then [] else [if resp == Success then Ready else Error])
              && streamedText == LastText(run.stream, old(streamedText))
      ensures resp == Success ==> mode == Ready
      ensures resp.Failure? ==> mode == Error
      ensures resp == Aborted ==> mode == Thinking
    {
      SetMode(Thinking);
      resp := Respond(current, friendlyId, input, turns, codecs, backend);
      if resp != Aborted {
        SetMode(if resp == Success then Ready else Error);
      } else {
        assert RunSubmit(current, friendlyId, input, turns, codecs, backend).stream == [];
      }
    }
  }
}
