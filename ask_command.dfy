/**
 * The `/a` command of sansekai.js: the chat model answers the message, with
 * the recent conversation and the pictures it mentions as context.  Each
 * attempt draws a key, stores the attached picture, saves the user turn
 * (first attempt only), builds the request and calls the model; a failed
 * attempt is retried while the retry rule allows.
 *
 * The model call, the picture download, the re-encoding, `Date.now()` and
 * the timestamps are what the outside world does; `oracle(i)` says what it
 * does during attempt `i`.
 */
module AskCommand {
  import opened Wrappers
  import opened Text
  import opened Attachments
  import opened ChatContext
  import opened Commands
  import ApiKeys
  import History

  const AnalyzingText := "Analyzing image..."
  const ThinkingText := "Thinking..."
  const DescribePrompt := "Describe what you see in this image."
  const AskFailText := "AI error, Hubungi Admin +6285172196650"

  /**
   * What the outside world does during one attempt: the downloaded bytes
   * (none when the download throws), what sharp makes of the picture, the
   * picture id, the two timestamps, and the model's answer
   * (none when the call throws).
   */
  datatype AskEnv = AskEnv(download: Option<Bytes>, reencoded: Reencoding, imageId: nat,
                           savedAt: string, answer: Option<string>, answeredAt: string)

  /**
   * What the attempts of a run change: the key pool, the history files, the
   * picture folders, and the turns saved so far (oldest first).
   */
  datatype AskWorld = AskWorld(pool: ApiKeys.Pool, fs: History.FileSystem, folders: Folders,
                               saved: seq<History.Turn>)

  /** A state whose pool is one `ApiKeyPool` can hold: every cursor points into its list. */
  type AskState = s: AskWorld | ApiKeys.Consistent(s.pool)
    witness AskWorld(ApiKeys.Pool(map[], map[]), map[], map[], [])

  function StatusText(m: Incoming): string {
    if m.imageMime.Some? then AnalyzingText else ThinkingText
  }

  /** Whether an attempt gets past the key check, the content check and the download. */
  predicate Proceeds(m: Incoming, keyUsable: bool, env: AskEnv) {
    && keyUsable
    && !(m.q == "" && m.imageMime.None?)
    && !(m.imageMime.Some? && env.download.None?)
  }

  /** The user turn an attempt saves: the attachment tag of this attempt's picture, then `q`. */
  function UserTurn(m: Incoming, env: AskEnv): History.Turn {
    History.Turn(env.savedAt, "user", UserRecord(if m.imageMime.Some? then Some(env.imageId) else None, m.q),
                 m.sender)
  }

  function AnswerTurn(m: Incoming, env: AskEnv): History.Turn
    requires env.answer.Some?
  {
    History.Turn(env.answeredAt, "assistant", env.answer.value, m.sender)
  }

  /** The picture of the message once downloaded and re-encoded. */
  function CurrentImage(m: Incoming, env: AskEnv): Option<ImageData>
    requires m.imageMime.Some? ==> env.download.Some?
  {
    if m.imageMime.Some? then Some(Compress(env.download.value, m.imageMime.value, env.reencoded)) else None
  }

  /** The folders after `saveImageToFile` stores the picture, if there is one. */
  function StoreImage(folders: Folders, m: Incoming, env: AskEnv): Folders
    requires m.imageMime.Some? ==> env.download.Some?
  {
    match CurrentImage(m, env)
    case None => folders
    case Some(image) => SaveChatImage(folders, m.sender, env.imageId, image.data, image.mimeType)
  }

  /** The parts of one attempt's message: its picture, its text (or the description prompt), and the context. */
  function AskParts(folders: Folders, recent: seq<History.Turn>, m: Incoming, env: AskEnv): seq<Part>
    requires m.imageMime.Some? ==> env.download.Some?
  {
    var image := CurrentImage(m, env);
    var text := if m.q == "" && image.Some? then DescribePrompt else m.q;
    RequestParts(folders, recent, UserTurn(m, env).content, image, text)
  }

  /** The request of one attempt: the kept turns, then the merged parts of the message. */
  function AskRequest(folders: Folders, recent: seq<History.Turn>, m: Incoming, env: AskEnv): Event
    requires m.imageMime.Some? ==> env.download.Some?
  {
    ChatRequest(ChatContents(recent, UserTurn(m, env).content, AskParts(folders, recent, m, env)))
  }

  /** Whether an attempt that draws from `s`'s pool gets past the key, the content check and the download. */
  predicate ProceedsFrom(m: Incoming, s: AskState, env: AskEnv) {
    Proceeds(m, DrawsUsableKey(s.pool), env)
  }

  /** How an attempt ends: it succeeds exactly when it proceeds and the model answers. */
  function AttemptVerdict(m: Incoming, s: AskState, env: AskEnv): Verdict {
    if ProceedsFrom(m, s, env) && env.answer.Some? then Success else Failure
  }

  /** The turns an attempt that proceeds saves: the user turn unless retrying, then the answer if any. */
  function AttemptTurns(m: Incoming, retrying: bool, env: AskEnv): seq<History.Turn> {
    var user := if retrying then [] else [UserTurn(m, env)];
    if env.answer.Some? then user + [AnswerTurn(m, env)] else user
  }

  /**
   * The state an attempt leaves: the key drawn; and when it proceeds, the
   * picture stored and its turns saved.
   */
  function AttemptState(m: Incoming, retrying: bool, s: AskState, env: AskEnv): AskState {
    var drawn := ApiKeys.Draw(s.pool, GeminiService);
    if !ProceedsFrom(m, s, env) then s.(pool := drawn.1)
    else
      var saved := AttemptTurns(m, retrying, env);
      AskWorld(drawn.1, SaveAll(s.fs, m.chatId, History.DefaultTrack, saved), StoreImage(s.folders, m, env),
               s.saved + saved)
  }

  /** What an attempt that proceeds sends: the request, then on an answer the status deletion and the reply. */
  function AttemptEvents(m: Incoming, recent: seq<History.Turn>, s: AskState, env: AskEnv): seq<Event> {
    if !ProceedsFrom(m, s, env) then []
    else
      [AskRequest(StoreImage(s.folders, m, env), recent, m, env)]
      + (if env.answer.Some? then [StatusDeleted, Replied(env.answer.value)] else [])
  }

  /**
   * One attempt: `prepareRequest` (key, content check, picture, user turn
   * unless retrying, parts) followed by the model call and, on an answer,
   * the assistant turn and the reply.  An attempt draws a key but leaves
   * the pool's lists as they were.
   */
  function AskAttempt(m: Incoming, recent: seq<History.Turn>, retrying: bool, s: AskState, env: AskEnv)
    : (t: Tried<AskState>)
    ensures t.verdict != Halt
    ensures t.state.pool.keys == s.pool.keys
  {
    Tried(AttemptVerdict(m, s, env), AttemptState(m, retrying, s, env), AttemptEvents(m, recent, s, env))
  }

  /**
   * What an attempt saves: the user turn exactly when it is the first
   * attempt and gets past the checks, then the answer exactly when it
   * succeeds, which takes a model answer; the history files receive
   * exactly those turns.
   */
  lemma AttemptSaves(m: Incoming, retrying: bool, s: AskState, env: AskEnv)
    ensures var v := AttemptVerdict(m, s, env);
      var s' := AttemptState(m, retrying, s, env);
      var user := if !retrying && Proceeds(m, DrawsUsableKey(s.pool), env) then [UserTurn(m, env)] else [];
      var added := user + (if v == Success then [AnswerTurn(m, env)] else []);
      && (v == Success ==> Proceeds(m, DrawsUsableKey(s.pool), env) && env.answer.Some?)
      && s'.saved == s.saved + added
      && s'.fs == SaveAll(s.fs, m.chatId, History.DefaultTrack, added)
  {
    if !ProceedsFrom(m, s, env) {
      assert s.saved + [] == s.saved;
      assert SaveAll(s.fs, m.chatId, History.DefaultTrack, []) == s.fs;
    } else if env.answer.None? {
      var user := if retrying then [] else [UserTurn(m, env)];
      assert user + [] == user;
    }
  }

  /** A successful attempt sends one final message, the answer, last; a failed one sends none. */
  lemma AttemptReplies(m: Incoming, recent: seq<History.Turn>, retrying: bool, s: AskState, env: AskEnv)
    ensures var t := AskAttempt(m, recent, retrying, s, env);
      && Finals(t.events) == (if t.verdict == Failure then 0 else 1)
      && (t.verdict != Failure ==> env.answer.Some? && t.events != []
                                    && LastEvent(t.events) == Replied(env.answer.value))
  {
    var t := AskAttempt(m, recent, retrying, s, env);
    assert t.events == AttemptEvents(m, recent, s, env) && t.verdict == AttemptVerdict(m, s, env);
    EventsReply(m, recent, s, env);
  }

  /** AttemptReplies, stated on the events and the verdict alone. */
  lemma EventsReply(m: Incoming, recent: seq<History.Turn>, s: AskState, env: AskEnv)
    ensures var events := AttemptEvents(m, recent, s, env);
      var v := AttemptVerdict(m, s, env);
      && Finals(events) == (if v == Failure then 0 else 1)
      && (v != Failure ==> env.answer.Some? && events != [] && LastEvent(events) == Replied(env.answer.value))
  {
    if ProceedsFrom(m, s, env) {
      var request := AskRequest(StoreImage(s.folders, m, env), recent, m, env);
      assert [request][..0] == [];
      assert Finals([request]) == 0;
      if env.answer.Some? {
        var tail := GiveUpEvents(env.answer.value);
        assert AttemptEvents(m, recent, s, env) == [request] + tail;
        FinalsAppend([request], tail);
      } else {
        assert AttemptEvents(m, recent, s, env) == [request] + [];
      }
    }
  }

  /** The attempts of one run: attempt `i` retries unless it is the first, and sees `oracle(i)`. */
  function AskAttempts(m: Incoming, recent: seq<History.Turn>, oracle: nat -> AskEnv)
    : (AskState, nat) -> Tried<AskState>
  {
    (s: AskState, i: nat) => AttemptAt(m, recent, oracle, s, i)
  }

  /** Attempt `i` of a run. */
  function AttemptAt(m: Incoming, recent: seq<History.Turn>, oracle: nat -> AskEnv, s: AskState, i: nat)
    : Tried<AskState>
  {
    AskAttempt(m, recent, i > 0, s, oracle(i))
  }

  /** `getKeyCount('keygemini')`. */
  function AskKeys(s: AskState): nat {
    ApiKeys.KeyCount(s.pool, GeminiService)
  }

  /** The recent turns the command works with: the last thirty of the default track. */
  function Recent(fs: History.FileSystem, m: Incoming): seq<History.Turn> {
    SliceFrom(History.ReadStep(fs, m.chatId, History.DefaultTrack).history, -RecentTurns)
  }

  /** The whole command: status message, history read, then `executeWithRetry`. */
  function AskRun(m: Incoming, pool: ApiKeys.Pool, fs: History.FileSystem, folders: Folders,
                  oracle: nat -> AskEnv): Run<AskState>
    requires ApiKeys.Consistent(pool)
  {
    var read := History.ReadStep(fs, m.chatId, History.DefaultTrack);
    RetryLoop<AskState>(AskAttempts(m, Recent(fs, m), oracle), AskKeys, AskFailText,
              AskWorld(pool, read.fs, folders, []), [StatusSent(StatusText(m))], 0)
  }

  /** The oracle's answer for the attempt that ended a run. */
  function LastEnv(oracle: nat -> AskEnv, r: Run<AskState>): AskEnv {
    oracle(if r.attempts == 0 then 0 else r.attempts - 1)
  }

  /**
   * What a delivered attempt of `/a` has behind it: it found a key, got past
   * the checks and received an answer.
   */
  function AskGood(m: Incoming, oracle: nat -> AskEnv): (Verdict, nat, nat) -> bool {
    (v: Verdict, k: nat, i: nat) => DeliveredAt(m, oracle, v, k, i)
  }

  predicate DeliveredAt(m: Incoming, oracle: nat -> AskEnv, v: Verdict, k: nat, i: nat) {
    v == Success && Proceeds(m, k > 0, oracle(i)) && oracle(i).answer.Some?
  }

  /** The attempts of `/a` leave the key count alone and succeed only as `AskGood` says. */
  lemma AskAttemptsEndWell(m: Incoming, recent: seq<History.Turn>, oracle: nat -> AskEnv)
    ensures KeepsKeys(AskAttempts(m, recent, oracle), AskKeys)
    ensures EndsWell(AskAttempts(m, recent, oracle), AskKeys, AskGood(m, oracle))
  {
    forall s: AskState, i: nat
      ensures AskKeys(AttemptAt(m, recent, oracle, s, i).state) == AskKeys(s)
      ensures AttemptAt(m, recent, oracle, s, i).verdict != Failure ==>
                AskGood(m, oracle)(AttemptAt(m, recent, oracle, s, i).verdict, AskKeys(s), i)
    {
      AttemptSaves(m, i > 0, s, oracle(i));
    }
  }

  /**
   * The attempts of `/a`: with k keys there are at most `min(10, k)` of them
   * (one without keys), exactly that many when the command gives up; it
   * never ends otherwise than delivered or given up, and a delivered run
   * ends on an attempt that found a key, passed the checks and got an answer.
   */
  lemma AskRunAttempts(m: Incoming, pool: ApiKeys.Pool, fs: History.FileSystem, folders: Folders,
                       oracle: nat -> AskEnv)
    requires ApiKeys.Consistent(pool)
    ensures var r := AskRun(m, pool, fs, folders, oracle);
      var k := ApiKeys.KeyCount(pool, GeminiService);
      && 1 <= r.attempts <= AttemptBound(k)
      && (r.outcome == Delivered || r.outcome == GaveUp)
      && (r.outcome == GaveUp ==> r.attempts == AttemptBound(k))
      && (r.outcome == Delivered ==> Proceeds(m, k > 0, LastEnv(oracle, r)) && LastEnv(oracle, r).answer.Some?)
  {
    var read := History.ReadStep(fs, m.chatId, History.DefaultTrack);
    var recent := Recent(fs, m);
    AskAttemptsEndWell(m, recent, oracle);
    RunAttemptsOf(m, oracle, AskAttempts(m, recent, oracle), AskWorld(pool, read.fs, folders, []),
                  [StatusSent(StatusText(m))]);
  }

  /**
   * A key file whose only Gemini key is the empty string: `getKey` returns
   * that key, `!geminiApiKey` rejects it, and `/a` gives up after its one
   * attempt, having saved nothing.
   */
  lemma EmptyKeyGivesUp(m: Incoming, fs: History.FileSystem, folders: Folders, oracle: nat -> AskEnv)
    ensures var pool := ApiKeys.Pool(map[GeminiService := [""]], map[GeminiService := 0]);
      var r := AskRun(m, pool, fs, folders, oracle);
      && ApiKeys.Draw(pool, GeminiService).0 == Some("")
      && r.outcome == GaveUp && r.attempts == 1 && r.state.saved == []
  {
    var pool := ApiKeys.Pool(map[GeminiService := [""]], map[GeminiService := 0]);
    assert !DrawsUsableKey(pool);
    var s0: AskState := AskWorld(pool, History.ReadStep(fs, m.chatId, History.DefaultTrack).fs, folders, []);
    var recent := Recent(fs, m);
    var t := AttemptAt(m, recent, oracle, s0, 0);
    AttemptStops(m, recent, false, s0, oracle(0));
    assert AskKeys(t.state) == 1;
    RetryNext<AskState>(AskAttempts(m, recent, oracle), AskKeys, AskFailText, s0, [StatusSent(StatusText(m))], 0, t);
  }

  /** `AskRunAttempts` for any attempts that behave as `AskAttemptsEndWell` says. */
  lemma RunAttemptsOf(m: Incoming, oracle: nat -> AskEnv, attempt: (AskState, nat) -> Tried<AskState>,
                      s0: AskState, events: seq<Event>)
    requires KeepsKeys(attempt, AskKeys) && EndsWell(attempt, AskKeys, AskGood(m, oracle))
    ensures var r := RetryLoop<AskState>(attempt, AskKeys, AskFailText, s0, events, 0);
      var k := AskKeys(s0);
      && 1 <= r.attempts <= AttemptBound(k)
      && (r.outcome == Delivered || r.outcome == GaveUp)
      && (r.outcome == GaveUp ==> r.attempts == AttemptBound(k))
      && (r.outcome == Delivered ==> Proceeds(m, k > 0, LastEnv(oracle, r)) && LastEnv(oracle, r).answer.Some?)
  {
    RetryAttempts<AskState>(attempt, AskKeys, AskFailText, s0, events, 0, AskGood(m, oracle));
    var r := RetryLoop<AskState>(attempt, AskKeys, AskFailText, s0, events, 0);
    assert r.outcome != GaveUp ==> DeliveredAt(m, oracle, Ended(r.outcome), AskKeys(s0), r.attempts - 1);
    assert LastEnv(oracle, r) == oracle(r.attempts - 1);
  }

  /** Before attempt i of a run that started from pool `p0`, i keys have been drawn. */
  function DrawsInv(p0: ApiKeys.Pool): (AskState, nat) -> bool {
    (s: AskState, i: nat) => ApiKeys.Consistent(p0) && s.pool == ApiKeys.DrawnPool(p0, GeminiService, i)
  }

  /** Attempt i does not fail only with a usable key from call i. */
  function DrawsDone(p0: ApiKeys.Pool): (AskState, Verdict, nat) -> bool {
    (s: AskState, v: Verdict, i: nat) => v != Failure ==> UsableAt(p0, i)
  }

  /** Every attempt of `/a` draws one key, and one that does not fail drew a usable key. */
  lemma AskAttemptsDraw(m: Incoming, recent: seq<History.Turn>, oracle: nat -> AskEnv, p0: ApiKeys.Pool)
    ensures FailureKeeps(AskAttempts(m, recent, oracle), DrawsInv(p0))
    ensures Leaves(AskAttempts(m, recent, oracle), DrawsInv(p0), DrawsDone(p0))
  {
    forall s: AskState, i: nat | ApiKeys.Consistent(p0) && s.pool == ApiKeys.DrawnPool(p0, GeminiService, i)
      ensures AttemptAt(m, recent, oracle, s, i).state.pool == ApiKeys.DrawnPool(p0, GeminiService, i + 1)
      ensures AttemptAt(m, recent, oracle, s, i).verdict != Failure ==> UsableAt(p0, i)
    {
      ApiKeys.DrawAfter(p0, GeminiService, i);
    }
  }

  /**
   * The key behind a delivered `/a` run: attempt i uses the key of `getKey`
   * call i, so the last attempt of a delivered run drew a key that is
   * neither missing nor empty.
   */
  lemma AskDeliveredKey(m: Incoming, pool: ApiKeys.Pool, fs: History.FileSystem, folders: Folders,
                        oracle: nat -> AskEnv)
    requires ApiKeys.Consistent(pool)
    ensures var r := AskRun(m, pool, fs, folders, oracle);
      r.attempts >= 1 && (r.outcome == Delivered ==> UsableAt(pool, r.attempts - 1))
  {
    var read := History.ReadStep(fs, m.chatId, History.DefaultTrack);
    var recent := Recent(fs, m);
    var attempt := AskAttempts(m, recent, oracle);
    var s0: AskState := AskWorld(pool, read.fs, folders, []);
    var events := [StatusSent(StatusText(m))];
    assert AskRun(m, pool, fs, folders, oracle) == RetryLoop<AskState>(attempt, AskKeys, AskFailText, s0, events, 0);
    AskAttemptsDraw(m, recent, oracle, pool);
    DeliveredKeyOf(pool, attempt, s0, events);
  }

  /** `AskDeliveredKey` for any attempts that behave as `AskAttemptsDraw` says. */
  lemma DeliveredKeyOf(p0: ApiKeys.Pool, attempt: (AskState, nat) -> Tried<AskState>, s0: AskState,
                       events: seq<Event>)
    requires s0.pool == p0
    requires FailureKeeps(attempt, DrawsInv(p0)) && Leaves(attempt, DrawsInv(p0), DrawsDone(p0))
    ensures var r := RetryLoop<AskState>(attempt, AskKeys, AskFailText, s0, events, 0);
      r.attempts >= 1 && (r.outcome == Delivered ==> UsableAt(p0, r.attempts - 1))
  {
    assert DrawsInv(p0)(s0, 0);
    RetryKeeps<AskState>(attempt, AskKeys, AskFailText, s0, events, 0, DrawsInv(p0), DrawsDone(p0));
    var r := RetryLoop<AskState>(attempt, AskKeys, AskFailText, s0, events, 0);
    assert DrawsDone(p0)(r.state, Ended(r.outcome), r.attempts - 1);
  }

  /**
   * The user turn a run saves: by its first attempt, when that attempt gets
   * past the checks (`first` says whether its key is usable).
   */
  function FirstUserTurn(m: Incoming, first: bool, oracle: nat -> AskEnv): seq<History.Turn> {
    if Proceeds(m, first, oracle(0)) then [UserTurn(m, oracle(0))] else []
  }

  /** The answer a run saves: only when it is delivered. */
  function DeliveredAnswer(m: Incoming, oracle: nat -> AskEnv, r: Run<AskState>): seq<History.Turn> {
    if r.outcome == Delivered && LastEnv(oracle, r).answer.Some? then [AnswerTurn(m, LastEnv(oracle, r))] else []
  }

  /** What a run has saved before attempt `i`: the first attempt's user turn, if it got that far. */
  predicate SavedBefore(m: Incoming, first: bool, oracle: nat -> AskEnv, fs0: History.FileSystem, s: AskState, i: nat) {
    && (i == 0 ==> DrawsUsableKey(s.pool) == first)
    && s.saved == (if i == 0 then [] else FirstUserTurn(m, first, oracle))
    && s.fs == SaveAll(fs0, m.chatId, History.DefaultTrack, s.saved)
  }

  /** What a run has saved once attempt `i` ended it with verdict `v`. */
  predicate SavedAfter(m: Incoming, first: bool, oracle: nat -> AskEnv, fs0: History.FileSystem, s: AskState,
                       v: Verdict, i: nat) {
    var answer := if v == Success && oracle(i).answer.Some? then [AnswerTurn(m, oracle(i))] else [];
    && s.saved == FirstUserTurn(m, first, oracle) + answer
    && s.fs == SaveAll(fs0, m.chatId, History.DefaultTrack, s.saved)
  }

  function SavedInv(m: Incoming, first: bool, oracle: nat -> AskEnv, fs0: History.FileSystem): (AskState, nat) -> bool {
    (s: AskState, i: nat) => SavedBefore(m, first, oracle, fs0, s, i)
  }

  function SavedDone(m: Incoming, first: bool, oracle: nat -> AskEnv, fs0: History.FileSystem)
    : (AskState, Verdict, nat) -> bool
  {
    (s: AskState, v: Verdict, i: nat) => SavedAfter(m, first, oracle, fs0, s, v, i)
  }

  /** One attempt keeps `SavedBefore` when it fails, and leaves `SavedAfter`. */
  lemma AttemptKeepsSaved(m: Incoming, recent: seq<History.Turn>, oracle: nat -> AskEnv, first: bool,
                          fs0: History.FileSystem, s: AskState, i: nat)
    requires SavedBefore(m, first, oracle, fs0, s, i)
    ensures var t := AskAttempt(m, recent, i > 0, s, oracle(i));
      && (t.verdict == Failure ==> SavedBefore(m, first, oracle, fs0, t.state, i + 1))
      && SavedAfter(m, first, oracle, fs0, t.state, t.verdict, i)
  {
    AttemptSaves(m, i > 0, s, oracle(i));
    var t := AskAttempt(m, recent, i > 0, s, oracle(i));
    var added := t.state.saved[|s.saved|..];
    assert t.state.saved == s.saved + added;
    SaveAllAppend(fs0, m.chatId, History.DefaultTrack, s.saved, added);
    if i == 0 {
      assert s.saved + added == added;
    } else {
      assert added == (if t.verdict == Success then [AnswerTurn(m, oracle(i))] else []);
    }
  }

  /** The attempts of `/a` keep `SavedBefore` when they fail, and leave `SavedAfter`. */
  lemma AskAttemptsKeepSaved(m: Incoming, recent: seq<History.Turn>, oracle: nat -> AskEnv, first: bool,
                             fs0: History.FileSystem)
    ensures FailureKeeps(AskAttempts(m, recent, oracle), SavedInv(m, first, oracle, fs0))
    ensures Leaves(AskAttempts(m, recent, oracle), SavedInv(m, first, oracle, fs0), SavedDone(m, first, oracle, fs0))
  {
    forall s: AskState, i: nat | SavedBefore(m, first, oracle, fs0, s, i)
      ensures AttemptAt(m, recent, oracle, s, i).verdict == Failure ==>
                SavedBefore(m, first, oracle, fs0, AttemptAt(m, recent, oracle, s, i).state, i + 1)
      ensures SavedAfter(m, first, oracle, fs0, AttemptAt(m, recent, oracle, s, i).state,
                         AttemptAt(m, recent, oracle, s, i).verdict, i)
    {
      AttemptKeepsSaved(m, recent, oracle, first, fs0, s, i);
    }
  }

  /**
   * What `/a` saves, after reading the history: the user turn at most
   * once, by the first attempt, then the answer only on delivery; the
   * history files receive exactly those turns in that order.
   */
  lemma AskRunSaves(m: Incoming, pool: ApiKeys.Pool, fs: History.FileSystem, folders: Folders,
                    oracle: nat -> AskEnv)
    requires ApiKeys.Consistent(pool)
    ensures var r := AskRun(m, pool, fs, folders, oracle);
      var fs0 := History.ReadStep(fs, m.chatId, History.DefaultTrack).fs;
      var added := FirstUserTurn(m, DrawsUsableKey(pool), oracle) + DeliveredAnswer(m, oracle, r);
      && r.state.saved == added
      && r.state.fs == SaveAll(fs0, m.chatId, History.DefaultTrack, added)
  {
    var recent := Recent(fs, m);
    var first := DrawsUsableKey(pool);
    var fs0 := History.ReadStep(fs, m.chatId, History.DefaultTrack).fs;
    var s0: AskState := AskWorld(pool, fs0, folders, []);
    assert SavedBefore(m, first, oracle, fs0, s0, 0);
    AskAttemptsKeepSaved(m, recent, oracle, first, fs0);
    RunSavesOf(m, first, oracle, fs0, AskAttempts(m, recent, oracle), s0, [StatusSent(StatusText(m))]);
  }

  /** `AskRunSaves` for any attempts that behave as `AskAttemptsKeepSaved` says. */
  lemma RunSavesOf(m: Incoming, first: bool, oracle: nat -> AskEnv, fs0: History.FileSystem,
                   attempt: (AskState, nat) -> Tried<AskState>, s0: AskState, events: seq<Event>)
    requires SavedBefore(m, first, oracle, fs0, s0, 0)
    requires FailureKeeps(attempt, SavedInv(m, first, oracle, fs0))
    requires Leaves(attempt, SavedInv(m, first, oracle, fs0), SavedDone(m, first, oracle, fs0))
    ensures var r := RetryLoop<AskState>(attempt, AskKeys, AskFailText, s0, events, 0);
      && r.state.saved == FirstUserTurn(m, first, oracle) + DeliveredAnswer(m, oracle, r)
      && r.state.fs == SaveAll(fs0, m.chatId, History.DefaultTrack, r.state.saved)
  {
    RetryKeeps<AskState>(attempt, AskKeys, AskFailText, s0, events, 0,
                         SavedInv(m, first, oracle, fs0), SavedDone(m, first, oracle, fs0));
    var r := RetryLoop<AskState>(attempt, AskKeys, AskFailText, s0, events, 0);
    assert SavedDone(m, first, oracle, fs0)(r.state, Ended(r.outcome), r.attempts - 1);
    SavedAtEnd(m, first, oracle, fs0, r);
  }

  /** What the last attempt leaves saved is the first user turn and, on delivery, the answer. */
  lemma SavedAtEnd(m: Incoming, first: bool, oracle: nat -> AskEnv, fs0: History.FileSystem, r: Run<AskState>)
    requires r.attempts >= 1 && SavedAfter(m, first, oracle, fs0, r.state, Ended(r.outcome), r.attempts - 1)
    ensures r.state.saved == FirstUserTurn(m, first, oracle) + DeliveredAnswer(m, oracle, r)
    ensures r.state.fs == SaveAll(fs0, m.chatId, History.DefaultTrack, r.state.saved)
  {
    assert LastEnv(oracle, r) == oracle(r.attempts - 1);
    assert Ended(r.outcome) == Success <==> r.outcome == Delivered;
  }

  /** The final message an `/a` attempt sends when it does not fail: the answer. */
  function AskReply(oracle: nat -> AskEnv): (Verdict, nat) -> Event {
    (v: Verdict, i: nat) => AnswerReply(oracle, i)
  }

  function AnswerReply(oracle: nat -> AskEnv, i: nat): Event {
    if oracle(i).answer.Some? then Replied(oracle(i).answer.value) else StatusDeleted
  }

  /** The attempts of `/a` send their answer as their one final message, or none. */
  lemma AskAttemptsReplyOnce(m: Incoming, recent: seq<History.Turn>, oracle: nat -> AskEnv)
    ensures RepliesOnce(AskAttempts(m, recent, oracle), AskReply(oracle))
  {
    forall s: AskState, i: nat
      ensures Finals(AttemptAt(m, recent, oracle, s, i).events)
              == (if AttemptAt(m, recent, oracle, s, i).verdict == Failure then 0 else 1)
      ensures AttemptAt(m, recent, oracle, s, i).verdict != Failure ==>
                AttemptAt(m, recent, oracle, s, i).events != []
                && LastEvent(AttemptAt(m, recent, oracle, s, i).events)
                   == AskReply(oracle)(AttemptAt(m, recent, oracle, s, i).verdict, i)
    {
      AttemptReplies(m, recent, i > 0, s, oracle(i));
    }
  }

  /**
   * `/a` sends exactly one final message, and it is the last thing it
   * does: the answer when it is delivered, the failure message when it
   * gives up.
   */
  lemma AskRunReplies(m: Incoming, pool: ApiKeys.Pool, fs: History.FileSystem, folders: Folders,
                      oracle: nat -> AskEnv)
    requires ApiKeys.Consistent(pool)
    ensures var r := AskRun(m, pool, fs, folders, oracle);
      && Finals(r.events) == 1
      && r.events != [] && r.events[0] == StatusSent(StatusText(m))
      && (r.outcome == GaveUp ==> LastEvent(r.events) == Replied(AskFailText))
      && (r.outcome == Delivered && LastEnv(oracle, r).answer.Some? ==>
            LastEvent(r.events) == Replied(LastEnv(oracle, r).answer.value))
  {
    var read := History.ReadStep(fs, m.chatId, History.DefaultTrack);
    var recent := Recent(fs, m);
    AskAttemptsReplyOnce(m, recent, oracle);
    RunRepliesOf(oracle, AskAttempts(m, recent, oracle), AskWorld(pool, read.fs, folders, []),
                 [StatusSent(StatusText(m))]);
  }

  /** `AskRunReplies` for any attempts that behave as `AskAttemptsReplyOnce` says. */
  lemma RunRepliesOf(oracle: nat -> AskEnv, attempt: (AskState, nat) -> Tried<AskState>, s0: AskState,
                     events: seq<Event>)
    requires RepliesOnce(attempt, AskReply(oracle))
    ensures var r := RetryLoop<AskState>(attempt, AskKeys, AskFailText, s0, events, 0);
      && Finals(r.events) == Finals(events) + 1
      && |events| <= |r.events| && r.events[..|events|] == events
      && (r.outcome == GaveUp ==> LastEvent(r.events) == Replied(AskFailText))
      && (r.outcome == Delivered && LastEnv(oracle, r).answer.Some? ==>
            LastEvent(r.events) == Replied(LastEnv(oracle, r).answer.value))
  {
    RetryReplies<AskState>(attempt, AskKeys, AskFailText, s0, events, 0, AskReply(oracle));
    RetryExtends<AskState>(attempt, AskKeys, AskFailText, s0, events, 0);
    var r := RetryLoop<AskState>(attempt, AskKeys, AskFailText, s0, events, 0);
    if r.outcome != GaveUp {
      assert LastEvent(r.events) == AskReply(oracle)(Ended(r.outcome), r.attempts - 1);
      ReplyAtEnd(oracle, r);
    }
  }

  /** The reply an attempt sends last is the answer of the environment that attempt saw. */
  lemma ReplyAtEnd(oracle: nat -> AskEnv, r: Run<AskState>)
    requires r.attempts >= 1 && r.events != []
    requires LastEvent(r.events) == AnswerReply(oracle, r.attempts - 1)
    ensures LastEnv(oracle, r).answer.Some? ==> LastEvent(r.events) == Replied(LastEnv(oracle, r).answer.value)
  {
    assert LastEnv(oracle, r) == oracle(r.attempts - 1);
  }

  /**
   * `prepareRequest`: draws a key, checks that there is something to ask,
   * stores the picture, saves the user turn unless retrying, and assembles
   * the parts.  `ok` is false where the code throws.
   */
  method PrepareRequest(pool: ApiKeys.ApiKeyPool, store: History.TurnStore, m: Incoming, recent: seq<History.Turn>,
                        isRetrying: bool, folders0: Folders, env: AskEnv)
    returns (ok: bool, folders: Folders, allParts: seq<Part>, userMessageForHistory: string)
    requires pool.Valid()
    modifies pool, store
    ensures pool.Valid()
    ensures pool.State() == ApiKeys.Draw(old(pool.State()), GeminiService).1
    ensures ok == Proceeds(m, DrawsUsableKey(old(pool.State())), env)
    ensures !ok ==> store.files == old(store.files) && folders == folders0
    ensures ok ==>
      && folders == StoreImage(folders0, m, env)
      && userMessageForHistory == UserTurn(m, env).content
      && allParts == AskParts(folders, recent, m, env)
      && store.files == SaveAll(old(store.files), m.chatId, History.DefaultTrack,
                                if isRetrying then [] else [UserTurn(m, env)])
  {
    folders, allParts, userMessageForHistory := folders0, [], "";
    ghost var fs0 := store.files;
    var geminiApiKey := pool.GetKey(GeminiService);
    if !UsableKey(geminiApiKey) || (m.q == "" && m.imageMime.None?) {
      return false, folders, allParts, userMessageForHistory;
    }
    var text := m.q;
    var image: Option<ImageData> := None;
    var imageId: Option<nat> := None;
    if m.imageMime.Some? {
      if env.download.None? {
        return false, folders, allParts, userMessageForHistory;
      }
      var compressed := Compress(env.download.value, m.imageMime.value, env.reencoded);
      folders := SaveChatImage(folders, m.sender, env.imageId, compressed.data, compressed.mimeType);
      image, imageId := Some(compressed), Some(env.imageId);
      if text == "" {
        text := DescribePrompt;
      }
    }
    userMessageForHistory := UserRecord(imageId, m.q);
    if !isRetrying {
      store.SaveMessageToHistory(m.chatId, m.sender, "user", userMessageForHistory, History.DefaultTrack, env.savedAt);
      assert [UserTurn(m, env)][1..] == [];
    }
    allParts := AssembleParts(folders, recent, userMessageForHistory, image, text);
    ok := true;
  }

  /** An attempt that does not get past the checks only draws a key. */
  lemma AttemptStops(m: Incoming, recent: seq<History.Turn>, retrying: bool, s: AskState, env: AskEnv)
    requires !ProceedsFrom(m, s, env)
    ensures AskAttempt(m, recent, retrying, s, env)
            == Tried(Failure, s.(pool := ApiKeys.Draw(s.pool, GeminiService).1), [])
  {
  }

  /** An attempt that gets past the checks but has no answer saves only the user turn, unless retrying. */
  lemma AttemptUnanswered(m: Incoming, recent: seq<History.Turn>, retrying: bool, s: AskState, env: AskEnv)
    requires ProceedsFrom(m, s, env) && env.answer.None?
    ensures var user := if retrying then [] else [UserTurn(m, env)];
      AskAttempt(m, recent, retrying, s, env)
      == Tried(Failure, AskWorld(ApiKeys.Draw(s.pool, GeminiService).1, SaveAll(s.fs, m.chatId, History.DefaultTrack, user),
                                 StoreImage(s.folders, m, env), s.saved + user),
               [AskRequest(StoreImage(s.folders, m, env), recent, m, env)])
  {
  }

  /** An answered attempt saves the user turn (unless retrying) and the answer, and replies. */
  lemma AttemptAnswered(m: Incoming, recent: seq<History.Turn>, retrying: bool, s: AskState, env: AskEnv)
    requires ProceedsFrom(m, s, env) && env.answer.Some?
    ensures var added := (if retrying then [] else [UserTurn(m, env)]) + [AnswerTurn(m, env)];
      AskAttempt(m, recent, retrying, s, env)
      == Tried(Success, AskWorld(ApiKeys.Draw(s.pool, GeminiService).1, SaveAll(s.fs, m.chatId, History.DefaultTrack, added),
                                 StoreImage(s.folders, m, env), s.saved + added),
               [AskRequest(StoreImage(s.folders, m, env), recent, m, env), StatusDeleted, Replied(env.answer.value)])
  {
  }

  /** One attempt of `executeWithRetry`: `prepareRequest`, the contents, the model call and the reply. */
  method AttemptAsk(pool: ApiKeys.ApiKeyPool, store: History.TurnStore, m: Incoming, recent: seq<History.Turn>,
                    isRetrying: bool, folders0: Folders, ghost saved0: seq<History.Turn>, env: AskEnv)
    returns (ok: bool, folders: Folders, events: seq<Event>, ghost saved: seq<History.Turn>)
    requires pool.Valid()
    modifies pool, store
    ensures pool.Valid()
    ensures AskAttempt(m, recent, isRetrying, AskWorld(old(pool.State()), old(store.files), folders0, saved0), env)
            == Tried(if ok then Success else Failure, AskWorld(pool.State(), store.files, folders, saved), events)
  {
    ghost var fs0 := store.files;
    ghost var s := AskWorld(pool.State(), fs0, folders0, saved0);
    ghost var user := if isRetrying then [] else [UserTurn(m, env)];
    var proceeds, allParts, userMessageForHistory;
    proceeds, folders, allParts, userMessageForHistory := PrepareRequest(pool, store, m, recent, isRetrying, folders0, env);
    if !proceeds {
      AttemptStops(m, recent, isRetrying, s, env);
      return false, folders, [], saved0;
    }
    var contents := BuildContents(recent, userMessageForHistory, allParts);
    events := [ChatRequest(contents)];
    if env.answer.None? {
      AttemptUnanswered(m, recent, isRetrying, s, env);
      return false, folders, events, saved0 + user;
    }
    AttemptAnswered(m, recent, isRetrying, s, env);
    var responseText := env.answer.value;
    store.SaveMessageToHistory(m.chatId, m.sender, "assistant", responseText, History.DefaultTrack, env.answeredAt);
    SaveAllAppend(fs0, m.chatId, History.DefaultTrack, user, [AnswerTurn(m, env)]);
    assert [AnswerTurn(m, env)][1..] == [];
    saved := saved0 + (user + [AnswerTurn(m, env)]);
    events := events + [StatusDeleted, Replied(responseText)];
    ok := true;
  }

  /** The `/a` command on the shared pool and history store. */
  method Ask(pool: ApiKeys.ApiKeyPool, store: History.TurnStore, m: Incoming, folders0: Folders,
             oracle: nat -> AskEnv)
    returns (outcome: Outcome, folders: Folders, events: seq<Event>, attempts: nat, ghost saved: seq<History.Turn>)
    requires pool.Valid()
    modifies pool, store
    ensures pool.Valid()
    ensures AskRun(m, old(pool.State()), old(store.files), folders0, oracle)
            == Run(outcome, AskWorld(pool.State(), store.files, folders, saved), events, attempts)
  {
    ghost var total := AskRun(m, pool.State(), store.files, folders0, oracle);
    events := [StatusSent(StatusText(m))];
    ghost var recentSpec := Recent(store.files, m);
    var chatHistory := store.GetMessageHistory(m.chatId, History.DefaultTrack);
    var recent := SliceFrom(chatHistory, -RecentTurns);
    assert recent == recentSpec;
    ghost var attempt := AskAttempts(m, recent, oracle);
    folders, saved := folders0, [];
    var retryCount := 0;
    var isRetrying := false;
    while retryCount < MaxRetries
      invariant pool.Valid()
      invariant isRetrying == (retryCount > 0)
      invariant retryCount < MaxRetries
      invariant RetryLoop<AskState>(attempt, AskKeys, AskFailText, AskWorld(pool.State(), store.files, folders, saved),
                          events, retryCount) == total
      decreases MaxRetries - retryCount
    {
      ghost var before := AskWorld(pool.State(), store.files, folders, saved);
      var ok, newEvents;
      ok, folders, newEvents, saved := AttemptAsk(pool, store, m, recent, isRetrying, folders, saved,
                                                  oracle(retryCount));
      ghost var t := Tried(if ok then Success else Failure, AskWorld(pool.State(), store.files, folders, saved),
                           newEvents);
      assert t == AttemptAt(m, recent, oracle, before, retryCount);
      RetryNext<AskState>(attempt, AskKeys, AskFailText, before, events, retryCount, t);
      events := events + newEvents;
      if ok {
        return Delivered, folders, events, retryCount + 1, saved;
      }
      retryCount := retryCount + 1;
      if retryCount >= MaxRetries || retryCount >= pool.GetKeyCount(GeminiService) {
        events := events + GiveUpEvents(AskFailText);
        return GaveUp, folders, events, retryCount, saved;
      }
      isRetrying := true;
      events := events + [StatusEdited(RetryText)];
    }
  }
}
