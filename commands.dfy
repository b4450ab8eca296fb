/**
 * What the `/a` and `/g` command handlers of sansekai.js have in common:
 * the messages they send to the chat, the retry rule of their
 * `executeWithRetry` loops, and the clause that reports a final failure.
 *
 * Sending and editing WhatsApp messages are recorded as events; the
 * requests sent to the models are recorded as events too, so a run of a
 * command is the list of everything it showed the user and the models.
 */
module Commands {
  import opened Wrappers
  import opened Attachments
  import ChatContext
  import ApiKeys
  import History

  /** The pool entry both commands draw their keys from. */
  const GeminiService := "keygemini"

  /** `!geminiApiKey` throws: a missing key and the empty string both count as no key. */
  predicate UsableKey(key: Option<string>) {
    key.Some? && key.value != ""
  }

  /** Whether the next `getKey('keygemini')` on `p` gives a key the commands accept. */
  predicate DrawsUsableKey(p: ApiKeys.Pool)
    requires ApiKeys.Consistent(p)
  {
    UsableKey(ApiKeys.Draw(p, GeminiService).0)
  }

  /** Whether `getKey('keygemini')` call i (counting from 0) on `p` gives a key the commands accept. */
  predicate UsableAt(p: ApiKeys.Pool, i: nat) {
    ApiKeys.Consistent(p) && UsableKey(ApiKeys.DrawMany(p, GeminiService, i + 1)[i])
  }

  /** `MAX_RETRIES`. */
  const MaxRetries := 10

  const RetryText := "ERROR, RETRYING... PLEASE WAIT"

  /** The reply of the handler that wraps every command. */
  const OuterErrorText := "Terjadi kesalahan. Silakan coba lagi."

  /**
   * The command message: its chat, its sender, the text after the command
   * (`q`), and the mime type of the picture it carries or quotes.
   */
  datatype Incoming = Incoming(chatId: string, sender: string, q: string, imageMime: Option<string>)

  /** `saveMessageToHistory` for each turn in order. */
  function SaveAll(fs: History.FileSystem, chatId: string, track: string, turns: seq<History.Turn>): History.FileSystem
    decreases |turns|
  {
    if turns == [] then fs else SaveAll(History.SaveStep(fs, chatId, track, turns[0]), chatId, track, turns[1..])
  }

  lemma {:induction false} SaveAllAppend(fs: History.FileSystem, chatId: string, track: string,
                                         a: seq<History.Turn>, b: seq<History.Turn>)
    ensures SaveAll(fs, chatId, track, a + b) == SaveAll(SaveAll(fs, chatId, track, a), chatId, track, b)
    decreases |a|
  {
    if a != [] {
      assert (a + b)[0] == a[0] && (a + b)[1..] == a[1..] + b;
      SaveAllAppend(History.SaveStep(fs, chatId, track, a[0]), chatId, track, a[1..], b);
    } else {
      assert a + b == b;
    }
  }

  datatype Event =
    | StatusSent(text: string)
    | StatusEdited(text: string)
    | StatusDeleted
    | Replied(text: string)
    | ImageSent(data: Bytes, mimeType: string, caption: string)
    | ChatRequest(contents: seq<ChatContext.Content>)
    | ImageRequest(parts: seq<ChatContext.Part>)

  /** The messages that end a command for the user: a text reply or a picture. */
  predicate IsFinal(e: Event) {
    e.Replied? || e.ImageSent?
  }

  /** How many final messages a list of events holds. */
  function Finals(events: seq<Event>): nat
    decreases |events|
  {
    if events == [] then 0
    else Finals(events[..|events| - 1]) + (if IsFinal(events[|events| - 1]) then 1 else 0)
  }

  lemma {:induction false} FinalsAppend(a: seq<Event>, b: seq<Event>)
    ensures Finals(a + b) == Finals(a) + Finals(b)
    decreases |b|
  {
    if b == [] {
      assert a + b == a;
    } else {
      assert (a + b)[..|a + b| - 1] == a + b[..|b| - 1];
      FinalsAppend(a, b[..|b| - 1]);
    }
  }

  /** The last thing a run did. */
  function LastEvent(events: seq<Event>): Event
    requires events != []
  {
    events[|events| - 1]
  }

  /** How a command ended. */
  datatype Outcome = Delivered | Blocked | GaveUp | UploadRejected

  /**
   * The retry rule of `executeWithRetry`: after a failed attempt, give up
   * once `retryCount` reaches `MAX_RETRIES` or the number of keys in the pool.
   */
  predicate GivesUp(retryCount: nat, keyCount: nat) {
    retryCount >= MaxRetries || retryCount >= keyCount
  }

  /** How many attempts a command makes when every one of them fails. */
  function AttemptBound(keyCount: nat): nat {
    if keyCount == 0 then 1 else if keyCount < MaxRetries then keyCount else MaxRetries
  }

  /**
   * The loop gives up exactly after `min(10, k)` failed attempts with k
   * keys, and after one with none: that count is the first at which the
   * test fires.
   */
  lemma GivesUpAtBound(retryCount: nat, keyCount: nat)
    requires retryCount >= 1
    ensures GivesUp(retryCount, keyCount) <==> retryCount >= AttemptBound(keyCount)
    ensures 1 <= AttemptBound(keyCount) <= MaxRetries
  {
  }

  /**
   * How one attempt ends: with the command's answer, with an answer that
   * ends the command without a retry, or with an error that is retried.
   */
  datatype Verdict = Success | Halt | Failure

  /** One attempt: its verdict, the state it leaves and the events it produced. */
  datatype Tried<+S> = Tried(verdict: Verdict, state: S, events: seq<Event>)

  /** A whole run: how it ended, the state and events it left, and how many attempts it made. */
  datatype Run<+S> = Run(outcome: Outcome, state: S, events: seq<Event>, attempts: nat)

  /** The verdict of the attempt that ended a run with this outcome. */
  function Ended(o: Outcome): Verdict {
    match o
    case Delivered => Success
    case Blocked => Halt
    case _ => Failure
  }

  /**
   * `executeWithRetry` from attempt `retryCount` on, for a command whose
   * attempts are `attempt` and whose pool holds `keyCount` keys: an attempt
   * that does not fail ends the run; a failed one gives up once the retry
   * rule says so, reporting `failText`; otherwise the status message is
   * edited and the next attempt starts.
   */
  function RetryLoop<S>(attempt: (S, nat) -> Tried<S>, keyCount: S -> nat, failText: string,
                        s: S, events: seq<Event>, retryCount: nat): (r: Run<S>)
    requires retryCount < MaxRetries
    ensures retryCount < r.attempts <= MaxRetries
    ensures r.outcome != UploadRejected
    decreases MaxRetries - retryCount
  {
    var t := attempt(s, retryCount);
    var events' := events + t.events;
    if t.verdict == Success then Run(Delivered, t.state, events', retryCount + 1)
    else if t.verdict == Halt then Run(Blocked, t.state, events', retryCount + 1)
    else if GivesUp(retryCount + 1, keyCount(t.state)) then
      Run(GaveUp, t.state, events' + GiveUpEvents(failText), retryCount + 1)
    else RetryLoop(attempt, keyCount, failText, t.state, events' + [StatusEdited(RetryText)], retryCount + 1)
  }

  /** How the loop goes on from attempt `retryCount`, given what that attempt did. */
  lemma RetryNext<S>(attempt: (S, nat) -> Tried<S>, keyCount: S -> nat, failText: string,
                     s: S, events: seq<Event>, retryCount: nat, t: Tried<S>)
    requires retryCount < MaxRetries && t == attempt(s, retryCount)
    ensures var r := RetryLoop(attempt, keyCount, failText, s, events, retryCount);
      var events' := events + t.events;
      && (t.verdict == Success ==> r == Run(Delivered, t.state, events', retryCount + 1))
      && (t.verdict == Halt ==> r == Run(Blocked, t.state, events', retryCount + 1))
      && (t.verdict == Failure && GivesUp(retryCount + 1, keyCount(t.state)) ==>
            r == Run(GaveUp, t.state, events' + GiveUpEvents(failText), retryCount + 1))
      && (t.verdict == Failure && !GivesUp(retryCount + 1, keyCount(t.state)) ==>
            r == RetryLoop(attempt, keyCount, failText, t.state, events' + [StatusEdited(RetryText)], retryCount + 1))
  {
  }

  /** Every attempt leaves the key count as it found it. */
  ghost predicate KeepsKeys<S(!new)>(attempt: (S, nat) -> Tried<S>, keyCount: S -> nat) {
    forall s: S, i: nat :: keyCount(attempt(s, i).state) == keyCount(s)
  }

  /** Every attempt that does not fail satisfies `good` for its verdict, the key count it started with and its index. */
  ghost predicate EndsWell<S(!new)>(attempt: (S, nat) -> Tried<S>, keyCount: S -> nat, good: (Verdict, nat, nat) -> bool) {
    forall s: S, i: nat :: attempt(s, i).verdict != Failure ==> good(attempt(s, i).verdict, keyCount(s), i)
  }

  /** A failed attempt `i` that starts where `inv(_, i)` holds leaves a state where `inv(_, i + 1)` holds. */
  ghost predicate FailureKeeps<S(!new)>(attempt: (S, nat) -> Tried<S>, inv: (S, nat) -> bool) {
    forall s: S, i: nat :: inv(s, i) && attempt(s, i).verdict == Failure ==> inv(attempt(s, i).state, i + 1)
  }

  /** An attempt `i` that starts where `inv(_, i)` holds leaves a state of which `done` holds for its verdict. */
  ghost predicate Leaves<S(!new)>(attempt: (S, nat) -> Tried<S>, inv: (S, nat) -> bool, done: (S, Verdict, nat) -> bool) {
    forall s: S, i: nat :: inv(s, i) ==> done(attempt(s, i).state, attempt(s, i).verdict, i)
  }

  /** Every attempt sends one final message exactly when it does not fail. */
  ghost predicate FinalUnlessFailed<S(!new)>(attempt: (S, nat) -> Tried<S>) {
    forall s: S, i: nat :: Finals(attempt(s, i).events) == (if attempt(s, i).verdict == Failure then 0 else 1)
  }

  /** Every attempt that does not fail ends on `reply` of its verdict and index. */
  ghost predicate EndsOnReply<S(!new)>(attempt: (S, nat) -> Tried<S>, reply: (Verdict, nat) -> Event) {
    forall s: S, i: nat :: attempt(s, i).verdict != Failure ==>
      attempt(s, i).events != [] && LastEvent(attempt(s, i).events) == reply(attempt(s, i).verdict, i)
  }

  /**
   * Every attempt sends one final message exactly when it does not fail,
   * and then it is its last event, `reply` of its verdict and index.
   */
  ghost predicate RepliesOnce<S(!new)>(attempt: (S, nat) -> Tried<S>, reply: (Verdict, nat) -> Event) {
    FinalUnlessFailed(attempt) && EndsOnReply(attempt, reply)
  }

  /**
   * With attempts that leave the key count alone, a run from `retryCount`
   * makes at most `min(10, k)` attempts in all (one with no keys), exactly
   * that many when it gives up, and a run that does not give up ends on an
   * attempt whose verdict is the outcome's and of which `good` holds.
   */
  lemma {:induction false} RetryAttempts<S(!new)>(attempt: (S, nat) -> Tried<S>, keyCount: S -> nat,
                                            failText: string, s: S, events: seq<Event>, retryCount: nat,
                                            good: (Verdict, nat, nat) -> bool)
    requires retryCount < MaxRetries
    requires retryCount == 0 || !GivesUp(retryCount, keyCount(s))
    requires KeepsKeys(attempt, keyCount) && EndsWell(attempt, keyCount, good)
    ensures var r := RetryLoop(attempt, keyCount, failText, s, events, retryCount);
      var k := keyCount(s);
      && r.attempts <= AttemptBound(k)
      && keyCount(r.state) == k
      && (r.outcome == GaveUp ==> r.attempts == AttemptBound(k))
      && (r.outcome != GaveUp ==> good(Ended(r.outcome), k, r.attempts - 1))
    decreases MaxRetries - retryCount
  {
    var t := attempt(s, retryCount);
    GivesUpAtBound(retryCount + 1, keyCount(s));
    if t.verdict == Failure && !GivesUp(retryCount + 1, keyCount(t.state)) {
      RetryAttempts(attempt, keyCount, failText, t.state, events + t.events + [StatusEdited(RetryText)],
                    retryCount + 1, good);
    }
  }

  /**
   * What holds of the state a run leaves: if `inv` holds before attempt i
   * and survives each failed attempt, and every attempt leaves a state
   * of which `done` holds for its verdict, then `done` holds of the final
   * state for the verdict and index of the attempt that ended the run.
   */
  lemma {:induction false} RetryKeeps<S(!new)>(attempt: (S, nat) -> Tried<S>, keyCount: S -> nat,
                                         failText: string, s: S, events: seq<Event>, retryCount: nat,
                                         inv: (S, nat) -> bool, done: (S, Verdict, nat) -> bool)
    requires retryCount < MaxRetries
    requires inv(s, retryCount)
    requires FailureKeeps(attempt, inv) && Leaves(attempt, inv, done)
    ensures var r := RetryLoop(attempt, keyCount, failText, s, events, retryCount);
      done(r.state, Ended(r.outcome), r.attempts - 1)
    decreases MaxRetries - retryCount
  {
    var t := attempt(s, retryCount);
    if t.verdict == Failure && !GivesUp(retryCount + 1, keyCount(t.state)) {
      RetryKeeps(attempt, keyCount, failText, t.state, events + t.events + [StatusEdited(RetryText)],
                 retryCount + 1, inv, done);
    }
  }

  /**
   * A run whose attempts send one final message exactly when they do not
   * fail, last, sends exactly one final message in all, and it is the last
   * event: the reply of the attempt that ended the run, or the failure
   * report.
   */
  lemma RetryReplies<S(!new)>(attempt: (S, nat) -> Tried<S>, keyCount: S -> nat,
                              failText: string, s: S, events: seq<Event>, retryCount: nat,
                              reply: (Verdict, nat) -> Event)
    requires retryCount < MaxRetries
    requires RepliesOnce(attempt, reply)
    ensures var r := RetryLoop(attempt, keyCount, failText, s, events, retryCount);
      && Finals(r.events) == Finals(events) + 1
      && r.events != []
      && LastEvent(r.events) == if r.outcome == GaveUp then Replied(failText) else reply(Ended(r.outcome), r.attempts - 1)
  {
    RetryFinals(attempt, keyCount, failText, s, events, retryCount);
    RetryLast(attempt, keyCount, failText, s, events, retryCount, reply);
  }

  /** A run whose attempts send one final message exactly when they do not fail sends one in all. */
  lemma {:induction false} RetryFinals<S(!new)>(attempt: (S, nat) -> Tried<S>, keyCount: S -> nat,
                                          failText: string, s: S, events: seq<Event>, retryCount: nat)
    requires retryCount < MaxRetries
    requires FinalUnlessFailed(attempt)
    ensures Finals(RetryLoop(attempt, keyCount, failText, s, events, retryCount).events) == Finals(events) + 1
    decreases MaxRetries - retryCount
  {
    var t := attempt(s, retryCount);
    var events' := events + t.events;
    assert Finals(t.events) == (if t.verdict == Failure then 0 else 1);
    FinalsAppend(events, t.events);
    if t.verdict == Failure && GivesUp(retryCount + 1, keyCount(t.state)) {
      FinalsAppend(events', GiveUpEvents(failText));
    } else if t.verdict == Failure {
      var next := events' + [StatusEdited(RetryText)];
      FinalsAppend(events', [StatusEdited(RetryText)]);
      assert [StatusEdited(RetryText)][..0] == [];
      RetryFinals(attempt, keyCount, failText, t.state, next, retryCount + 1);
    }
  }

  /** The last event of a run is the reply of the attempt that ended it, or the failure report. */
  lemma {:induction false} RetryLast<S(!new)>(attempt: (S, nat) -> Tried<S>, keyCount: S -> nat,
                                        failText: string, s: S, events: seq<Event>, retryCount: nat,
                                        reply: (Verdict, nat) -> Event)
    requires retryCount < MaxRetries
    requires EndsOnReply(attempt, reply)
    ensures var r := RetryLoop(attempt, keyCount, failText, s, events, retryCount);
      && r.events != []
      && LastEvent(r.events) == if r.outcome == GaveUp then Replied(failText) else reply(Ended(r.outcome), r.attempts - 1)
    decreases MaxRetries - retryCount
  {
    var t := attempt(s, retryCount);
    var events' := events + t.events;
    if t.verdict != Failure {
      assert LastEvent(events') == LastEvent(t.events);
    } else if GivesUp(retryCount + 1, keyCount(t.state)) {
      assert LastEvent(events' + GiveUpEvents(failText)) == Replied(failText);
    } else {
      RetryLast(attempt, keyCount, failText, t.state, events' + [StatusEdited(RetryText)], retryCount + 1, reply);
    }
  }

  /** A run only appends to the events it started with. */
  lemma {:induction false} RetryExtends<S>(attempt: (S, nat) -> Tried<S>, keyCount: S -> nat,
                                           failText: string, s: S, events: seq<Event>, retryCount: nat)
    requires retryCount < MaxRetries
    ensures var r := RetryLoop(attempt, keyCount, failText, s, events, retryCount);
      |events| <= |r.events| && r.events[..|events|] == events
    decreases MaxRetries - retryCount
  {
    var t := attempt(s, retryCount);
    var events' := events + t.events;
    assert events'[..|events|] == events;
    if t.verdict == Failure && !GivesUp(retryCount + 1, keyCount(t.state)) {
      var next := events' + [StatusEdited(RetryText)];
      assert next[..|events|] == events;
      RetryExtends(attempt, keyCount, failText, t.state, next, retryCount + 1);
      var r := RetryLoop(attempt, keyCount, failText, t.state, next, retryCount + 1);
      assert r.events[..|events|] == r.events[..|next|][..|events|];
    } else if t.verdict == Failure {
      assert (events' + GiveUpEvents(failText))[..|events|] == events;
    }
  }

  /**
   * What `sharp` does with a picture: it re-encodes it, or it throws before
   * the output format is chosen (reading the metadata, resizing), or after
   * (in `toBuffer`), when the mime type has already been switched.
   */
  datatype Reencoding = Reencoded(bytes: Bytes) | FailedBeforeFormat | FailedAfterFormat

  /**
   * `compressImage`: the re-encoded bytes under their output format; on a
   * failure the original bytes, under the mime type as it stood when `sharp`
   * threw. A JPEG, PNG or WebP picture keeps its type in every case.
   */
  function Compress(original: Bytes, mimetype: string, outcome: Reencoding): (image: ImageData)
    ensures outcome.Reencoded? ==> image.data == outcome.bytes
    ensures !outcome.Reencoded? ==> image.data == original
    ensures outcome.FailedBeforeFormat? ==> image.mimeType == mimetype
    ensures IsOutputMime(mimetype) ==> image.mimeType == mimetype
    ensures !outcome.FailedBeforeFormat? && !IsOutputMime(mimetype) ==> image.mimeType == "image/jpeg"
    ensures !outcome.FailedBeforeFormat? ==> IsOutputMime(image.mimeType) && LabelsItself(image.mimeType)
  {
    match outcome
    case FailedBeforeFormat => ImageData(original, mimetype)
    case FailedAfterFormat =>
      OutputMimesLabelThemselves(CompressedMime(mimetype));
      ImageData(original, CompressedMime(mimetype))
    case Reencoded(bytes) =>
      OutputMimesLabelThemselves(CompressedMime(mimetype));
      ImageData(bytes, CompressedMime(mimetype))
  }

  // ---------------------------------------------------------------------
  // The catch clause that reports a final failure

  const StatusKeyName := "thinkingMsgKey"
  const ErrorLogName := "errorMessages"

  /**
   * The `catch (error)` clause of a command, given the names it can see:
   * it deletes the status message only when `thinkingMsgKey` is visible
   * (`typeof` of an unknown name is "undefined"), and it reaches its final
   * reply only when `errorMessages` is visible; reading an unknown name
   * throws, and the handler around every command answers instead.
   */
  function CatchClause(visible: set<string>, finalText: string): seq<Event> {
    (if StatusKeyName in visible then [StatusDeleted] else [])
    + [Replied(if ErrorLogName in visible then finalText else OuterErrorText)]
  }

  /**
   * What the clause sees as written: both names are declared with `let`
   * inside the `try` block, so neither is in scope in the `catch` block.
   */
  const CatchScopeAsWritten: set<string> := {}

  /** The scope the clause is written for. */
  const CatchScopeIntended: set<string> := {StatusKeyName, ErrorLogName}

  /**
   * As written, a command that runs out of attempts neither deletes its
   * status message nor sends its own failure message: the user gets the
   * generic answer of the outer handler.
   */
  lemma FinalReplyAsWritten(finalText: string)
    ensures CatchClause(CatchScopeAsWritten, finalText) == [Replied(OuterErrorText)]
    ensures finalText != OuterErrorText ==> Replied(finalText) !in CatchClause(CatchScopeAsWritten, finalText)
  {
  }

  /** The failure report as intended, and as the rest of this model sends it. */
  function GiveUpEvents(finalText: string): (events: seq<Event>)
    ensures events == [StatusDeleted, Replied(finalText)]
    ensures Finals(events) == 1
  {
    assert [StatusDeleted, Replied(finalText)][..1] == [StatusDeleted];
    assert [StatusDeleted][..0] == [];
    assert Finals([StatusDeleted]) == 0;
    CatchClause(CatchScopeIntended, finalText)
  }
}
