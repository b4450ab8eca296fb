/**
 * The `/g` command of sansekai.js: the image model draws a picture from the
 * message, the image conversation and the pictures it mentions.  Before its
 * retry loop the command stores the picture the message carries or quotes
 * and saves the user turn on the `image_gen` track, once.  Each attempt
 * checks that there is something to draw, draws a key, reads the image
 * conversation, builds the request and calls the model; a picture is
 * stored, recorded and sent, an answer without a picture stops the command,
 * and anything else is retried while the retry rule allows.
 *
 * The download, the re-encoding, `Date.now()`, the timestamps and the
 * model call are what the outside world does: `upload` says what it does
 * before the loop and `oracle(i)` what it does during attempt `i`.
 */
module ImageCommand {
  import opened Wrappers
  import opened Text
  import opened Attachments
  import opened ChatContext
  import opened ImageGenContext
  import opened ImageGenResponse
  import opened Commands
  import ApiKeys
  import History

  const GeneratingText := "Generating image..."
  const UploadFailText := "Failed to process the uploaded image. Please try again."
  const UploadPrompt := "Generate a new image based on this reference image."
  const BlockedText := "NSFW DETECTED: BLOCKED. Image Generation Shutting Down, Contact Admin +6285172196650"
  const GenFailText := "Image generation failed. Hubungi Admin +6285172196650"
  const Caption := "Here's your generated image"

  /**
   * What the outside world does before the loop: the downloaded bytes (none
   * when the download throws), what sharp makes of the picture, the
   * upload's id and the timestamp of the user turn.
   */
  datatype UploadEnv = UploadEnv(download: Option<Bytes>, reencoded: Reencoding, uploadId: nat, savedAt: string)

  /**
   * What the outside world does during one attempt: the model's answer (none
   * when the call throws), the id of the generated picture and the timestamp
   * of its record.
   */
  datatype GenEnv = GenEnv(response: Option<Response>, imageId: nat, answeredAt: string)

  /** What the command changes: the key pool, the history files, the picture folders, and the turns saved so far. */
  datatype GenWorld = GenWorld(pool: ApiKeys.Pool, fs: History.FileSystem, folders: Folders,
                               saved: seq<History.Turn>)

  /** A state whose pool is one `ApiKeyPool` can hold. */
  type GenState = s: GenWorld | ApiKeys.Consistent(s.pool)
    witness GenWorld(ApiKeys.Pool(map[], map[]), map[], map[], [])

  // ---------------------------------------------------------------------
  // The upload, before the loop

  /** `[UPLOADED IMAGE:<id>]`. */
  function UploadReference(id: nat): string {
    UploadTag + Decimal(id) + "]"
  }

  /**
   * The name the upload is stored under as written: the id and the
   * extension of the mime type the picture arrived with, whatever format
   * `compressImage` re-encoded it to.
   */
  function UploadFileNameAsWritten(id: nat, mimetype: string): string {
    ImageFileName(id, Extension(mimetype))
  }

  /**
   * The name the upload is stored under, as `saveImageToFile` names the
   * pictures of `/a`: the id and the extension of the stored format.
   */
  function UploadFileName(id: nat, stored: ImageData): string {
    ImageFileName(id, Extension(stored.mimeType))
  }

  /** What the upload step leaves: a rejection, or the reference (empty without a picture), the text and the folders. */
  datatype Upload = Rejected | Accepted(reference: string, text: string, folders: Folders)

  /**
   * The upload step: without a picture nothing happens; a failed download
   * rejects the command; otherwise the re-encoded picture is stored in the
   * uploads folder and an empty text becomes the reference-image prompt.
   */
  function PrepareUpload(m: Incoming, folders: Folders, env: UploadEnv): Upload {
    if m.imageMime.None? then Accepted("", m.q, folders)
    else if env.download.None? then Rejected
    else
      var stored := Compress(env.download.value, m.imageMime.value, env.reencoded);
      Accepted(UploadReference(env.uploadId), if m.q == "" then UploadPrompt else m.q,
               SaveFile(folders, UploadsDir(m.chatId), UploadFileName(env.uploadId, stored), stored.data))
  }

  /** `userMessageForHistory`: the reference, a space and `q`, or `q` alone. */
  function UserMessage(reference: string, q: string): string {
    if reference != "" then reference + " " + q else q
  }

  /** The user turn saved before the loop. */
  function GenUserTurn(m: Incoming, reference: string, env: UploadEnv): History.Turn {
    History.Turn(env.savedAt, "user", UserMessage(reference, m.q), m.sender)
  }

  /**
   * As written, an upload in a format `compressImage` does not write (GIF,
   * say) is re-encoded to JPEG but stored under its own extension, so the
   * conversation later sends the JPEG bytes to the model labelled with the
   * original format.
   */
  lemma UploadMislabelled(folders: Folders, chatId: string, id: nat, original: Bytes, reencoded: Bytes, ext: string)
    requires FreshId(folders, UploadsDir(chatId), id)
    requires '/' !in ext && '.' !in ext && !IsOutputMime("image/" + ext)
    ensures var stored := Compress(original, "image/" + ext, Reencoded(reencoded));
      && stored == ImageData(reencoded, "image/jpeg")
      && LoadUploadedImage(SaveFile(folders, UploadsDir(chatId), UploadFileNameAsWritten(id, "image/" + ext), stored.data),
                           UploadReference(id), chatId)
         == Some(ImageData(reencoded, "image/" + ext))
  {
    var name := UploadFileNameAsWritten(id, "image/" + ext);
    assert name == ImageFileName(id, ext) by {
      assert "image/" + ext == "image" + "/" + ext;
      SlashSplit("image", ext);
    }
    var saved := SaveFile(folders, UploadsDir(chatId), name, reencoded);
    SavedImageLoads(folders, UploadsDir(chatId), id, ext, reencoded);
    UploadReferenceLoads(saved, chatId, id);
  }

  /** GIF is such a format: a GIF upload comes back labelled `image/gif` over JPEG bytes. */
  lemma GifUploadMislabelled(folders: Folders, chatId: string, id: nat, original: Bytes, reencoded: Bytes)
    requires FreshId(folders, UploadsDir(chatId), id)
    ensures var stored := Compress(original, "image/" + "gif", Reencoded(reencoded));
      && stored.mimeType == "image/jpeg"
      && LoadUploadedImage(SaveFile(folders, UploadsDir(chatId), UploadFileNameAsWritten(id, "image/" + "gif"), stored.data),
                           UploadReference(id), chatId)
         == Some(ImageData(reencoded, "image/" + "gif"))
  {
    assert ("image/" + "gif")[6] == 'g';
    assert "image/jpg"[6] == 'j' && "image/png"[6] == 'p';
    UploadMislabelled(folders, chatId, id, original, reencoded, "gif");
  }

  /** The reference of an upload looks its id up in the uploads folder. */
  lemma UploadReferenceLoads(folders: Folders, chatId: string, id: nat)
    ensures LoadUploadedImage(folders, UploadReference(id), chatId) == LookupImage(folders, UploadsDir(chatId), Decimal(id))
  {
    UploadedReferenceForms(Decimal(id), "");
    assert UploadTag + Decimal(id) + "]" + "" == UploadReference(id);
  }

  /**
   * An upload stored under a fresh id, unless sharp threw before choosing
   * the output format, is the picture that opens the request: the
   * reference saved in the user turn loads back the stored bytes under
   * their own mime type.
   */
  lemma UploadRoundTrip(m: Incoming, folders: Folders, env: UploadEnv)
    requires m.imageMime.Some? && env.download.Some? && !env.reencoded.FailedBeforeFormat?
    requires FreshId(folders, UploadsDir(m.chatId), env.uploadId)
    ensures var u := PrepareUpload(m, folders, env);
      && u.Accepted? && u.reference == UploadReference(env.uploadId)
      && UploadImage(u.folders, m.chatId, u.reference)
         == Some(Compress(env.download.value, m.imageMime.value, env.reencoded))
  {
    var stored := Compress(env.download.value, m.imageMime.value, env.reencoded);
    var ext := Extension(stored.mimeType);
    var saved := SaveFile(folders, UploadsDir(m.chatId), UploadFileName(env.uploadId, stored), stored.data);
    SavedImageLoads(folders, UploadsDir(m.chatId), env.uploadId, ext, stored.data);
    UploadReferenceLoads(saved, m.chatId, env.uploadId);
    assert UploadReference(env.uploadId) != "" by {
      assert UploadReference(env.uploadId)[0] == '[';
    }
  }

  // ---------------------------------------------------------------------
  // One attempt: `prepareImageGenRequest` and `generateAndSaveImage`

  /** Whether an attempt has something to draw: a text or an upload. */
  predicate HasContent(text: string, reference: string) {
    !(text == "" && reference == "")
  }

  /** Whether an attempt gets past the content check and then draws a usable key. */
  predicate GenProceeds(text: string, reference: string, pool: ApiKeys.Pool)
    requires ApiKeys.Consistent(pool)
  {
    HasContent(text, reference) && DrawsUsableKey(pool)
  }

  /** The pool after an attempt: a key is drawn once the content check passes. */
  function GenPool(text: string, reference: string, pool: ApiKeys.Pool): (p: ApiKeys.Pool)
    requires ApiKeys.Consistent(pool)
    ensures ApiKeys.Consistent(p) && p.keys == pool.keys
  {
    if HasContent(text, reference) then ApiKeys.Draw(pool, GeminiService).1 else pool
  }

  /** The image conversation an attempt reads: its last thirty turns. */
  function GenRecent(fs: History.FileSystem, chatId: string): seq<History.Turn> {
    SliceFrom(History.ReadStep(fs, chatId, ImageGenTrack).history, -RecentTurns)
  }

  /**
   * How `generateAndSaveImage` ends and what `executeWithRetry` makes of
   * it: a picture succeeds, "No image was generated" halts the command,
   * any other error (no answer, no candidate, an unexpected shape) fails.
   */
  function Judge(response: Option<Response>): Verdict {
    if response.None? then Failure
    else
      match Extract(response.value)
      case Generated(_, _) => Success
      case NoImage => Halt
      case _ => Failure
  }

  /** How an attempt ends: it fails when it cannot proceed, and otherwise as the answer is judged. */
  function GenVerdict(text: string, reference: string, s: GenState, env: GenEnv): Verdict {
    if !GenProceeds(text, reference, s.pool) then Failure else Judge(env.response)
  }

  /** The picture and text of a successful attempt. */
  function Drawn(env: GenEnv): (g: Extraction)
    requires env.response.Some? && Extract(env.response.value).Generated?
    ensures g.Generated?
  {
    Extract(env.response.value)
  }

  /** The record `generateAndSaveImage` saves. */
  function GeneratedTurn(m: Incoming, env: GenEnv, text: string): History.Turn {
    History.Turn(env.answeredAt, "assistant", GeneratedRecord(env.imageId, text), m.sender)
  }

  /**
   * The state an attempt leaves: the key drawn; and on a picture, the
   * picture stored in the generated folder and its record saved.
   */
  function GenAttemptState(m: Incoming, reference: string, text: string, s: GenState, env: GenEnv): GenState {
    var s1 := s.(pool := GenPool(text, reference, s.pool));
    if GenVerdict(text, reference, s, env) != Success then s1
    else
      var g := Drawn(env);
      var record := GeneratedTurn(m, env, g.text);
      s1.(fs := History.SaveStep(s.fs, m.chatId, ImageGenTrack, record),
          folders := SaveFile(s.folders, GeneratedDir(m.chatId), GeneratedFileName(env.imageId, g.image.mimeType),
                              g.image.data),
          saved := s.saved + [record])
  }

  /** The request of an attempt. */
  function GenRequest(m: Incoming, reference: string, text: string, current: string, s: GenState): Event {
    ImageRequest(GenRequestParts(s.folders, m.chatId, reference, GenRecent(s.fs, m.chatId), current, text))
  }

  /** The final message of an attempt that does not fail: the picture, or the refusal. */
  function GenReply(v: Verdict, env: GenEnv): Event {
    if v == Success && env.response.Some? && Extract(env.response.value).Generated? then
      ImageSent(Drawn(env).image.data, Drawn(env).image.mimeType, Caption)
    else Replied(BlockedText)
  }

  /** What follows the request: on a picture or a refusal, the status deletion and the reply. */
  function ReplyEvents(v: Verdict, env: GenEnv): seq<Event> {
    if v == Failure then [] else [StatusDeleted, GenReply(v, env)]
  }

  /** What an attempt sends: the request once it proceeds, then what follows it. */
  function GenAttemptEvents(m: Incoming, reference: string, text: string, current: string, s: GenState, env: GenEnv)
    : seq<Event>
  {
    if !GenProceeds(text, reference, s.pool) then []
    else [GenRequest(m, reference, text, current, s)] + ReplyEvents(Judge(env.response), env)
  }

  /** One attempt. */
  function GenAttempt(m: Incoming, reference: string, text: string, current: string, s: GenState, env: GenEnv)
    : (t: Tried<GenState>)
    ensures t.state.pool.keys == s.pool.keys
  {
    Tried(GenVerdict(text, reference, s, env), GenAttemptState(m, reference, text, s, env),
          GenAttemptEvents(m, reference, text, current, s, env))
  }

  /**
   * What an attempt does to the state: it leaves the key count alone;
   * only a picture changes the history files, the folders and the saved
   * turns, by exactly the record of that picture; a success took a key, the
   * content check and a picture, a halt an answer without one.
   */
  lemma GenAttemptEffects(m: Incoming, reference: string, text: string, s: GenState, env: GenEnv)
    ensures var v := GenVerdict(text, reference, s, env);
      var s' := GenAttemptState(m, reference, text, s, env);
      var k := ApiKeys.KeyCount(s.pool, GeminiService);
      && ApiKeys.KeyCount(s'.pool, GeminiService) == k
      && (v != Failure ==> HasContent(text, reference) && DrawsUsableKey(s.pool) && k > 0 && env.response.Some?)
      && (v == Success ==>
            && Extract(env.response.value).Generated?
            && s'.saved == s.saved + [GeneratedTurn(m, env, Drawn(env).text)]
            && s'.fs == History.SaveStep(s.fs, m.chatId, ImageGenTrack, GeneratedTurn(m, env, Drawn(env).text)))
      && (v == Halt ==> Extract(env.response.value) == NoImage)
      && (v != Success ==> s'.saved == s.saved && s'.fs == s.fs && s'.folders == s.folders)
  {
  }

  /** An attempt that does not fail sends one final message, last; a failed one sends none. */
  lemma GenAttemptReplies(m: Incoming, reference: string, text: string, current: string, s: GenState, env: GenEnv)
    ensures var v := GenVerdict(text, reference, s, env);
      var events := GenAttemptEvents(m, reference, text, current, s, env);
      && Finals(events) == (if v == Failure then 0 else 1)
      && (v != Failure ==> events != [] && LastEvent(events) == GenReply(v, env))
  {
    var v := GenVerdict(text, reference, s, env);
    var events := GenAttemptEvents(m, reference, text, current, s, env);
    if GenProceeds(text, reference, s.pool) {
      var request := GenRequest(m, reference, text, current, s);
      assert [request][..0] == [];
      assert Finals([request]) == 0;
      if v == Failure {
        assert events == [request] + [];
      } else {
        assert events == [request] + [StatusDeleted, GenReply(v, env)];
        assert [StatusDeleted, GenReply(v, env)][..1] == [StatusDeleted];
        assert [StatusDeleted][..0] == [];
        FinalsAppend([request], [StatusDeleted, GenReply(v, env)]);
      }
    }
  }

  /**
   * What the image conversation reads back for the record of a delivered
   * picture, once a later attempt renders it: the picture itself, under
   * its own mime type, with the trimmed text as description.  This holds
   * when the id is fresh in the generated folder, the mime type names its
   * extension, and the text is one line without an upload tag.
   */
  lemma DeliveredImageReadsBack(m: Incoming, reference: string, text: string, s: GenState, env: GenEnv)
    requires GenVerdict(text, reference, s, env) == Success
    requires env.response.Some? && Extract(env.response.value).Generated?
    requires var g := Drawn(env);
      && FreshId(s.folders, GeneratedDir(m.chatId), env.imageId)
      && LabelsItself(g.image.mimeType) && Extension(g.image.mimeType) != ""
      && !Contains(GeneratedRecord(env.imageId, g.text), UploadTag)
      && forall i :: 0 <= i < |g.text| ==> !IsLineTerminator(g.text[i])
    ensures var g := Drawn(env);
      var s' := GenAttemptState(m, reference, text, s, env);
      && s'.saved[|s'.saved| - 1] == GeneratedTurn(m, env, g.text)
      && RenderGenTurn(s'.folders, m.chatId, GeneratedTurn(m, env, g.text))
         == RenderedTurn(Some(g.image), "Assistant: (Generated an image: "
                                        + (if g.text == "" then DefaultDescription else Trim(g.text)) + ")")
  {
    var g := Drawn(env);
    var s' := GenAttemptState(m, reference, text, s, env);
    GeneratedImageRoundTrip(s.folders, m.chatId, env.imageId, g.image.data, g.image.mimeType);
    GeneratedLabelParts(s'.folders, m.chatId, Decimal(env.imageId));
    GeneratedRecordRenders(s'.folders, m.chatId, env.imageId, g.text, env.answeredAt, m.sender);
  }

  // ---------------------------------------------------------------------
  // The whole command

  /** The attempts of one run: attempt `i` sees `oracle(i)`. */
  function GenAttempts(m: Incoming, reference: string, text: string, current: string, oracle: nat -> GenEnv)
    : (GenState, nat) -> Tried<GenState>
  {
    (s: GenState, i: nat) => GenAttemptAt(m, reference, text, current, oracle, s, i)
  }

  /** Attempt `i` of a run. */
  function GenAttemptAt(m: Incoming, reference: string, text: string, current: string, oracle: nat -> GenEnv,
                        s: GenState, i: nat): Tried<GenState>
  {
    GenAttempt(m, reference, text, current, s, oracle(i))
  }

  /** `getKeyCount('keygemini')`. */
  function GenKeys(s: GenState): nat {
    ApiKeys.KeyCount(s.pool, GeminiService)
  }

  /** The state the loop starts from: the user turn saved on the `image_gen` track. */
  function GenStart(m: Incoming, pool: ApiKeys.Pool, fs: History.FileSystem, reference: string, folders: Folders,
                    upload: UploadEnv): GenState
    requires ApiKeys.Consistent(pool)
  {
    var user := GenUserTurn(m, reference, upload);
    GenWorld(pool, History.SaveStep(fs, m.chatId, ImageGenTrack, user), folders, [user])
  }

  /**
   * The whole command: status message, upload, user turn, then
   * `executeWithRetry`.  A rejected upload deletes the status message and
   * answers without any attempt.
   */
  function GenRun(m: Incoming, pool: ApiKeys.Pool, fs: History.FileSystem, folders: Folders, upload: UploadEnv,
                  oracle: nat -> GenEnv): Run<GenState>
    requires ApiKeys.Consistent(pool)
  {
    match PrepareUpload(m, folders, upload)
    case Rejected =>
      Run(UploadRejected, GenWorld(pool, fs, folders, []),
          [StatusSent(GeneratingText), StatusDeleted, Replied(UploadFailText)], 0)
    case Accepted(reference, text, folders') =>
      RetryLoop<GenState>(GenAttempts(m, reference, text, UserMessage(reference, m.q), oracle), GenKeys, GenFailText,
                          GenStart(m, pool, fs, reference, folders', upload), [StatusSent(GeneratingText)], 0)
  }

  /** The oracle's answer for the attempt that ended a run. */
  function LastGen(oracle: nat -> GenEnv, r: Run<GenState>): GenEnv {
    oracle(if r.attempts == 0 then 0 else r.attempts - 1)
  }

  /**
   * What an attempt that does not fail has behind it: something to draw, a
   * key, an answer; a picture in it for a success, none for a halt.
   */
  predicate GenEndedAt(reference: string, text: string, oracle: nat -> GenEnv, v: Verdict, k: nat, i: nat) {
    && HasContent(text, reference) && k > 0 && oracle(i).response.Some?
    && (v == Success ==> Extract(oracle(i).response.value).Generated?)
    && (v == Halt ==> Extract(oracle(i).response.value) == NoImage)
  }

  function GenGood(reference: string, text: string, oracle: nat -> GenEnv): (Verdict, nat, nat) -> bool {
    (v: Verdict, k: nat, i: nat) => GenEndedAt(reference, text, oracle, v, k, i)
  }

  /** The attempts of `/g` leave the key count alone and end only as `GenEndedAt` says. */
  lemma GenAttemptsEndWell(m: Incoming, reference: string, text: string, current: string, oracle: nat -> GenEnv)
    ensures KeepsKeys(GenAttempts(m, reference, text, current, oracle), GenKeys)
    ensures EndsWell(GenAttempts(m, reference, text, current, oracle), GenKeys, GenGood(reference, text, oracle))
  {
    forall s: GenState, i: nat
      ensures GenKeys(GenAttemptAt(m, reference, text, current, oracle, s, i).state) == GenKeys(s)
      ensures GenAttemptAt(m, reference, text, current, oracle, s, i).verdict != Failure ==>
                GenGood(reference, text, oracle)(GenAttemptAt(m, reference, text, current, oracle, s, i).verdict,
                                                 GenKeys(s), i)
    {
      GenAttemptEffects(m, reference, text, s, oracle(i));
    }
  }

  /**
   * The attempts of `/g`: none when the upload is rejected; otherwise with
   * k keys at most `min(10, k)` (one without keys), exactly that many when
   * the command gives up; a delivered run ended on an attempt with
   * something to draw, a key and a picture in the answer, a blocked one on
   * an answer without a picture.
   */
  lemma GenRunAttempts(m: Incoming, pool: ApiKeys.Pool, fs: History.FileSystem, folders: Folders,
                       upload: UploadEnv, oracle: nat -> GenEnv)
    requires ApiKeys.Consistent(pool)
    ensures var r := GenRun(m, pool, fs, folders, upload, oracle);
      var u := PrepareUpload(m, folders, upload);
      var k := ApiKeys.KeyCount(pool, GeminiService);
      && (r.outcome == UploadRejected <==> u.Rejected?)
      && (u.Rejected? ==> r.attempts == 0)
      && (u.Accepted? ==> GenAttemptsBounded(u.reference, u.text, oracle, r, k))
  {
    var u := PrepareUpload(m, folders, upload);
    if u.Accepted? {
      var s0 := GenStart(m, pool, fs, u.reference, u.folders, upload);
      var current := UserMessage(u.reference, m.q);
      GenAttemptsEndWell(m, u.reference, u.text, current, oracle);
      GenRunAttemptsOf(u.reference, u.text, oracle, GenAttempts(m, u.reference, u.text, current, oracle), s0,
                       [StatusSent(GeneratingText)]);
      assert GenKeys(s0) == ApiKeys.KeyCount(pool, GeminiService);
    }
  }

  /**
   * The attempts of a run past the upload, with k keys: at least one, at
   * most `min(10, k)` (one without keys), exactly that many when the run
   * gives up; a run that does not give up ended as `GenEndedAt` says.
   */
  predicate GenAttemptsBounded(reference: string, text: string, oracle: nat -> GenEnv, r: Run<GenState>, k: nat) {
    && 1 <= r.attempts <= AttemptBound(k) && r.outcome != UploadRejected
    && (r.outcome == GaveUp ==> r.attempts == AttemptBound(k))
    && (r.outcome != GaveUp ==> GenEndedAt(reference, text, oracle, Ended(r.outcome), k, r.attempts - 1))
  }

  /** `GenRunAttempts` for any attempts that behave as `GenAttemptsEndWell` says. */
  lemma GenRunAttemptsOf(reference: string, text: string, oracle: nat -> GenEnv,
                         attempt: (GenState, nat) -> Tried<GenState>, s0: GenState, events: seq<Event>)
    requires KeepsKeys(attempt, GenKeys) && EndsWell(attempt, GenKeys, GenGood(reference, text, oracle))
    ensures GenAttemptsBounded(reference, text, oracle, RetryLoop<GenState>(attempt, GenKeys, GenFailText, s0, events, 0),
                               GenKeys(s0))
  {
    RetryAttempts<GenState>(attempt, GenKeys, GenFailText, s0, events, 0, GenGood(reference, text, oracle));
    var r := RetryLoop<GenState>(attempt, GenKeys, GenFailText, s0, events, 0);
    if r.outcome != GaveUp {
      assert GenGood(reference, text, oracle)(Ended(r.outcome), GenKeys(s0), r.attempts - 1);
    }
  }

  /**
   * Before attempt i of a run that started from pool `p0`, i keys have been
   * drawn when the message has something to draw (none otherwise).
   */
  function GenDrawsInv(reference: string, text: string, p0: ApiKeys.Pool): (GenState, nat) -> bool {
    (s: GenState, i: nat) =>
      ApiKeys.Consistent(p0) && (HasContent(text, reference) ==> s.pool == ApiKeys.DrawnPool(p0, GeminiService, i))
  }

  /** Attempt i does not fail only with a usable key from call i. */
  function GenDrawsDone(p0: ApiKeys.Pool): (GenState, Verdict, nat) -> bool {
    (s: GenState, v: Verdict, i: nat) => v != Failure ==> UsableAt(p0, i)
  }

  /** Every attempt of `/g` past the content check draws one key, and one that does not fail drew a usable key. */
  lemma GenAttemptsDraw(m: Incoming, reference: string, text: string, current: string, oracle: nat -> GenEnv,
                        p0: ApiKeys.Pool)
    ensures FailureKeeps(GenAttempts(m, reference, text, current, oracle), GenDrawsInv(reference, text, p0))
    ensures Leaves(GenAttempts(m, reference, text, current, oracle), GenDrawsInv(reference, text, p0),
                   GenDrawsDone(p0))
  {
    forall s: GenState, i: nat | ApiKeys.Consistent(p0) &&
                                 (HasContent(text, reference) ==> s.pool == ApiKeys.DrawnPool(p0, GeminiService, i))
      ensures HasContent(text, reference) ==>
                GenAttemptAt(m, reference, text, current, oracle, s, i).state.pool
                  == ApiKeys.DrawnPool(p0, GeminiService, i + 1)
      ensures GenAttemptAt(m, reference, text, current, oracle, s, i).verdict != Failure ==> UsableAt(p0, i)
    {
      GenAttemptEffects(m, reference, text, s, oracle(i));
      ApiKeys.DrawAfter(p0, GeminiService, i);
    }
  }

  /**
   * The key behind a `/g` run that ended on an answer: attempt i uses the
   * key of `getKey` call i, so the last attempt of a delivered or blocked
   * run drew a key that is neither missing nor empty.
   */
  lemma GenDeliveredKey(m: Incoming, pool: ApiKeys.Pool, fs: History.FileSystem, folders: Folders,
                        upload: UploadEnv, oracle: nat -> GenEnv)
    requires ApiKeys.Consistent(pool)
    ensures var r := GenRun(m, pool, fs, folders, upload, oracle);
      (r.outcome == Delivered || r.outcome == Blocked) ==> r.attempts >= 1 && UsableAt(pool, r.attempts - 1)
  {
    var u := PrepareUpload(m, folders, upload);
    if u.Accepted? {
      var s0 := GenStart(m, pool, fs, u.reference, u.folders, upload);
      var current := UserMessage(u.reference, m.q);
      GenAttemptsDraw(m, u.reference, u.text, current, oracle, pool);
      GenDeliveredKeyOf(u.reference, u.text, pool, GenAttempts(m, u.reference, u.text, current, oracle), s0,
                        [StatusSent(GeneratingText)]);
    }
  }

  /** `GenDeliveredKey` for any attempts that behave as `GenAttemptsDraw` says. */
  lemma GenDeliveredKeyOf(reference: string, text: string, p0: ApiKeys.Pool,
                          attempt: (GenState, nat) -> Tried<GenState>, s0: GenState, events: seq<Event>)
    requires s0.pool == p0
    requires FailureKeeps(attempt, GenDrawsInv(reference, text, p0))
    requires Leaves(attempt, GenDrawsInv(reference, text, p0), GenDrawsDone(p0))
    ensures var r := RetryLoop<GenState>(attempt, GenKeys, GenFailText, s0, events, 0);
      r.attempts >= 1 && (r.outcome != GaveUp ==> UsableAt(p0, r.attempts - 1))
  {
    assert GenDrawsInv(reference, text, p0)(s0, 0);
    RetryKeeps<GenState>(attempt, GenKeys, GenFailText, s0, events, 0, GenDrawsInv(reference, text, p0),
                         GenDrawsDone(p0));
    var r := RetryLoop<GenState>(attempt, GenKeys, GenFailText, s0, events, 0);
    assert r.outcome != GaveUp ==> Ended(r.outcome) != Failure;
    assert GenDrawsDone(p0)(r.state, Ended(r.outcome), r.attempts - 1);
  }

  /** Whether the attempt that ended a run delivered a picture. */
  predicate DeliveredPicture(oracle: nat -> GenEnv, r: Run<GenState>) {
    r.outcome == Delivered && LastGen(oracle, r).response.Some? && Extract(LastGen(oracle, r).response.value).Generated?
  }

  /** The record a run saves after the user turn: only that of a delivered picture. */
  function DeliveredRecord(m: Incoming, oracle: nat -> GenEnv, r: Run<GenState>): seq<History.Turn> {
    if DeliveredPicture(oracle, r) then [GeneratedTurn(m, LastGen(oracle, r), Drawn(LastGen(oracle, r)).text)] else []
  }

  /** The folders a run leaves after the upload: a delivered picture stored in the generated folder. */
  function DeliveredFolders(m: Incoming, oracle: nat -> GenEnv, r: Run<GenState>, folders: Folders): Folders {
    if DeliveredPicture(oracle, r) then
      var env := LastGen(oracle, r);
      SaveFile(folders, GeneratedDir(m.chatId), GeneratedFileName(env.imageId, Drawn(env).image.mimeType),
               Drawn(env).image.data)
    else folders
  }

  /** The history files, the folders and the saved turns of `s` are those of `s0`. */
  predicate SameStore(s0: GenState, s: GenState) {
    s.fs == s0.fs && s.folders == s0.folders && s.saved == s0.saved
  }

  /**
   * What an attempt that ends a run with verdict `v` and answer `env` leaves
   * after starting from `s0`: on a picture, its file and its record; else
   * the store as it was.
   */
  predicate GenSaved(m: Incoming, s0: GenState, env: GenEnv, s: GenState, v: Verdict) {
    if v == Success && env.response.Some? && Extract(env.response.value).Generated? then
      var g := Drawn(env);
      var record := GeneratedTurn(m, env, g.text);
      && s.saved == s0.saved + [record]
      && s.fs == History.SaveStep(s0.fs, m.chatId, ImageGenTrack, record)
      && s.folders == SaveFile(s0.folders, GeneratedDir(m.chatId), GeneratedFileName(env.imageId, g.image.mimeType),
                               g.image.data)
    else SameStore(s0, s)
  }

  function StoreInv(s0: GenState): (GenState, nat) -> bool {
    (s: GenState, i: nat) => SameStore(s0, s)
  }

  function StoreDone(m: Incoming, oracle: nat -> GenEnv, s0: GenState): (GenState, Verdict, nat) -> bool {
    (s: GenState, v: Verdict, i: nat) => GenSaved(m, s0, oracle(i), s, v)
  }

  /** A failed attempt leaves the store as it found it; any attempt leaves `GenSaved`. */
  lemma GenAttemptKeepsStore(m: Incoming, reference: string, text: string, current: string, oracle: nat -> GenEnv,
                             s0: GenState, s: GenState, i: nat)
    requires SameStore(s0, s)
    ensures var t := GenAttemptAt(m, reference, text, current, oracle, s, i);
      && (t.verdict == Failure ==> SameStore(s0, t.state))
      && GenSaved(m, s0, oracle(i), t.state, t.verdict)
  {
    GenAttemptEffects(m, reference, text, s, oracle(i));
  }

  /** The attempts of `/g` keep `SameStore` when they fail, and leave `GenSaved`. */
  lemma GenAttemptsKeepStore(m: Incoming, reference: string, text: string, current: string, oracle: nat -> GenEnv,
                             s0: GenState)
    ensures FailureKeeps(GenAttempts(m, reference, text, current, oracle), StoreInv(s0))
    ensures Leaves(GenAttempts(m, reference, text, current, oracle), StoreInv(s0), StoreDone(m, oracle, s0))
  {
    forall s: GenState, i: nat | SameStore(s0, s)
      ensures GenAttemptAt(m, reference, text, current, oracle, s, i).verdict == Failure ==>
                SameStore(s0, GenAttemptAt(m, reference, text, current, oracle, s, i).state)
      ensures GenSaved(m, s0, oracle(i), GenAttemptAt(m, reference, text, current, oracle, s, i).state,
                       GenAttemptAt(m, reference, text, current, oracle, s, i).verdict)
    {
      GenAttemptKeepsStore(m, reference, text, current, oracle, s0, s, i);
    }
  }

  /**
   * What `/g` stores: nothing when the upload is rejected; otherwise the
   * upload, the user turn once before any attempt, then only a delivered
   * picture and its record, whatever the failed attempts did; the history
   * files receive exactly those turns in that order.
   */
  lemma GenRunSaves(m: Incoming, pool: ApiKeys.Pool, fs: History.FileSystem, folders: Folders,
                    upload: UploadEnv, oracle: nat -> GenEnv)
    requires ApiKeys.Consistent(pool)
    ensures var r := GenRun(m, pool, fs, folders, upload, oracle);
      var u := PrepareUpload(m, folders, upload);
      && (u.Rejected? ==> r.state == GenWorld(pool, fs, folders, []))
      && (u.Accepted? ==>
            && r.state.saved == [GenUserTurn(m, u.reference, upload)] + DeliveredRecord(m, oracle, r)
            && r.state.fs == SaveAll(fs, m.chatId, ImageGenTrack, r.state.saved)
            && r.state.folders == DeliveredFolders(m, oracle, r, u.folders))
  {
    var u := PrepareUpload(m, folders, upload);
    if u.Accepted? {
      AcceptedSaves(m, pool, fs, u.reference, u.text, u.folders, upload, oracle);
    }
  }

  /** `GenRunSaves` once the upload is accepted. */
  lemma AcceptedSaves(m: Incoming, pool: ApiKeys.Pool, fs: History.FileSystem, reference: string, text: string,
                      folders: Folders, upload: UploadEnv, oracle: nat -> GenEnv)
    requires ApiKeys.Consistent(pool)
    ensures var current := UserMessage(reference, m.q);
      var r := RetryLoop<GenState>(GenAttempts(m, reference, text, current, oracle), GenKeys, GenFailText,
                                   GenStart(m, pool, fs, reference, folders, upload), [StatusSent(GeneratingText)], 0);
      && r.state.saved == [GenUserTurn(m, reference, upload)] + DeliveredRecord(m, oracle, r)
      && r.state.fs == SaveAll(fs, m.chatId, ImageGenTrack, r.state.saved)
      && r.state.folders == DeliveredFolders(m, oracle, r, folders)
  {
    var s0 := GenStart(m, pool, fs, reference, folders, upload);
    var current := UserMessage(reference, m.q);
    GenAttemptsKeepStore(m, reference, text, current, oracle, s0);
    GenRunSavesOf(m, oracle, GenAttempts(m, reference, text, current, oracle), s0, [StatusSent(GeneratingText)]);
    var r := RetryLoop<GenState>(GenAttempts(m, reference, text, current, oracle), GenKeys, GenFailText, s0,
                                 [StatusSent(GeneratingText)], 0);
    StartThenDelivered(m, oracle, fs, GenUserTurn(m, reference, upload), s0, r);
  }

  /** The user turn saved before the loop, then what the loop saved, is all the history files receive. */
  lemma StartThenDelivered(m: Incoming, oracle: nat -> GenEnv, fs: History.FileSystem, user: History.Turn,
                           s0: GenState, r: Run<GenState>)
    requires s0.saved == [user] && s0.fs == History.SaveStep(fs, m.chatId, ImageGenTrack, user)
    requires r.state.saved == s0.saved + DeliveredRecord(m, oracle, r)
    requires r.state.fs == (if DeliveredPicture(oracle, r) then
                              History.SaveStep(s0.fs, m.chatId, ImageGenTrack, DeliveredRecord(m, oracle, r)[0])
                            else s0.fs)
    ensures r.state.saved == [user] + DeliveredRecord(m, oracle, r)
    ensures r.state.fs == SaveAll(fs, m.chatId, ImageGenTrack, r.state.saved)
  {
    var added := DeliveredRecord(m, oracle, r);
    SaveAllAppend(fs, m.chatId, ImageGenTrack, [user], added);
    assert [user][1..] == [];
    if added != [] {
      assert added[1..] == [];
    }
  }

  /** `GenRunSaves` for any attempts that behave as `GenAttemptsKeepStore` says. */
  lemma GenRunSavesOf(m: Incoming, oracle: nat -> GenEnv, attempt: (GenState, nat) -> Tried<GenState>,
                      s0: GenState, events: seq<Event>)
    requires FailureKeeps(attempt, StoreInv(s0)) && Leaves(attempt, StoreInv(s0), StoreDone(m, oracle, s0))
    ensures var r := RetryLoop<GenState>(attempt, GenKeys, GenFailText, s0, events, 0);
      && r.state.saved == s0.saved + DeliveredRecord(m, oracle, r)
      && r.state.fs == (if DeliveredPicture(oracle, r) then
                          History.SaveStep(s0.fs, m.chatId, ImageGenTrack, DeliveredRecord(m, oracle, r)[0])
                        else s0.fs)
      && r.state.folders == DeliveredFolders(m, oracle, r, s0.folders)
  {
    RetryKeeps<GenState>(attempt, GenKeys, GenFailText, s0, events, 0, StoreInv(s0), StoreDone(m, oracle, s0));
    var r := RetryLoop<GenState>(attempt, GenKeys, GenFailText, s0, events, 0);
    assert StoreDone(m, oracle, s0)(r.state, Ended(r.outcome), r.attempts - 1);
    StoredAtEnd(m, oracle, s0, r);
  }

  /** What the last attempt leaves stored is a delivered picture and its record, or the store as it was. */
  lemma StoredAtEnd(m: Incoming, oracle: nat -> GenEnv, s0: GenState, r: Run<GenState>)
    requires r.attempts >= 1 && GenSaved(m, s0, oracle(r.attempts - 1), r.state, Ended(r.outcome))
    ensures r.state.saved == s0.saved + DeliveredRecord(m, oracle, r)
    ensures r.state.fs == (if DeliveredPicture(oracle, r) then
                             History.SaveStep(s0.fs, m.chatId, ImageGenTrack, DeliveredRecord(m, oracle, r)[0])
                           else s0.fs)
    ensures r.state.folders == DeliveredFolders(m, oracle, r, s0.folders)
  {
    assert LastGen(oracle, r) == oracle(r.attempts - 1);
    assert Ended(r.outcome) == Success <==> r.outcome == Delivered;
    if !DeliveredPicture(oracle, r) {
      assert s0.saved + [] == s0.saved;
    }
  }

  /** The final message a `/g` attempt sends when it does not fail. */
  function GenReplyAt(oracle: nat -> GenEnv): (Verdict, nat) -> Event {
    (v: Verdict, i: nat) => GenReply(v, oracle(i))
  }

  /** The attempts of `/g` send their picture or their refusal as their one final message, or none. */
  lemma GenAttemptsReplyOnce(m: Incoming, reference: string, text: string, current: string, oracle: nat -> GenEnv)
    ensures RepliesOnce(GenAttempts(m, reference, text, current, oracle), GenReplyAt(oracle))
  {
    forall s: GenState, i: nat
      ensures Finals(GenAttemptAt(m, reference, text, current, oracle, s, i).events)
              == (if GenAttemptAt(m, reference, text, current, oracle, s, i).verdict == Failure then 0 else 1)
      ensures GenAttemptAt(m, reference, text, current, oracle, s, i).verdict != Failure ==>
                GenAttemptAt(m, reference, text, current, oracle, s, i).events != []
                && LastEvent(GenAttemptAt(m, reference, text, current, oracle, s, i).events)
                   == GenReplyAt(oracle)(GenAttemptAt(m, reference, text, current, oracle, s, i).verdict, i)
    {
      GenAttemptReplies(m, reference, text, current, s, oracle(i));
    }
  }

  /**
   * `/g` sends exactly one final message, and it is the last thing it
   * does: the upload failure message, the picture with its caption, the
   * refusal, or the failure message, as the run ended.
   */
  lemma GenRunReplies(m: Incoming, pool: ApiKeys.Pool, fs: History.FileSystem, folders: Folders,
                      upload: UploadEnv, oracle: nat -> GenEnv)
    requires ApiKeys.Consistent(pool)
    ensures var r := GenRun(m, pool, fs, folders, upload, oracle);
      && Finals(r.events) == 1
      && r.events != [] && r.events[0] == StatusSent(GeneratingText)
      && (r.outcome == UploadRejected ==> LastEvent(r.events) == Replied(UploadFailText))
      && (r.outcome == GaveUp ==> LastEvent(r.events) == Replied(GenFailText))
      && (r.outcome == Blocked ==> LastEvent(r.events) == Replied(BlockedText))
      && (DeliveredPicture(oracle, r) ==>
            LastEvent(r.events) == ImageSent(Drawn(LastGen(oracle, r)).image.data,
                                             Drawn(LastGen(oracle, r)).image.mimeType, Caption))
  {
    var u := PrepareUpload(m, folders, upload);
    var start := [StatusSent(GeneratingText)];
    assert start[..0] == [] && Finals(start) == 0;
    if u.Rejected? {
      var events := start + [StatusDeleted, Replied(UploadFailText)];
      assert [StatusDeleted, Replied(UploadFailText)][..1] == [StatusDeleted];
      assert [StatusDeleted][..0] == [];
      FinalsAppend(start, [StatusDeleted, Replied(UploadFailText)]);
      assert events == [StatusSent(GeneratingText), StatusDeleted, Replied(UploadFailText)];
    } else {
      var s0 := GenStart(m, pool, fs, u.reference, u.folders, upload);
      var current := UserMessage(u.reference, m.q);
      GenAttemptsReplyOnce(m, u.reference, u.text, current, oracle);
      GenRunRepliesOf(oracle, GenAttempts(m, u.reference, u.text, current, oracle), s0, start);
    }
  }

  /** `GenRunReplies` for any attempts that behave as `GenAttemptsReplyOnce` says. */
  lemma GenRunRepliesOf(oracle: nat -> GenEnv, attempt: (GenState, nat) -> Tried<GenState>, s0: GenState,
                        events: seq<Event>)
    requires RepliesOnce(attempt, GenReplyAt(oracle))
    ensures var r := RetryLoop<GenState>(attempt, GenKeys, GenFailText, s0, events, 0);
      && Finals(r.events) == Finals(events) + 1
      && |events| <= |r.events| && r.events[..|events|] == events
      && (r.outcome == GaveUp ==> LastEvent(r.events) == Replied(GenFailText))
      && (r.outcome != GaveUp ==> LastEvent(r.events) == GenReply(Ended(r.outcome), LastGen(oracle, r)))
  {
    RetryReplies<GenState>(attempt, GenKeys, GenFailText, s0, events, 0, GenReplyAt(oracle));
    RetryExtends<GenState>(attempt, GenKeys, GenFailText, s0, events, 0);
    var r := RetryLoop<GenState>(attempt, GenKeys, GenFailText, s0, events, 0);
    if r.outcome != GaveUp {
      assert LastEvent(r.events) == GenReplyAt(oracle)(Ended(r.outcome), r.attempts - 1);
      assert LastGen(oracle, r) == oracle(r.attempts - 1);
    }
  }

  /** Reading the `image_gen` track never moves a file: only the default track has a legacy file. */
  lemma ImageGenReadKeeps(fs: History.FileSystem, chatId: string)
    ensures History.ReadStep(fs, chatId, ImageGenTrack).fs == fs
  {
    assert |ImageGenTrack| != |History.DefaultTrack|;
  }

  /**
   * `prepareImageGenRequest`: the content check, a key, then the request
   * parts from the upload and the image conversation.  `ok` is false where
   * the code throws.
   */
  method PrepareGen(pool: ApiKeys.ApiKeyPool, store: History.TurnStore, m: Incoming, reference: string,
                    text: string, userMessageForHistory: string, folders: Folders)
    returns (ok: bool, parts: seq<Part>)
    requires pool.Valid()
    modifies pool, store
    ensures pool.Valid() && pool.State() == GenPool(text, reference, old(pool.State()))
    ensures store.files == old(store.files)
    ensures ok == GenProceeds(text, reference, old(pool.State()))
    ensures ok ==> parts == GenRequestParts(folders, m.chatId, reference, GenRecent(old(store.files), m.chatId),
                                            userMessageForHistory, text)
  {
    parts := [];
    if text == "" && reference == "" {
      return false, parts;
    }
    var geminiApiKey := pool.GetKey(GeminiService);
    if !UsableKey(geminiApiKey) {
      return false, parts;
    }
    ImageGenReadKeeps(store.files, m.chatId);
    var chatHistory := store.GetMessageHistory(m.chatId, ImageGenTrack);
    var recentMessages := SliceFrom(chatHistory, -RecentTurns);
    parts := AssembleGenParts(folders, m.chatId, reference, recentMessages, userMessageForHistory, text);
    ok := true;
  }

  /**
   * `generateAndSaveImage` and what `executeWithRetry` does with its
   * result: a picture is stored, recorded and sent; an answer without one
   * is refused; anything else is left to the retry rule.
   */
  method GenerateAndSave(store: History.TurnStore, m: Incoming, folders0: Folders, env: GenEnv)
    returns (verdict: Verdict, folders: Folders, events: seq<Event>, ghost added: seq<History.Turn>)
    modifies store
    ensures verdict == Judge(env.response)
    ensures events == ReplyEvents(verdict, env)
    ensures verdict == Success ==>
      && env.response.Some? && Extract(env.response.value).Generated?
      && added == [GeneratedTurn(m, env, Drawn(env).text)]
      && store.files == History.SaveStep(old(store.files), m.chatId, ImageGenTrack, added[0])
      && folders == SaveFile(folders0, GeneratedDir(m.chatId), GeneratedFileName(env.imageId, Drawn(env).image.mimeType),
                             Drawn(env).image.data)
    ensures verdict != Success ==> added == [] && store.files == old(store.files) && folders == folders0
  {
    folders, events, added := folders0, [], [];
    if env.response.None? {
      return Failure, folders, events, added;
    }
    var e := ExtractImage(env.response.value);
    match e {
      case Generated(imagePart, textResponse) =>
        var imageId := env.imageId;
        folders := SaveFile(folders, GeneratedDir(m.chatId), GeneratedFileName(imageId, imagePart.mimeType),
                            imagePart.data);
        var historyResponse := GeneratedRecord(imageId, textResponse);
        store.SaveMessageToHistory(m.chatId, m.sender, "assistant", historyResponse, ImageGenTrack, env.answeredAt);
        added := [GeneratedTurn(m, env, textResponse)];
        return Success, folders, [StatusDeleted, ImageSent(imagePart.data, imagePart.mimeType, Caption)], added;
      case NoImage =>
        return Halt, folders, [StatusDeleted, Replied(BlockedText)], added;
      case _ =>
        return Failure, folders, events, added;
    }
  }

  /** One attempt of `executeWithRetry`. */
  method AttemptGen(pool: ApiKeys.ApiKeyPool, store: History.TurnStore, m: Incoming, reference: string,
                    text: string, userMessageForHistory: string, folders0: Folders, ghost saved0: seq<History.Turn>,
                    env: GenEnv)
    returns (verdict: Verdict, folders: Folders, events: seq<Event>, ghost saved: seq<History.Turn>)
    requires pool.Valid()
    modifies pool, store
    ensures pool.Valid()
    ensures GenAttempt(m, reference, text, userMessageForHistory,
                       GenWorld(old(pool.State()), old(store.files), folders0, saved0), env)
            == Tried(verdict, GenWorld(pool.State(), store.files, folders, saved), events)
  {
    var ok, parts := PrepareGen(pool, store, m, reference, text, userMessageForHistory, folders0);
    if !ok {
      return Failure, folders0, [], saved0;
    }
    var replies;
    ghost var added;
    verdict, folders, replies, added := GenerateAndSave(store, m, folders0, env);
    events := [ImageRequest(parts)] + replies;
    saved := saved0 + added;
    if verdict != Success {
      assert saved == saved0;
    }
  }

  /**
   * The upload step: download, re-encode and store the picture the
   * message carries or quotes.  The rejection is where the download throws.
   */
  method ProcessUpload(m: Incoming, folders0: Folders, upload: UploadEnv) returns (u: Upload)
    ensures u == PrepareUpload(m, folders0, upload)
  {
    var text := m.q;
    if m.imageMime.None? {
      return Accepted("", text, folders0);
    }
    if upload.download.None? {
      return Rejected;
    }
    var imageId := upload.uploadId;
    var compressed := Compress(upload.download.value, m.imageMime.value, upload.reencoded);
    var folders := SaveFile(folders0, UploadsDir(m.chatId), UploadFileName(imageId, compressed), compressed.data);
    if text == "" {
      text := UploadPrompt;
    }
    u := Accepted(UploadReference(imageId), text, folders);
  }

  /** `executeWithRetry` for `/g`. */
  method RetryGen(pool: ApiKeys.ApiKeyPool, store: History.TurnStore, m: Incoming, reference: string, text: string,
                  userMessageForHistory: string, folders0: Folders, ghost saved0: seq<History.Turn>,
                  events0: seq<Event>, oracle: nat -> GenEnv)
    returns (outcome: Outcome, folders: Folders, events: seq<Event>, attempts: nat, ghost saved: seq<History.Turn>)
    requires pool.Valid()
    modifies pool, store
    ensures pool.Valid()
    ensures RetryLoop<GenState>(GenAttempts(m, reference, text, userMessageForHistory, oracle), GenKeys, GenFailText,
                                GenWorld(old(pool.State()), old(store.files), folders0, saved0), events0, 0)
            == Run(outcome, GenWorld(pool.State(), store.files, folders, saved), events, attempts)
  {
    ghost var attempt := GenAttempts(m, reference, text, userMessageForHistory, oracle);
    ghost var total := RetryLoop<GenState>(attempt, GenKeys, GenFailText,
                                           GenWorld(pool.State(), store.files, folders0, saved0), events0, 0);
    folders, events, saved := folders0, events0, saved0;
    var retryCount := 0;
    while retryCount < MaxRetries
      invariant pool.Valid()
      invariant retryCount < MaxRetries
      invariant RetryLoop<GenState>(attempt, GenKeys, GenFailText, GenWorld(pool.State(), store.files, folders, saved),
                                    events, retryCount) == total
      decreases MaxRetries - retryCount
    {
      ghost var before := GenWorld(pool.State(), store.files, folders, saved);
      var verdict, newEvents;
      verdict, folders, newEvents, saved := AttemptGen(pool, store, m, reference, text, userMessageForHistory,
                                                       folders, saved, oracle(retryCount));
      ghost var t := Tried(verdict, GenWorld(pool.State(), store.files, folders, saved), newEvents);
      assert t == GenAttemptAt(m, reference, text, userMessageForHistory, oracle, before, retryCount);
      RetryNext<GenState>(attempt, GenKeys, GenFailText, before, events, retryCount, t);
      events := events + newEvents;
      if verdict == Success {
        return Delivered, folders, events, retryCount + 1, saved;
      } else if verdict == Halt {
        return Blocked, folders, events, retryCount + 1, saved;
      }
      assert GenKeys(t.state) == pool.GetKeyCount(GeminiService);
      retryCount := retryCount + 1;
      if retryCount >= MaxRetries || retryCount >= pool.GetKeyCount(GeminiService) {
        events := events + GiveUpEvents(GenFailText);
        return GaveUp, folders, events, retryCount, saved;
      }
      events := events + [StatusEdited(RetryText)];
      assert RetryLoop<GenState>(attempt, GenKeys, GenFailText, t.state, events, retryCount) == total;
    }
  }

  /** The `/g` command on the shared pool and history store. */
  method GenerateImage(pool: ApiKeys.ApiKeyPool, store: History.TurnStore, m: Incoming, folders0: Folders,
                       upload: UploadEnv, oracle: nat -> GenEnv)
    returns (outcome: Outcome, folders: Folders, events: seq<Event>, attempts: nat, ghost saved: seq<History.Turn>)
    requires pool.Valid()
    modifies pool, store
    ensures pool.Valid()
    ensures GenRun(m, old(pool.State()), old(store.files), folders0, upload, oracle)
            == Run(outcome, GenWorld(pool.State(), store.files, folders, saved), events, attempts)
  {
    events := [StatusSent(GeneratingText)];
    var u := ProcessUpload(m, folders0, upload);
    if u.Rejected? {
      events := events + [StatusDeleted, Replied(UploadFailText)];
      return UploadRejected, folders0, events, 0, [];
    }
    var userMessageForHistory := UserMessage(u.reference, m.q);
    store.SaveMessageToHistory(m.chatId, m.sender, "user", userMessageForHistory, ImageGenTrack, upload.savedAt);
    outcome, folders, events, attempts, saved :=
      RetryGen(pool, store, m, u.reference, u.text, userMessageForHistory, u.folders,
               [GenUserTurn(m, u.reference, upload)], events, oracle);
  }
}
