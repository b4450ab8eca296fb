/**
 * The request the `/g` command sends to the image model (sansekai.js,
 * `prepareImageGenRequest`): the uploaded picture, if it loads, then the
 * pictures earlier turns of the image conversation refer to, at most ten
 * pictures in all, then one text part holding the rendered conversation and
 * the instruction.
 */
module ImageGenContext {
  import opened Wrappers
  import opened Text
  import opened Attachments
  import opened ChatContext
  import History

  /** `MAX_CONTEXT_IMAGES`. */
  const MaxContextImages := 10

  const CapNote := "[Note: " + "Some previous images are not included in context due to limit of 10 images]"
  const GeneratedTag := "[GENERATED IMAGE:"
  const DefaultDescription := "an AI generated image"
  const UploadLead := "Please generate a new image based on this uploaded image and the description: "
  const PlainLead := "Please generate an image based on: "

  /**
   * The description `(.*)` captures after a generated-image tag, trimmed; an
   * empty capture falls back to the default wording.
   */
  function Description(content: string, m: TagMatch): string
    requires m.end <= |content|
  {
    var rest := LineRest(content, m.end);
    if rest != "" then Trim(rest) else DefaultDescription
  }

  /**
   * One turn of the `/g` history loop.  A turn mentioning an upload tag loads
   * that upload and reads `(Uploaded an image)`; otherwise an assistant turn
   * mentioning a generated-image tag loads that picture and reads as its
   * description; any other turn reads `Role: content`.  Pictures are looked
   * up in the chat's own directories.
   */
  function RenderGenTurn(folders: Folders, chatId: string, t: History.Turn): (r: RenderedTurn)
    ensures |r.line| > 0 && (r.line[0] == 'U' || r.line[0] == 'A')
  {
    var role := History.RoleLabel(t.role);
    assert role[0] == 'U' || role[0] == 'A';
    if Contains(t.content, UploadTag) then
      match FindTag(t.content, UploadTag)
      case Some(m) =>
        RenderedTurn(LoadUploadedImage(folders, UploadLabel + ":" + m.id, chatId),
                     role + ": (Uploaded an image) " + StripTag(t.content, UploadTag))
      case None =>
        RenderedTurn(None, role + ": " + ReplaceTag(t.content, UploadTag, "(Uploaded an image)"))
    else if t.role == "assistant" && Contains(t.content, GeneratedTag) then
      match FindTag(t.content, GeneratedTag)
      case Some(m) =>
        RenderedTurn(LoadGeneratedImage(folders, GeneratedLabel + ":" + m.id, chatId),
                     "Assistant: (Generated an image: " + Description(t.content, m) + ")")
      case None =>
        RenderedTurn(None, "Assistant: " + ReplaceTag(t.content, GeneratedTag, "(Generated an image)"))
    else RenderedTurn(None, role + ": " + t.content)
  }

  /** `loadGeneratedImageAsBase64(`GENERATED IMAGE:${imageId}`, chatId)` for captured digits. */
  lemma GeneratedLabelParts(folders: Folders, chatId: string, id: string)
    requires AllDigits(id)
    ensures LoadGeneratedImage(folders, GeneratedLabel + ":" + id, chatId)
            == LookupImage(folders, GeneratedDir(chatId), id)
  {
    LoadByDigits(folders, GeneratedDir(chatId), GeneratedLabel, id);
  }

  /** The historical image parts and narrative lines of the `/g` history loop. */
  datatype GenContext = GenContext(images: seq<Part>, lines: seq<string>)

  /** How the `/g` history loop renders a turn: `RenderGenTurn` in the chat's own folders. */
  function GenRender(folders: Folders, chatId: string): History.Turn -> RenderedTurn {
    (t: History.Turn) => RenderGenTurn(folders, chatId, t)
  }

  /**
   * What the `/g` history loop collects from the remaining turns when
   * `count` pictures are already in the request and turns render as
   * `render` says: skipped turns add nothing, a kept turn met with ten
   * pictures already present ends the walk with the truncation note, and any
   * other kept turn adds its line and its picture.
   */
  function GenWalk(render: History.Turn -> RenderedTurn, turns: seq<History.Turn>, current: string,
                   count: nat): (g: GenContext)
    ensures count <= MaxContextImages ==> count + |g.images| <= MaxContextImages
    ensures forall i :: 0 <= i < |g.images| ==> g.images[i].InlinePart?
    decreases |turns|
  {
    if turns == [] then GenContext([], [])
    else if IsCurrentTurn(turns[0], current) then GenWalk(render, turns[1..], current, count)
    else if count >= MaxContextImages then GenContext([], [CapNote])
    else
      var r := render(turns[0]);
      var rest := GenWalk(render, turns[1..], current, count + Count(r.image));
      GenContext(ImageParts(r.image) + rest.images, [r.line] + rest.lines)
  }

  /** The `/g` history loop over the chat's own pictures. */
  function GenHistory(folders: Folders, chatId: string, turns: seq<History.Turn>, current: string,
                      count: nat): GenContext
  {
    GenWalk(GenRender(folders, chatId), turns, current, count)
  }

  /** No rendered turn reads as the truncation note. */
  ghost predicate AvoidsNote(render: History.Turn -> RenderedTurn) {
    forall t :: render(t).line != CapNote
  }

  /** A `/g` turn reads `User: …` or `Assistant: …`, never as the truncation note. */
  lemma GenRenderAvoidsNote(folders: Folders, chatId: string)
    ensures AvoidsNote(GenRender(folders, chatId))
  {
    forall t: History.Turn
      ensures RenderGenTurn(folders, chatId, t).line != CapNote
    {
      assert CapNote[0] == '[';
    }
  }

  /** No line but the last is the truncation note. */
  predicate NoteOnlyLast(lines: seq<string>) {
    forall i :: 0 <= i < |lines| - 1 ==> lines[i] != CapNote
  }

  /** The truncation note, when the walk adds it, is its last line. */
  lemma {:induction false} NoteComesLast(render: History.Turn -> RenderedTurn, turns: seq<History.Turn>,
                                         current: string, count: nat)
    requires AvoidsNote(render)
    ensures NoteOnlyLast(GenWalk(render, turns, current, count).lines)
    decreases |turns|
  {
    var g := GenWalk(render, turns, current, count);
    if turns != [] && IsCurrentTurn(turns[0], current) {
      NoteComesLast(render, turns[1..], current, count);
      assert g == GenWalk(render, turns[1..], current, count);
    } else if turns != [] && count < MaxContextImages {
      var r := render(turns[0]);
      NoteComesLast(render, turns[1..], current, count + Count(r.image));
      var rest := GenWalk(render, turns[1..], current, count + Count(r.image));
      assert g.lines == [r.line] + rest.lines;
      forall i | 0 <= i < |g.lines| - 1
        ensures g.lines[i] != CapNote
      {
        if i == 0 {
          assert g.lines[0] == r.line;
        } else {
          assert g.lines[i] == rest.lines[i - 1];
        }
      }
    }
  }

  /** Whether some turn takes part in the context. */
  predicate AnyKept(turns: seq<History.Turn>, current: string) {
    exists i :: 0 <= i < |turns| && !IsCurrentTurn(turns[i], current)
  }

  /**
   * The cap: once ten pictures are in the request, the next kept turn is not
   * rendered; exactly one truncation note is added instead and the walk
   * stops.  Without a kept turn left, nothing is added.
   */
  lemma {:induction false} CapStopsWalk(render: History.Turn -> RenderedTurn, turns: seq<History.Turn>,
                                        current: string, count: nat)
    requires count >= MaxContextImages
    ensures GenWalk(render, turns, current, count)
            == if AnyKept(turns, current) then GenContext([], [CapNote]) else GenContext([], [])
    decreases |turns|
  {
    if turns != [] && IsCurrentTurn(turns[0], current) {
      CapStopsWalk(render, turns[1..], current, count);
      if AnyKept(turns, current) {
        var i :| 0 <= i < |turns| && !IsCurrentTurn(turns[i], current);
        assert turns[1..][i - 1] == turns[i];
      }
      if AnyKept(turns[1..], current) {
        var i :| 0 <= i < |turns[1..]| && !IsCurrentTurn(turns[1..][i], current);
        assert turns[i + 1] == turns[1..][i];
      }
    } else if turns != [] {
      assert !IsCurrentTurn(turns[0], current);
    }
  }

  /**
   * Where the `/g` history loop stands before turn `i`: what it collected,
   * followed by what the walk still collects from turn `i` on, is the whole
   * walk.
   */
  ghost predicate Collected(render: History.Turn -> RenderedTurn, recent: seq<History.Turn>, current: string,
                            count0: nat, i: nat, images: seq<Part>, lines: seq<string>, count: nat)
    requires i <= |recent|
  {
    var pending := GenWalk(render, recent[i..], current, count);
    var total := GenWalk(render, recent, current, count0);
    && count == count0 + |images|
    && images + pending.images == total.images
    && lines + pending.lines == total.lines
  }

  /**
   * `prepareImageGenRequest`'s history loop, with its early `break` once the
   * cap is reached.  Returns the pictures and lines collected and the new
   * picture count.
   */
  method CollectGenHistory(folders: Folders, chatId: string, recent: seq<History.Turn>,
                           current: string, count0: nat)
    returns (images: seq<Part>, lines: seq<string>, count: nat)
    ensures GenContext(images, lines) == GenHistory(folders, chatId, recent, current, count0)
    ensures count == count0 + |images|
  {
    images, lines, count := CollectTurns(GenRender(folders, chatId), recent, current, count0);
  }

  /** The same loop, for turns rendered as `render` says. */
  method CollectTurns(render: History.Turn -> RenderedTurn, recent: seq<History.Turn>,
                      current: string, count0: nat)
    returns (images: seq<Part>, lines: seq<string>, count: nat)
    ensures GenContext(images, lines) == GenWalk(render, recent, current, count0)
    ensures count == count0 + |images|
  {
    images, lines, count := [], [], count0;
    var i := 0;
    CollectStart(render, recent, current, count0);
    while i < |recent|
      invariant 0 <= i <= |recent|
      invariant Collected(render, recent, current, count0, i, images, lines, count)
    {
      var msg := recent[i];
      if IsCurrentTurn(msg, current) {
        CollectSkip(render, recent, current, count0, i, images, lines, count);
        i := i + 1;
        continue;
      }
      if count >= MaxContextImages {
        CollectCap(render, recent, current, count0, i, images, lines, count);
        lines := lines + [CapNote];
        break;
      }
      var rendered := render(msg);
      CollectKeep(render, recent, current, count0, i, images, lines, count, rendered);
      images := images + ImageParts(rendered.image);
      count := count + Count(rendered.image);
      lines := lines + [rendered.line];
      i := i + 1;
    }
    if i == |recent| {
      CollectEnd(render, recent, current, count0, images, lines, count);
    }
  }

  lemma CollectStart(render: History.Turn -> RenderedTurn, recent: seq<History.Turn>, current: string, count0: nat)
    ensures Collected(render, recent, current, count0, 0, [], [], count0)
  {
    assert recent[0..] == recent;
  }

  lemma CollectSkip(render: History.Turn -> RenderedTurn, recent: seq<History.Turn>, current: string, count0: nat,
                    i: nat, images: seq<Part>, lines: seq<string>, count: nat)
    requires i < |recent| && IsCurrentTurn(recent[i], current)
    requires Collected(render, recent, current, count0, i, images, lines, count)
    ensures Collected(render, recent, current, count0, i + 1, images, lines, count)
  {
    WalkStep(render, recent[i..], current, count);
    assert recent[i..][1..] == recent[i + 1..];
  }

  lemma CollectCap(render: History.Turn -> RenderedTurn, recent: seq<History.Turn>, current: string, count0: nat,
                   i: nat, images: seq<Part>, lines: seq<string>, count: nat)
    requires i < |recent| && !IsCurrentTurn(recent[i], current) && count >= MaxContextImages
    requires Collected(render, recent, current, count0, i, images, lines, count)
    ensures GenContext(images, lines + [CapNote]) == GenWalk(render, recent, current, count0)
    ensures count == count0 + |images|
  {
    WalkStep(render, recent[i..], current, count);
    assert images + [] == images;
  }

  lemma CollectKeep(render: History.Turn -> RenderedTurn, recent: seq<History.Turn>, current: string, count0: nat,
                    i: nat, images: seq<Part>, lines: seq<string>, count: nat, r: RenderedTurn)
    requires i < |recent| && !IsCurrentTurn(recent[i], current) && count < MaxContextImages
    requires r == render(recent[i])
    requires Collected(render, recent, current, count0, i, images, lines, count)
    ensures Collected(render, recent, current, count0, i + 1, images + ImageParts(r.image),
                      lines + [r.line], count + Count(r.image))
  {
    WalkStep(render, recent[i..], current, count);
    assert recent[i..][0] == recent[i] && recent[i..][1..] == recent[i + 1..];
    var pending := GenWalk(render, recent[i..], current, count);
    var rest := GenWalk(render, recent[i + 1..], current, count + Count(r.image));
    assert pending.images == ImageParts(r.image) + rest.images && pending.lines == [r.line] + rest.lines;
    assert images + (ImageParts(r.image) + rest.images) == (images + ImageParts(r.image)) + rest.images;
    assert lines + ([r.line] + rest.lines) == (lines + [r.line]) + rest.lines;
  }

  lemma CollectEnd(render: History.Turn -> RenderedTurn, recent: seq<History.Turn>, current: string, count0: nat,
                   images: seq<Part>, lines: seq<string>, count: nat)
    requires Collected(render, recent, current, count0, |recent|, images, lines, count)
    ensures GenContext(images, lines) == GenWalk(render, recent, current, count0)
  {
    assert recent[|recent|..] == [];
    assert images + [] == images && lines + [] == lines;
  }

  /** One step of the walk over a non-empty list of turns. */
  lemma WalkStep(render: History.Turn -> RenderedTurn, turns: seq<History.Turn>, current: string, count: nat)
    requires turns != []
    ensures var g := GenWalk(render, turns, current, count);
      var r := render(turns[0]);
      g == if IsCurrentTurn(turns[0], current) then GenWalk(render, turns[1..], current, count)
           else if count >= MaxContextImages then GenContext([], [CapNote])
           else var rest := GenWalk(render, turns[1..], current, count + Count(r.image));
             GenContext(ImageParts(r.image) + rest.images, [r.line] + rest.lines)
  {
  }

  /** The instruction that follows the conversation. */
  function PromptLead(hasUpload: bool): string {
    if hasUpload then UploadLead else PlainLead
  }

  /** `promptWithContext`: the conversation, when there are recent turns, then the instruction and the text. */
  function GenPrompt(hasRecent: bool, lines: seq<string>, hasUpload: bool, text: string): string {
    if hasRecent then "Previous conversation:\n" + Join(lines, "\n") + "\n\n" + PromptLead(hasUpload) + text
    else PromptLead(hasUpload) + text
  }

  /** The uploaded picture that opens the request, when there is an upload and it loads. */
  function UploadImage(folders: Folders, chatId: string, uploadReference: string): Option<ImageData> {
    if uploadReference != "" then LoadUploadedImage(folders, uploadReference, chatId) else None
  }

  /** The parts of one `/g` request. */
  function GenRequestParts(folders: Folders, chatId: string, uploadReference: string,
                           recent: seq<History.Turn>, current: string, text: string): seq<Part>
  {
    var upload := UploadImage(folders, chatId, uploadReference);
    var g := if |recent| > 0 then GenHistory(folders, chatId, recent, current, Count(upload))
             else GenContext([], []);
    ImageParts(upload) + g.images
      + [TextPart(GenPrompt(|recent| > 0, g.lines, uploadReference != "", text))]
  }

  /**
   * A `/g` request holds at most ten pictures, the upload included: every
   * part but the last is a picture and the last is the text prompt.
   */
  lemma GenRequestBounded(folders: Folders, chatId: string, uploadReference: string,
                          recent: seq<History.Turn>, current: string, text: string)
    ensures var parts := GenRequestParts(folders, chatId, uploadReference, recent, current, text);
      && 1 <= |parts| <= MaxContextImages + 1
      && parts[|parts| - 1].TextPart?
      && forall i :: 0 <= i < |parts| - 1 ==> parts[i].InlinePart?
  {
  }

  /** `prepareImageGenRequest` from the upload to the text part. */
  method AssembleGenParts(folders: Folders, chatId: string, uploadReference: string,
                          recent: seq<History.Turn>, current: string, text: string)
    returns (parts: seq<Part>)
    ensures parts == GenRequestParts(folders, chatId, uploadReference, recent, current, text)
  {
    parts := [];
    var contextImageCount: nat := 0;
    ghost var upload := UploadImage(folders, chatId, uploadReference);
    if uploadReference != "" {
      var uploaded := LoadUploadedImage(folders, uploadReference, chatId);
      if uploaded.Some? {
        parts := parts + ImageParts(uploaded);
        contextImageCount := contextImageCount + 1;
      }
    }
    assert parts == ImageParts(upload) && contextImageCount == Count(upload);
    var promptWithContext := text;
    var lead := PromptLead(uploadReference != "");
    if |recent| > 0 {
      var images, lines, count := CollectGenHistory(folders, chatId, recent, current, contextImageCount);
      parts := parts + images;
      promptWithContext := "Previous conversation:\n" + Join(lines, "\n") + "\n\n" + lead + text;
      assert promptWithContext == GenPrompt(true, lines, uploadReference != "", text);
    } else {
      promptWithContext := lead + text;
      assert parts == parts + [];
    }
    parts := parts + [TextPart(promptWithContext)];
  }
}
