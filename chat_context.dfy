/**
 * The request the `/a` command sends to the chat model (sansekai.js,
 * `prepareRequest` and the `contents` list of `executeWithRetry`): earlier
 * turns of the chat are rendered into a narrative, the pictures they refer to
 * are loaded back as inline parts, and everything is merged with the parts of
 * the current message.
 */
module ChatContext {
  import opened Wrappers
  import opened Text
  import opened Attachments
  import History

  /** One request part: inline image bytes or text. */
  datatype Part = InlinePart(data: Bytes, mimeType: string) | TextPart(text: string)

  /** One entry of the `contents` list: a role and its parts. */
  datatype Content = Content(role: string, parts: seq<Part>)

  const AttachedTag := "[IMAGE ATTACHED:"

  /** How many of the latest turns `/a` (and `/g`) look back on: `slice(-30)`. */
  const RecentTurns := 30

  /** The image part for a loaded picture, if there is one. */
  function ImageParts(image: Option<ImageData>): (parts: seq<Part>)
    ensures |parts| == Count(image)
  {
    match image
    case None => []
    case Some(img) => [InlinePart(img.data, img.mimeType)]
  }

  /**
   * The turn left out of the context: a user turn whose content equals the
   * current history message, which leaves out every identical user turn.
   */
  predicate IsCurrentTurn(t: History.Turn, current: string) {
    t.content == current && t.role == "user"
  }

  /** A history record of `/a` for the user: the attachment tag, if any, then the text. */
  function UserRecord(imageId: Option<nat>, q: string): string {
    match imageId
    case None => q
    case Some(id) => AttachedTag + Decimal(id) + "] " + q
  }

  /** The picture a rendered turn contributes and the line it adds to the narrative. */
  datatype RenderedTurn = RenderedTurn(image: Option<ImageData>, line: string)

  /** `loadImageAsBase64(`IMAGE ATTACHED:${imageId}`, sender)` for captured digits. */
  lemma LoadAttached(folders: Folders, id: string, sender: string)
    requires AllDigits(id)
    ensures LoadImage(folders, AttachedLabel + ":" + id, sender)
            == LookupImage(folders, ChatImagesDir(sender), id)
  {
    LoadByDigits(folders, ChatImagesDir(sender), AttachedLabel, id);
  }

  /** One turn of the `/a` history loop. */
  function RenderChatTurn(folders: Folders, t: History.Turn): RenderedTurn {
    var role := History.RoleLabel(t.role);
    if !Contains(t.content, AttachedTag) then RenderedTurn(None, role + ": " + t.content)
    else
      match FindTag(t.content, AttachedTag)
      case None => RenderedTurn(None, role + ": " + t.content)
      case Some(m) =>
        match LoadImage(folders, AttachedLabel + ":" + m.id, t.sender)
        case Some(img) =>
          RenderedTurn(Some(img), role + ": [Image] " + StripTag(t.content, AttachedTag))
        case None =>
          RenderedTurn(None, role + ": " + ReplaceTag(t.content, AttachedTag, "[Image]"))
  }

  /**
   * The three ways a turn renders.  A turn whose first attachment tag names a
   * stored picture contributes that picture and reads `Role: [Image] <rest>`;
   * one whose picture is gone contributes nothing and reads with its first tag
   * replaced by `[Image]`; a turn without a tag reads `Role: content`.  No
   * case fails.
   */
  lemma RenderChatTurnCases(folders: Folders, t: History.Turn)
    ensures var r := RenderChatTurn(folders, t);
      var role := History.RoleLabel(t.role);
      match FindTag(t.content, AttachedTag)
      case None => r == RenderedTurn(None, role + ": " + t.content)
      case Some(m) =>
        var img := LookupImage(folders, ChatImagesDir(t.sender), m.id);
        r == if img.Some? then RenderedTurn(img, role + ": [Image] " + StripTag(t.content, AttachedTag))
             else RenderedTurn(None, role + ": " + ReplaceTag(t.content, AttachedTag, "[Image]"))
  {
    match FindTag(t.content, AttachedTag)
    case None =>
    case Some(m) =>
      FoundTagContained(t.content, AttachedTag);
      LoadAttached(folders, m.id, t.sender);
  }

  /**
   * A user record written by `/a` renders back as its text: with the stored
   * attachment as an image part and `[Image]` in front, or without either.
   */
  lemma UserRecordRenders(folders: Folders, imageId: Option<nat>, q: string, sender: string, timestamp: string)
    requires FindTag(q, AttachedTag).None?
    ensures var r := RenderChatTurn(folders, History.Turn(timestamp, "user", UserRecord(imageId, q), sender));
      match imageId
      case None => r == RenderedTurn(None, "User: " + q)
      case Some(id) =>
        var img := LookupImage(folders, ChatImagesDir(sender), Decimal(id));
        r == if img.Some? then RenderedTurn(img, "User: [Image] " + TrimStart(q))
             else RenderedTurn(None, "User: [Image] " + q)
  {
    match imageId {
      case None =>
        RenderChatTurnCases(folders, History.Turn(timestamp, "user", q, sender));
      case Some(n) =>
        AttachedRecordRenders(folders, n, q, sender, timestamp);
    }
  }

  lemma AttachedRecordRenders(folders: Folders, n: nat, q: string, sender: string, timestamp: string)
    ensures var t := History.Turn(timestamp, "user", UserRecord(Some(n), q), sender);
      var img := LookupImage(folders, ChatImagesDir(sender), Decimal(n));
      RenderChatTurn(folders, t)
        == if img.Some? then RenderedTurn(img, "User: [Image] " + TrimStart(q))
           else RenderedTurn(None, "User: [Image] " + q)
  {
    var content := UserRecord(Some(n), q);
    AttachedRecordParts(n, q);
    RenderChatTurnCases(folders, History.Turn(timestamp, "user", content, sender));
    assert History.RoleLabel("user") == "User";
    UserImageLine(q);
  }

  /** The tag of a user record is found at its front; stripping or replacing it leaves the text. */
  lemma AttachedRecordParts(n: nat, q: string)
    ensures var c := UserRecord(Some(n), q);
      && Contains(c, AttachedTag)
      && FindTag(c, AttachedTag).Some? && FindTag(c, AttachedTag).value.id == Decimal(n)
      && StripTag(c, AttachedTag) == TrimStart(q)
      && ReplaceTag(c, AttachedTag, "[Image]") == "[Image]" + (" " + q)
  {
    var id := Decimal(n);
    var rest := " " + q;
    var content := AttachedTag + id + "]" + rest;
    assert "] " + q == "]" + rest;
    assert UserRecord(Some(n), q) == (AttachedTag + id) + ("] " + q);
    assert UserRecord(Some(n), q) == content;
    TagAtFront(AttachedTag, id, rest);
    FoundTagContained(content, AttachedTag);
    StripAtFront(AttachedTag, id, rest);
    ReplaceAtFront(AttachedTag, id, rest, "[Image]");
    assert TrimStart(rest) == TrimStart(q) by {
      assert rest[1..] == q;
    }
  }

  lemma UserImageLine(q: string)
    ensures "User" + ": [Image] " == "User: [Image] "
    ensures "User" + ": " + ("[Image]" + (" " + q)) == "User: [Image] " + q
  {
    assert "User" + ": " + ("[Image]" + (" " + q)) == ("User" + ": " + "[Image]" + " ") + q;
  }

  /** The history turns that take part in the context, in order. */
  function Kept(turns: seq<History.Turn>, current: string): (kept: seq<History.Turn>)
    ensures |kept| <= |turns|
    decreases |turns|
  {
    if turns == [] then []
    else
      var init := Kept(turns[..|turns| - 1], current);
      var t := turns[|turns| - 1];
      if IsCurrentTurn(t, current) then init else init + [t]
  }

  /** The kept turns are exactly the turns other than the current message's own record. */
  lemma {:induction false} KeptMembers(turns: seq<History.Turn>, current: string)
    ensures forall t :: t in Kept(turns, current) <==> t in turns && !IsCurrentTurn(t, current)
    decreases |turns|
  {
    if turns != [] {
      var last := turns[|turns| - 1];
      KeptMembers(turns[..|turns| - 1], current);
      assert turns == turns[..|turns| - 1] + [last];
    }
  }

  /** The historical image parts and narrative lines of the `/a` history loop. */
  datatype HistoryContext = HistoryContext(images: seq<Part>, lines: seq<string>)

  /** What the history loop has collected after the given turns. */
  function CollectHistory(folders: Folders, turns: seq<History.Turn>, current: string): (h: HistoryContext)
    decreases |turns|
  {
    if turns == [] then HistoryContext([], [])
    else
      var h := CollectHistory(folders, turns[..|turns| - 1], current);
      var t := turns[|turns| - 1];
      if IsCurrentTurn(t, current) then h
      else
        var r := RenderChatTurn(folders, t);
        HistoryContext(h.images + ImageParts(r.image), h.lines + [r.line])
  }

  /** The image parts a sequence of turns contributes, in order. */
  function ImagesOf(folders: Folders, turns: seq<History.Turn>): seq<Part>
    decreases |turns|
  {
    if turns == [] then []
    else ImagesOf(folders, turns[..|turns| - 1]) + ImageParts(RenderChatTurn(folders, turns[|turns| - 1]).image)
  }

  /**
   * The loop renders exactly the kept turns, one line each in order, and
   * loads their pictures in the same order; a turn without a loadable
   * picture adds no part, so there are never more parts than lines.
   */
  lemma {:induction false} CollectHistoryKept(folders: Folders, turns: seq<History.Turn>, current: string)
    ensures var h := CollectHistory(folders, turns, current);
      var kept := Kept(turns, current);
      && |h.lines| == |kept|
      && (forall i :: 0 <= i < |kept| ==> h.lines[i] == RenderChatTurn(folders, kept[i]).line)
      && h.images == ImagesOf(folders, kept)
      && |h.images| <= |h.lines|
    decreases |turns|
  {
    if turns != [] {
      var init := turns[..|turns| - 1];
      var t := turns[|turns| - 1];
      CollectHistoryKept(folders, init, current);
      var kept0 := Kept(init, current);
      if !IsCurrentTurn(t, current) {
        var kept := kept0 + [t];
        assert kept[..|kept| - 1] == kept0;
      }
    }
  }

  /** `Previous conversation:` followed by the lines, then the new message. */
  function Narrative(lines: seq<string>, text: string): string {
    "Previous conversation:\n" + Join(lines, "\n") + "\n\nUser's new message: " + text
  }

  /** `contextParts`: historical images then the narrative, or just the text without history. */
  function ContextParts(folders: Folders, recent: seq<History.Turn>, current: string, text: string): seq<Part> {
    if |recent| > 0 then
      var h := CollectHistory(folders, recent, current);
      h.images + [TextPart(Narrative(h.lines, text))]
    else [TextPart(text)]
  }

  /** The parts of the current message: its compressed picture, if any, then its text. */
  function CurrentParts(image: Option<ImageData>, text: string): seq<Part> {
    ImageParts(image) + [TextPart(text)]
  }

  /**
   * The merge: context parts replace the current text part when there are
   * more than one of them (that is, when a historical image loaded), and are
   * ignored otherwise.
   */
  function MergeParts(parts: seq<Part>, contextParts: seq<Part>): seq<Part> {
    if |contextParts| > 1 then
      if |parts| > 1 then parts[..|parts| - 1] + contextParts else contextParts
    else parts
  }

  /** The parts `/a` sends for the current message. */
  function RequestParts(folders: Folders, recent: seq<History.Turn>, current: string,
                        image: Option<ImageData>, text: string): seq<Part> {
    MergeParts(CurrentParts(image, text), ContextParts(folders, recent, current, text))
  }

  /**
   * Part ordering: when some historical picture loads, the current picture
   * comes first, then the historical pictures in chronological order, then
   * the narrative; otherwise the narrative is dropped and the parts are the
   * current picture and the plain text.
   */
  lemma RequestPartOrder(folders: Folders, recent: seq<History.Turn>, current: string,
                         image: Option<ImageData>, text: string)
    ensures var h := CollectHistory(folders, recent, current);
      var all := RequestParts(folders, recent, current, image, text);
      && (|recent| > 0 && h.images != [] ==>
            all == ImageParts(image) + h.images + [TextPart(Narrative(h.lines, text))])
      && (|recent| == 0 || h.images == [] ==> all == CurrentParts(image, text))
  {
    var h := CollectHistory(folders, recent, current);
    var parts := CurrentParts(image, text);
    var context := ContextParts(folders, recent, current, text);
    assert RequestParts(folders, recent, current, image, text) == MergeParts(parts, context);
    if |recent| > 0 && h.images != [] {
      assert context == h.images + [TextPart(Narrative(h.lines, text))];
      assert |context| > 1;
      if |parts| > 1 {
        assert parts[..|parts| - 1] == ImageParts(image);
      } else {
        assert ImageParts(image) == [];
      }
    } else {
      assert |context| == 1;
    }
  }

  /** `msg.role === 'assistant' ? 'model' : msg.role`. */
  function ModelRole(role: string): string {
    if role == "assistant" then "model" else role
  }

  /** Each kept turn as a text entry under its model role, in order. */
  function TurnContents(kept: seq<History.Turn>): seq<Content>
    decreases |kept|
  {
    if kept == [] then []
    else
      var t := kept[|kept| - 1];
      TurnContents(kept[..|kept| - 1]) + [Content(ModelRole(t.role), [TextPart(t.content)])]
  }

  /** The `contents` list of one `/a` attempt: the kept turns, then the current message with all its parts. */
  function ChatContents(recent: seq<History.Turn>, current: string, allParts: seq<Part>): seq<Content> {
    TurnContents(Kept(recent, current)) + [Content("user", allParts)]
  }

  /** Entry `i` of the contents is kept turn `i`, under its model role and with its text only. */
  lemma {:induction false} TurnContentsPointwise(kept: seq<History.Turn>)
    ensures |TurnContents(kept)| == |kept|
    ensures forall i :: 0 <= i < |kept| ==>
      TurnContents(kept)[i] == Content(ModelRole(kept[i].role), [TextPart(kept[i].content)])
    decreases |kept|
  {
    if kept != [] {
      TurnContentsPointwise(kept[..|kept| - 1]);
    }
  }

  /**
   * The `contents` list of one `/a` attempt: each kept turn as a text entry
   * under its model role, in order, and last the current message with all
   * its parts.
   */
  method BuildContents(recent: seq<History.Turn>, current: string, allParts: seq<Part>)
    returns (contents: seq<Content>)
    ensures contents == ChatContents(recent, current, allParts)
  {
    contents := [];
    var i := 0;
    while i < |recent|
      invariant 0 <= i <= |recent|
      invariant contents == TurnContents(Kept(recent[..i], current))
    {
      var msg := recent[i];
      assert recent[..i + 1][..i] == recent[..i];
      ghost var kept := Kept(recent[..i], current);
      if !IsCurrentTurn(msg, current) {
        assert (kept + [msg])[..|kept + [msg]| - 1] == kept;
        contents := contents + [Content(ModelRole(msg.role), [TextPart(msg.content)])];
      }
      i := i + 1;
    }
    assert recent[..i] == recent;
    contents := contents + [Content("user", allParts)];
  }

  /**
   * `prepareRequest` from the history loop to the merge: walks the recent
   * turns once, collecting historical pictures and narrative lines, and
   * merges them with the parts of the current message.
   */
  method AssembleParts(folders: Folders, recent: seq<History.Turn>, current: string,
                       image: Option<ImageData>, text: string)
    returns (allParts: seq<Part>)
    ensures allParts == RequestParts(folders, recent, current, image, text)
  {
    var parts := ImageParts(image) + [TextPart(text)];
    var contextParts: seq<Part> := [];
    if |recent| > 0 {
      var historyWithImages: seq<string> := [];
      var i := 0;
      while i < |recent|
        invariant 0 <= i <= |recent|
        invariant HistoryContext(contextParts, historyWithImages)
                  == CollectHistory(folders, recent[..i], current)
      {
        var msg := recent[i];
        assert recent[..i + 1][..i] == recent[..i];
        if !IsCurrentTurn(msg, current) {
          var rendered := RenderChatTurn(folders, msg);
          contextParts := contextParts + ImageParts(rendered.image);
          historyWithImages := historyWithImages + [rendered.line];
        }
        i := i + 1;
      }
      assert recent[..i] == recent;
      contextParts := contextParts + [TextPart(Narrative(historyWithImages, text))];
    } else {
      contextParts := [TextPart(text)];
    }
    allParts := parts;
    if |contextParts| > 1 {
      if |parts| > 1 {
        allParts := allParts[..|allParts| - 1];
        allParts := allParts + contextParts;
      } else {
        allParts := contextParts;
      }
    }
  }
}
