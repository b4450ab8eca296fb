/**
 * What `/g` does with the image model's answer (sansekai.js,
 * `generateAndSaveImage`): it finds the picture and the text in the first
 * candidate, whichever of the shapes the answer takes, and records a
 * generated picture in the image conversation as `[GENERATED IMAGE:<id>]`
 * followed by the text.  Optional fields of the answer are `Option`s; a
 * present object or array is truthy in JavaScript, a string only when it
 * is not empty.
 */
module ImageGenResponse {
  import opened Wrappers
  import opened Text
  import opened Attachments
  import opened ChatContext
  import opened ImageGenContext
  import History

  /** One element of a `parts` array: `{inlineData}` or `{text}`. */
  datatype ResponsePart = ResponsePart(inlineData: Option<ImageData>, text: Option<string>)

  /** `candidate.content`. */
  datatype CandidateContent = CandidateContent(parts: Option<seq<ResponsePart>>,
                                               inlineData: Option<ImageData>, text: Option<string>)

  datatype Candidate = Candidate(content: Option<CandidateContent>, text: Option<string>,
                                 parts: Option<seq<ResponsePart>>, inlineData: Option<ImageData>)

  datatype Response = Response(candidates: Option<seq<Candidate>>)

  /** A string field the code tests with `if (x.text)`. */
  predicate Truthy(text: Option<string>) {
    text.Some? && text.value != ""
  }

  /** The picture the parts loop ends with: that of the last part carrying one. */
  function LastImage(parts: seq<ResponsePart>): Option<ImageData>
    decreases |parts|
  {
    if parts == [] then None
    else if parts[|parts| - 1].inlineData.Some? then parts[|parts| - 1].inlineData
    else LastImage(parts[..|parts| - 1])
  }

  /** The text the parts loop accumulates: the non-empty texts of parts without a picture. */
  function TextsOf(parts: seq<ResponsePart>): string
    decreases |parts|
  {
    if parts == [] then ""
    else
      var p := parts[|parts| - 1];
      TextsOf(parts[..|parts| - 1]) + (if p.inlineData.None? && Truthy(p.text) then p.text.value else "")
  }

  /** No picture is found exactly when no part carries one. */
  lemma {:induction false} LastImageNone(parts: seq<ResponsePart>)
    ensures LastImage(parts).None? <==> forall i :: 0 <= i < |parts| ==> parts[i].inlineData.None?
    decreases |parts|
  {
    if parts != [] {
      var init := parts[..|parts| - 1];
      LastImageNone(init);
      forall i | 0 <= i < |init| ensures init[i] == parts[i] { }
    }
  }

  /** The picture found is that of the part after which no part carries one. */
  lemma {:induction false} LastImageIsLast(parts: seq<ResponsePart>, i: nat)
    requires i < |parts| && parts[i].inlineData.Some?
    requires forall j :: i < j < |parts| ==> parts[j].inlineData.None?
    ensures LastImage(parts) == parts[i].inlineData
    decreases |parts|
  {
    if i < |parts| - 1 {
      var init := parts[..|parts| - 1];
      assert parts[|parts| - 1].inlineData.None?;
      assert init[i] == parts[i];
      forall j | i < j < |init| ensures init[j].inlineData.None? {
        assert init[j] == parts[j];
      }
      LastImageIsLast(init, i);
    }
  }

  /** Reading two lists of parts one after the other: the later picture wins, the texts concatenate. */
  lemma ScanAppend(a: seq<ResponsePart>, b: seq<ResponsePart>)
    ensures LastImage(a + b) == if LastImage(b).Some? then LastImage(b) else LastImage(a)
    ensures TextsOf(a + b) == TextsOf(a) + TextsOf(b)
  {
    LastImageAppend(a, b);
    TextsAppend(a, b);
  }

  lemma {:induction false} LastImageAppend(a: seq<ResponsePart>, b: seq<ResponsePart>)
    ensures LastImage(a + b) == if LastImage(b).Some? then LastImage(b) else LastImage(a)
    decreases |b|
  {
    if b == [] {
      assert a + b == a;
    } else {
      var ab := a + b;
      var init := b[..|b| - 1];
      assert ab[|ab| - 1] == b[|b| - 1];
      assert ab[..|ab| - 1] == a + init;
      LastImageAppend(a, init);
    }
  }

  lemma {:induction false} TextsAppend(a: seq<ResponsePart>, b: seq<ResponsePart>)
    ensures TextsOf(a + b) == TextsOf(a) + TextsOf(b)
    decreases |b|
  {
    if b == [] {
      assert a + b == a;
    } else {
      var ab := a + b;
      var init := b[..|b| - 1];
      var p := b[|b| - 1];
      var x := if p.inlineData.None? && Truthy(p.text) then p.text.value else "";
      assert ab[|ab| - 1] == p;
      assert ab[..|ab| - 1] == a + init;
      assert TextsOf(ab) == TextsOf(a + init) + x;
      assert TextsOf(b) == TextsOf(init) + x;
      TextsAppend(a, init);
      assert TextsOf(a) + TextsOf(init) + x == TextsOf(a) + (TextsOf(init) + x);
    }
  }

  /**
   * `for (const part of parts)`: keeps the last picture and appends the
   * text of every part that has text and no picture.
   */
  method ScanParts(parts: seq<ResponsePart>) returns (imagePart: Option<ImageData>, textResponse: string)
    ensures imagePart == LastImage(parts) && textResponse == TextsOf(parts)
  {
    imagePart, textResponse := None, "";
    var i := 0;
    while i < |parts|
      invariant 0 <= i <= |parts|
      invariant imagePart == LastImage(parts[..i]) && textResponse == TextsOf(parts[..i])
    {
      var part := parts[i];
      assert parts[..i + 1][..i] == parts[..i];
      if part.inlineData.Some? {
        imagePart := part.inlineData;
      } else if Truthy(part.text) {
        textResponse := textResponse + part.text.value;
      }
      i := i + 1;
    }
    assert parts[..i] == parts;
  }

  /** The picture and text read from one candidate. */
  datatype Scan = Scan(image: Option<ImageData>, text: string)

  /**
   * The candidate shapes in the order the code tries them; `None` is the
   * shape it rejects as unexpected.  Under `content`, a `parts` array wins
   * over `inlineData`, which wins over `text`; on the candidate itself a
   * non-empty `text` is tried before `parts` and `inlineData`.
   */
  function ScanCandidate(c: Candidate): Option<Scan> {
    if c.content.Some? then
      var content := c.content.value;
      if content.parts.Some? then Some(Scan(LastImage(content.parts.value), TextsOf(content.parts.value)))
      else if content.inlineData.Some? then Some(Scan(content.inlineData, ""))
      else if Truthy(content.text) then Some(Scan(None, content.text.value))
      else Some(Scan(None, ""))
    else if Truthy(c.text) then Some(Scan(None, c.text.value))
    else if c.parts.Some? then Some(Scan(LastImage(c.parts.value), TextsOf(c.parts.value)))
    else if c.inlineData.Some? then Some(Scan(c.inlineData, ""))
    else None
  }

  /** How `generateAndSaveImage` reads an answer: one of its three errors, or a picture and text. */
  datatype Extraction = NoCandidates | UnexpectedShape | NoImage | Generated(image: ImageData, text: string)

  function Extract(resp: Response): Extraction {
    if resp.candidates.None? || resp.candidates.value == [] then NoCandidates
    else
      match ScanCandidate(resp.candidates.value[0])
      case None => UnexpectedShape
      case Some(scan) => if scan.image.None? then NoImage else Generated(scan.image.value, scan.text)
  }

  /** Whether the candidate carries a picture anywhere the code looks. */
  predicate CarriesImage(c: Candidate) {
    || (c.content.Some? && c.content.value.inlineData.Some?)
    || (c.content.Some? && c.content.value.parts.Some?
        && exists i :: 0 <= i < |c.content.value.parts.value| && c.content.value.parts.value[i].inlineData.Some?)
    || c.inlineData.Some?
    || (c.parts.Some? && exists i :: 0 <= i < |c.parts.value| && c.parts.value[i].inlineData.Some?)
  }

  /**
   * The outcomes of reading an answer: no candidate is one error; a first
   * candidate with none of the five fields is another; a picture is only
   * ever taken from a picture the candidate carries; and a candidate with
   * a `content` object, or a candidate without pictures, never fails as
   * unexpected.  A non-empty `text` directly on a candidate without
   * `content` hides its `parts` and `inlineData`: the answer counts as
   * having no picture.
   */
  lemma ExtractCases(resp: Response)
    ensures Extract(resp).NoCandidates? <==> resp.candidates.None? || resp.candidates.value == []
    ensures Extract(resp).UnexpectedShape? <==>
      && resp.candidates.Some? && resp.candidates.value != []
      && var c := resp.candidates.value[0];
         c.content.None? && !Truthy(c.text) && c.parts.None? && c.inlineData.None?
    ensures Extract(resp).Generated? ==> CarriesImage(resp.candidates.value[0])
    ensures resp.candidates.Some? && resp.candidates.value != []
            && resp.candidates.value[0].content.None? && Truthy(resp.candidates.value[0].text)
            ==> Extract(resp) == NoImage
  {
    if resp.candidates.Some? && resp.candidates.value != [] {
      var c := resp.candidates.value[0];
      if c.content.Some? && c.content.value.parts.Some? {
        LastImageNone(c.content.value.parts.value);
      } else if c.content.None? && c.parts.Some? {
        LastImageNone(c.parts.value);
      }
    }
  }

  /** The answer's picture and text as the parts loop reads them, for a candidate with a `parts` array under `content`. */
  lemma ContentPartsRead(resp: Response, parts: seq<ResponsePart>)
    requires resp.candidates.Some? && resp.candidates.value != []
    requires resp.candidates.value[0].content.Some? && resp.candidates.value[0].content.value.parts == Some(parts)
    ensures Extract(resp).Generated? <==> exists i :: 0 <= i < |parts| && parts[i].inlineData.Some?
    ensures Extract(resp).NoImage? <==> forall i :: 0 <= i < |parts| ==> parts[i].inlineData.None?
    ensures Extract(resp).Generated? ==> Extract(resp) == Generated(LastImage(parts).value, TextsOf(parts))
  {
    LastImageNone(parts);
  }

  /** `generateAndSaveImage` up to its `!imagePart` check, with the loops run by `ScanParts`. */
  method ExtractImage(resp: Response) returns (e: Extraction)
    ensures e == Extract(resp)
  {
    if resp.candidates.None? || resp.candidates.value == [] {
      return NoCandidates;
    }
    var candidate := resp.candidates.value[0];
    var imagePart: Option<ImageData> := None;
    var textResponse := "";
    if candidate.content.Some? {
      var content := candidate.content.value;
      if content.parts.Some? {
        imagePart, textResponse := ScanParts(content.parts.value);
      } else if content.inlineData.Some? {
        imagePart := content.inlineData;
      } else if Truthy(content.text) {
        textResponse := content.text.value;
      }
    } else if Truthy(candidate.text) {
      textResponse := candidate.text.value;
    } else if candidate.parts.Some? {
      imagePart, textResponse := ScanParts(candidate.parts.value);
    } else if candidate.inlineData.Some? {
      imagePart := candidate.inlineData;
    } else {
      return UnexpectedShape;
    }
    if imagePart.None? {
      return NoImage;
    }
    e := Generated(imagePart.value, textResponse);
  }

  /** `historyResponse`: the tag with the picture's id, then the text when there is any. */
  function GeneratedRecord(id: nat, text: string): string {
    if text != "" then GeneratedTag + Decimal(id) + "] " + text
    else GeneratedTag + Decimal(id) + "]"
  }

  /**
   * What the image conversation reads back for a saved record: the
   * picture stored under the record's id, and as description the trimmed
   * text, or the default wording when the record has no text.  (A text of
   * white space only is kept by the record and trims to nothing.)
   */
  lemma GeneratedRecordRenders(folders: Folders, chatId: string, id: nat, text: string,
                               timestamp: string, sender: string)
    requires !Contains(GeneratedRecord(id, text), UploadTag)
    requires forall i :: 0 <= i < |text| ==> !IsLineTerminator(text[i])
    ensures RenderGenTurn(folders, chatId, History.Turn(timestamp, "assistant", GeneratedRecord(id, text), sender))
            == RenderedTurn(LookupImage(folders, GeneratedDir(chatId), Decimal(id)),
                            "Assistant: (Generated an image: "
                            + (if text == "" then DefaultDescription else Trim(text)) + ")")
  {
    var r := GeneratedRecord(id, text);
    RecordTag(id, text, Decimal(id));
    RecordDescription(id, text);
    GeneratedLabelParts(folders, chatId, Decimal(id));
    AssistantGeneratedTurn(folders, chatId, History.Turn(timestamp, "assistant", r, sender));
  }

  /** The tag that opens a record is the one the regular expression finds. */
  lemma RecordTag(id: nat, text: string, digits: string)
    requires digits == Decimal(id)
    ensures FindTag(GeneratedRecord(id, text), GeneratedTag)
            == Some(TagMatch(0, digits, |GeneratedTag| + |digits| + 1))
  {
    var rest := if text != "" then " " + text else "";
    RecordShape(id, text);
    TagOpens(GeneratedRecord(id, text), GeneratedTag, digits, rest);
  }

  /** A record is the tag, the id, the closing bracket and then the text after one space. */
  lemma RecordShape(id: nat, text: string)
    ensures GeneratedRecord(id, text)
            == GeneratedTag + Decimal(id) + "]" + (if text != "" then " " + text else "")
  {
    if text != "" {
      assert "] " + text == "]" + (" " + text);
      assert GeneratedRecord(id, text) == (GeneratedTag + Decimal(id)) + ("] " + text);
    } else {
      assert GeneratedTag + Decimal(id) + "]" + "" == GeneratedTag + Decimal(id) + "]";
    }
  }

  /** The description read back from a record is its trimmed text, or the default wording. */
  lemma RecordDescription(id: nat, text: string)
    requires forall i :: 0 <= i < |text| ==> !IsLineTerminator(text[i])
    ensures var r := GeneratedRecord(id, text);
      && FindTag(r, GeneratedTag).Some? && FindTag(r, GeneratedTag).value.end <= |r|
      && Description(r, FindTag(r, GeneratedTag).value)
         == if text == "" then DefaultDescription else Trim(text)
  {
    var content := GeneratedRecord(id, text);
    var rest := if text != "" then " " + text else "";
    RecordShape(id, text);
    RecordTag(id, text, Decimal(id));
    var m := FindTag(content, GeneratedTag).value;
    assert content[m.end..] == rest;
    LineRestWhole(content, m.end);
    if text != "" {
      assert rest == [' '] + text;
      TrimStartSpace(' ', text);
    }
  }

  /** An assistant turn with a generated-image tag and no upload tag reads as a generated picture. */
  lemma AssistantGeneratedTurn(folders: Folders, chatId: string, t: History.Turn)
    requires t.role == "assistant" && !Contains(t.content, UploadTag)
    requires FindTag(t.content, GeneratedTag).Some?
    ensures var m := FindTag(t.content, GeneratedTag).value;
      RenderGenTurn(folders, chatId, t)
        == RenderedTurn(LoadGeneratedImage(folders, GeneratedLabel + ":" + m.id, chatId),
                        "Assistant: (Generated an image: " + Description(t.content, m) + ")")
  {
    FoundTagContained(t.content, GeneratedTag);
  }

  /** `(.*)` takes the whole remainder when it holds no line terminator. */
  lemma LineRestWhole(s: string, j: nat)
    requires j <= |s|
    requires forall i :: j <= i < |s| ==> !IsLineTerminator(s[i])
    ensures LineRest(s, j) == s[j..]
  {
  }
}
