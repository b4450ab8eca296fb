/**
 * The image files the bot keeps next to each chat's history (sansekai.js):
 * compressed attachments of `/a` under `<user dir>/images`, and the uploads
 * and generated pictures of `/g` under `<user dir>/image_gen/uploads` and
 * `<user dir>/image_gen/generated`.  A directory is the list of its files in
 * the order `fs.readdirSync` returns them; a file is its name and its bytes.
 * Base64 encoding is the identity here: a loaded image carries the bytes.
 */
module Attachments {
  import opened Wrappers
  import opened Text
  import History

  type Bytes = seq<bv8>

  datatype ImageFile = ImageFile(name: string, data: Bytes)

  /** Directory path to the files it holds. */
  type Folders = map<string, seq<ImageFile>>

  /** `{data, mimeType}` as the loaders return it. */
  datatype ImageData = ImageData(data: Bytes, mimeType: string)

  /** The history track of the image-generation conversation. */
  const ImageGenTrack := "image_gen"

  function ChatImagesDir(chatId: string): string {
    History.JoinPath(History.UserDirectory(chatId, History.DefaultTrack), "images")
  }

  function GeneratedDir(chatId: string): string {
    History.JoinPath(History.UserDirectory(chatId, ImageGenTrack), "generated")
  }

  function UploadsDir(chatId: string): string {
    History.JoinPath(History.UserDirectory(chatId, ImageGenTrack), "uploads")
  }

  /** Whether `name` is a file of image `id`: it starts with the id and a dot. */
  predicate NamesImage(name: string, id: string) {
    StartsWith(name, id + ".")
  }

  /** `files.find(file => file.startsWith(id + '.'))`, from position `i` on. */
  function FindFrom(files: seq<ImageFile>, id: string, i: nat): (r: Option<nat>)
    requires i <= |files|
    ensures r.Some? ==> i <= r.value < |files| && NamesImage(files[r.value].name, id)
    ensures r.Some? ==> forall j :: i <= j < r.value ==> !NamesImage(files[j].name, id)
    ensures r.None? ==> forall j :: i <= j < |files| ==> !NamesImage(files[j].name, id)
    decreases |files| - i
  {
    if i == |files| then None
    else if NamesImage(files[i].name, id) then Some(i)
    else FindFrom(files, id, i + 1)
  }

  /** The position of the first file of image `id` in a directory listing. */
  function FindImage(files: seq<ImageFile>, id: string): (r: Option<nat>)
    ensures r.Some? ==> r.value < |files| && NamesImage(files[r.value].name, id)
    ensures r.Some? ==> forall j :: 0 <= j < r.value ==> !NamesImage(files[j].name, id)
    ensures r.None? ==> forall j :: 0 <= j < |files| ==> !NamesImage(files[j].name, id)
  {
    FindFrom(files, id, 0)
  }

  /** `'image/' + imageFile.split('.').pop()`. */
  function MimeOfName(name: string): string {
    "image/" + Last(Split(name, '.'))
  }

  /** The last piece of a split is whatever follows the last separator. */
  lemma {:induction false} SplitLast(a: string, sep: char, b: string)
    requires sep !in b
    ensures |Split(a + [sep] + b, sep)| >= 2
    ensures Last(Split(a + [sep] + b, sep)) == b
    decreases |a|
  {
    var s := a + [sep] + b;
    if a == [] {
      SplitAfterHead(a, sep, b);
      SplitWithout(b, sep);
    } else {
      assert s[1..] == a[1..] + [sep] + b;
      SplitLast(a[1..], sep, b);
    }
  }

  /** A file named `<stem>.<ext>` is reported with mime type `image/<ext>`. */
  lemma MimeOfStoredName(stem: string, ext: string)
    requires '.' !in ext
    ensures MimeOfName(stem + "." + ext) == "image/" + ext
  {
    SplitLast(stem, '.', ext);
  }

  /**
   * The lookup shared by the three loaders: no image when the directory or a
   * file of that id is missing, otherwise the first such file's bytes with
   * the mime type its extension names.
   */
  function LookupImage(folders: Folders, dir: string, id: string): (r: Option<ImageData>)
    ensures r.None? <==> (dir !in folders
      || forall j :: 0 <= j < |folders[dir]| ==> !NamesImage(folders[dir][j].name, id))
    ensures r.Some? ==> (exists j ::
      && 0 <= j < |folders[dir]| && NamesImage(folders[dir][j].name, id)
      && r.value == ImageData(folders[dir][j].data, MimeOfName(folders[dir][j].name)))
  {
    if dir !in folders then None
    else
      match FindImage(folders[dir], id)
      case None => None
      case Some(j) =>
        var f := folders[dir][j];
        Some(ImageData(f.data, MimeOfName(f.name)))
  }

  /** A reference `<label>:<id>`: null unless it splits on `:` into exactly two pieces. */
  function LoadByReference(folders: Folders, dir: string, reference: string): (r: Option<ImageData>)
    ensures |Split(reference, ':')| != 2 ==> r.None?
    ensures |Split(reference, ':')| == 2 ==> r == LookupImage(folders, dir, Split(reference, ':')[1])
  {
    var parts := Split(reference, ':');
    if |parts| != 2 then None else LookupImage(folders, dir, parts[1])
  }

  /** `loadImageAsBase64(reference, chatId)`. */
  function LoadImage(folders: Folders, reference: string, chatId: string): Option<ImageData> {
    LoadByReference(folders, ChatImagesDir(chatId), reference)
  }

  /** `loadGeneratedImageAsBase64(reference, chatId)`. */
  function LoadGeneratedImage(folders: Folders, reference: string, chatId: string): Option<ImageData> {
    LoadByReference(folders, GeneratedDir(chatId), reference)
  }

  /** A kind and an id without colons split back into exactly those two pieces. */
  lemma ReferenceParts(kind: string, id: string)
    requires ':' !in kind && ':' !in id
    ensures Split(kind + ":" + id, ':') == [kind, id]
  {
    SplitAfterHead(kind, ':', id);
    SplitWithout(id, ':');
  }

  /** A reference built from a kind and a digit id looks that id up. */
  lemma LoadByDigits(folders: Folders, dir: string, kind: string, id: string)
    requires ':' !in kind && AllDigits(id)
    ensures LoadByReference(folders, dir, kind + ":" + id) == LookupImage(folders, dir, id)
  {
    ReferenceParts(kind, id);
  }

  const UploadTag := "[UPLOADED IMAGE:"
  const UploadLabel := "UPLOADED IMAGE"
  const AttachedLabel := "IMAGE ATTACHED"
  const GeneratedLabel := "GENERATED IMAGE"

  /**
   * The id `loadUploadedImageForGeneration` extracts: the captured digits of
   * a bracketed tag, the second piece of a `UPLOADED IMAGE:<id>` reference,
   * or the reference itself; an empty id is rejected.
   */
  function UploadedImageId(reference: string): (r: Option<string>)
    ensures r.Some? ==> r.value != ""
    ensures reference == "" ==> r.None?
    ensures StartsWith(reference, UploadTag) ==>
      (r.Some? <==> FindTag(reference, UploadTag).Some?)
      && (r.Some? ==> r.value == FindTag(reference, UploadTag).value.id)
  {
    if StartsWith(reference, UploadTag) then
      match FindTag(reference, UploadTag)
      case None => None
      case Some(m) => Some(m.id)
    else if StartsWith(reference, UploadLabel + ":") then
      var parts := Split(reference, ':');
      if |parts| >= 2 && parts[1] != "" then Some(parts[1]) else None
    else if reference == "" then None
    else Some(reference)
  }

  /** All three reference forms the source accepts name the same digit id. */
  lemma UploadedReferenceForms(id: string, rest: string)
    requires |id| >= 1 && AllDigits(id)
    ensures UploadedImageId(UploadTag + id + "]" + rest) == Some(id)
    ensures UploadedImageId(UploadLabel + ":" + id) == Some(id)
    ensures UploadedImageId(id) == Some(id)
  {
    TagAtFront(UploadTag, id, rest);
    assert StartsWith(UploadTag + id + "]" + rest, UploadTag);
    var parsed := UploadLabel + ":" + id;
    assert !StartsWith(parsed, UploadTag) by {
      assert parsed[0] != UploadTag[0];
    }
    assert StartsWith(parsed, UploadLabel + ":");
    ReferenceParts(UploadLabel, id);
    assert !StartsWith(id, UploadTag) && !StartsWith(id, UploadLabel + ":") by {
      assert IsDigit(id[0]);
    }
  }

  /** `loadUploadedImageForGeneration(reference, chatId)`. */
  function LoadUploadedImage(folders: Folders, reference: string, chatId: string): (r: Option<ImageData>)
    ensures UploadedImageId(reference).None? ==> r.None?
    ensures UploadedImageId(reference).Some? ==>
      r == LookupImage(folders, UploadsDir(chatId), UploadedImageId(reference).value)
  {
    match UploadedImageId(reference)
    case None => None
    case Some(id) => LookupImage(folders, UploadsDir(chatId), id)
  }

  /** The formats `compressImage` writes out, as mime types. */
  predicate IsOutputMime(m: string) {
    m == "image/jpeg" || m == "image/jpg" || m == "image/png" || m == "image/webp"
  }

  /**
   * The mime type `compressImage` reports after re-encoding: JPEG, PNG and
   * WebP are kept as they are named, anything else becomes JPEG.
   */
  function CompressedMime(mimetype: string): (r: string)
    ensures IsOutputMime(r)
    ensures IsOutputMime(mimetype) ==> r == mimetype
    ensures !IsOutputMime(mimetype) ==> r == "image/jpeg"
  {
    if mimetype == "image/jpeg" || mimetype == "image/jpg" then mimetype
    else if mimetype == "image/png" then mimetype
    else if mimetype == "image/webp" then mimetype
    else "image/jpeg"
  }

  /** `mimetype.split('/')[1]` inside a template literal: "undefined" when there is no `/`. */
  function Extension(mimetype: string): (ext: string)
    ensures '/' !in ext
  {
    var parts := Split(mimetype, '/');
    if |parts| >= 2 then parts[1] else "undefined"
  }

  /** `${imageId}.${extension}`. */
  function ImageFileName(id: nat, ext: string): string {
    Decimal(id) + "." + ext
  }

  /** The name of a stored image is the one its id finds. */
  lemma FileNameNamesImage(id: nat, ext: string)
    ensures NamesImage(ImageFileName(id, ext), Decimal(id))
  {
  }

  /** A mime type the extension round-trips: `image/<ext>` with no dot in `<ext>`. */
  predicate LabelsItself(mimetype: string) {
    '.' !in Extension(mimetype) && mimetype == "image/" + Extension(mimetype)
  }

  /** Every output format of `compressImage` is named by its own extension. */
  lemma OutputMimesLabelThemselves(m: string)
    requires IsOutputMime(m)
    ensures LabelsItself(m)
  {
    var ext := if m == "image/jpeg" then "jpeg" else if m == "image/jpg" then "jpg"
               else if m == "image/png" then "png" else "webp";
    assert m == "image/" + ext;
    SubtypeLabelsItself(ext);
  }

  /** `image/<ext>` names itself when `<ext>` has neither a slash nor a dot. */
  lemma SubtypeLabelsItself(ext: string)
    requires '/' !in ext && '.' !in ext
    ensures LabelsItself("image/" + ext)
  {
    assert "image/" + ext == "image" + "/" + ext;
    SlashSplit("image", ext);
  }

  lemma SlashSplit(a: string, b: string)
    requires '/' !in a && '/' !in b
    ensures Split(a + "/" + b, '/') == [a, b]
  {
    SplitAfterHead(a, '/', b);
    SplitWithout(b, '/');
  }

  /** `fs.writeFileSync` in a directory: overwrite a file of that name, or add one at the end. */
  function WriteFile(files: seq<ImageFile>, name: string, data: Bytes): (r: seq<ImageFile>)
    ensures ImageFile(name, data) in r
    ensures forall f :: f in files && f.name != name ==> f in r
    ensures forall f :: f in r ==> f == ImageFile(name, data) || f in files
    decreases |files|
  {
    if files == [] then [ImageFile(name, data)]
    else if files[0].name == name then [ImageFile(name, data)] + files[1..]
    else [files[0]] + WriteFile(files[1..], name, data)
  }

  /** Write a file into a directory, creating the directory when it is missing. */
  function SaveFile(folders: Folders, dir: string, name: string, data: Bytes): (r: Folders)
    ensures dir in r && r.Keys == folders.Keys + {dir}
    ensures forall d :: d in folders && d != dir ==> r[d] == folders[d]
  {
    folders[dir := WriteFile(if dir in folders then folders[dir] else [], name, data)]
  }

  /** No file of the directory belongs to image `id` yet. */
  predicate FreshId(folders: Folders, dir: string, id: nat) {
    dir !in folders || forall f :: f in folders[dir] ==> !NamesImage(f.name, Decimal(id))
  }

  /**
   * Storing an image under a fresh id and looking that id up again gives
   * back the bytes, labelled `image/<extension>`.
   */
  lemma SavedImageLoads(folders: Folders, dir: string, id: nat, ext: string, data: Bytes)
    requires FreshId(folders, dir, id)
    requires '.' !in ext
    ensures LookupImage(SaveFile(folders, dir, ImageFileName(id, ext), data), dir, Decimal(id))
            == Some(ImageData(data, "image/" + ext))
  {
    var name := ImageFileName(id, ext);
    var saved := SaveFile(folders, dir, name, data);
    var files := saved[dir];
    MimeOfStoredName(Decimal(id), ext);
    forall j | 0 <= j < |files| && NamesImage(files[j].name, Decimal(id))
      ensures files[j] == ImageFile(name, data)
    {
      assert files[j] in files;
    }
    assert ImageFile(name, data) in files;
  }

  /**
   * `saveImageToFile`: the compressed bytes go to `<chat dir>/images` under
   * `<id>.<extension of the compressed mime type>`.
   */
  function SaveChatImage(folders: Folders, sender: string, id: nat, compressed: Bytes,
                         compressedMime: string): Folders
  {
    SaveFile(folders, ChatImagesDir(sender), ImageFileName(id, Extension(compressedMime)), compressed)
  }

  /**
   * An attachment saved by `/a` is what the reference `IMAGE ATTACHED:<id>`
   * loads later: the same bytes, under the same mime type.
   */
  lemma ChatImageRoundTrip(folders: Folders, sender: string, id: nat, compressed: Bytes, mime: string)
    requires FreshId(folders, ChatImagesDir(sender), id)
    requires LabelsItself(mime)
    ensures LoadImage(SaveChatImage(folders, sender, id, compressed, mime),
                      AttachedLabel + ":" + Decimal(id), sender)
            == Some(ImageData(compressed, mime))
  {
    var dir := ChatImagesDir(sender);
    SavedImageLoads(folders, dir, id, Extension(mime), compressed);
    LoadByDigits(SaveChatImage(folders, sender, id, compressed, mime), dir, AttachedLabel, Decimal(id));
  }

  /**
   * The file name of a generated image: `split('/')[1] || 'jpg'`, so a
   * missing or empty subtype falls back to `jpg`.
   */
  function GeneratedFileName(id: nat, mimeType: string): (name: string)
    ensures NamesImage(name, Decimal(id))
  {
    var parts := Split(mimeType, '/');
    ImageFileName(id, if |parts| >= 2 && parts[1] != "" then parts[1] else "jpg")
  }

  /** A generated image is found again by the reference `GENERATED IMAGE:<id>`. */
  lemma GeneratedImageRoundTrip(folders: Folders, chatId: string, id: nat, data: Bytes, mime: string)
    requires FreshId(folders, GeneratedDir(chatId), id)
    requires LabelsItself(mime) && Extension(mime) != ""
    ensures LoadGeneratedImage(SaveFile(folders, GeneratedDir(chatId), GeneratedFileName(id, mime), data),
                               GeneratedLabel + ":" + Decimal(id), chatId)
            == Some(ImageData(data, mime))
  {
    var dir := GeneratedDir(chatId);
    var ext := Extension(mime);
    SlashSplit("image", ext);
    assert GeneratedFileName(id, mime) == ImageFileName(id, ext);
    SavedImageLoads(folders, dir, id, ext, data);
    LoadByDigits(SaveFile(folders, dir, GeneratedFileName(id, mime), data), dir, GeneratedLabel, Decimal(id));
  }
}
