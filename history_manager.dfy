/**
 * Per-chat, per-track conversation history kept as JSON files on disk
 * (lib/historyManager.js).  The file system is a map from path to file
 * contents; a file either holds a parsable array of turns or something
 * `JSON.parse` rejects.  Every operation is a pure step on that map, and
 * `TurnStore` is the stateful object whose methods perform those steps.
 */
module History {
  import opened Wrappers
  import opened Text

  /** `path.join(process.cwd(), 'history')`, relative to the working directory. */
  const HistoryDir := "history"
  /** The pre-partitioning location, `path.join(process.cwd(), 'HISTORY')`. */
  const LegacyDir := "HISTORY"
  /** The track that selects the user's top-level directory. */
  const DefaultTrack := "chat"
  const HistoryFileName := "chat_history.json"

  /** One stored record: `{timestamp, role, content, sender}`. */
  datatype Turn = Turn(timestamp: string, role: string, content: string, sender: string)

  datatype HistoryFile = Records(turns: seq<Turn>) | Corrupt

  type FileSystem = map<string, HistoryFile>

  /** The character `/[^a-zA-Z0-9]/g` leaves in place of `c`. */
  function SanitizeChar(c: char): char {
    if IsAlphanumeric(c) then c else '_'
  }

  /** `s.replace(/[^a-zA-Z0-9]/g, '_')`. */
  function Sanitize(s: string): (r: string)
    ensures |r| == |s|
    ensures forall i :: 0 <= i < |s| ==> r[i] == SanitizeChar(s[i])
    ensures forall i :: 0 <= i < |r| ==> IsAlphanumeric(r[i]) || r[i] == '_'
  {
    if s == [] then [] else [SanitizeChar(s[0])] + Sanitize(s[1..])
  }

  /**
   * The directory-safe user id: the text before the first `@`, each
   * character outside `[A-Za-z0-9]` replaced by `_`.
   */
  function UserIdFromChatId(chatId: string): (userId: string)
    ensures |userId| <= |chatId|
    ensures |userId| == |chatId| || chatId[|userId|] == '@'
    ensures '@' !in chatId[..|userId|]
    ensures forall i :: 0 <= i < |userId| ==> userId[i] == SanitizeChar(chatId[i])
    ensures forall i :: 0 <= i < |userId| ==> IsAlphanumeric(userId[i]) || userId[i] == '_'
  {
    SplitHead(chatId, '@');
    Sanitize(if '@' in chatId then Split(chatId, '@')[0] else chatId)
  }

  /** `path.join(a, b)` for a relative segment `b` without `.` or `..` parts. */
  function JoinPath(a: string, b: string): string {
    if b == "" then a else a + "/" + b
  }

  /** `convType && convType !== "chat"` is false: the user's top-level directory. */
  predicate IsDefaultTrack(track: string) {
    track == "" || track == DefaultTrack
  }

  /** `getUserDirectory`: the user's directory, or its sub-directory for a named track. */
  function UserDirectory(chatId: string, track: string): string {
    var userDir := JoinPath(HistoryDir, UserIdFromChatId(chatId));
    if IsDefaultTrack(track) then userDir else JoinPath(userDir, track)
  }

  /** `getHistoryFilename`. */
  function HistoryFilename(chatId: string, track: string): string {
    JoinPath(UserDirectory(chatId, track), HistoryFileName)
  }

  /** The legacy file: the WHOLE chat id sanitised, under `HISTORY`. */
  function LegacyFilename(chatId: string): string {
    JoinPath(LegacyDir, Sanitize(chatId) + ".json")
  }

  /** The turns a path holds; absent and unparsable files hold none. */
  function Stored(fs: FileSystem, path: string): seq<Turn> {
    if path in fs && fs[path].Records? then fs[path].turns else []
  }

  /** Whether `JSON.parse` throws on the file at `path`. */
  predicate CorruptAt(fs: FileSystem, path: string) {
    path in fs && fs[path].Corrupt?
  }

  /** The file name of a track, written out: `history/<user>[/<track>]/chat_history.json`. */
  lemma FilenameShape(chatId: string, track: string)
    ensures var userDir := JoinPath(HistoryDir, UserIdFromChatId(chatId));
      HistoryFilename(chatId, track)
        == if IsDefaultTrack(track) then userDir + "/" + HistoryFileName
           else userDir + "/" + track + "/" + HistoryFileName
  {
  }

  /** Strings with a common prefix and suffix are equal only when their middles are. */
  lemma MiddleInjective(pre: string, a: string, b: string, post: string)
    requires pre + a + post == pre + b + post
    ensures a == b
  {
    var s := pre + a + post;
    assert |a| == |b|;
    assert a == s[|pre|..|pre| + |a|];
  }

  /** The canonical file of any track lies under `history`, never under `HISTORY`. */
  lemma LegacyDistinct(chatId: string, track: string)
    ensures HistoryFilename(chatId, track) != LegacyFilename(chatId)
  {
    var userId := UserIdFromChatId(chatId);
    var userDir := JoinPath(HistoryDir, userId);
    assert userDir[0] == 'h';
    var dir := UserDirectory(chatId, track);
    assert dir[0] == 'h';
    assert HistoryFilename(chatId, track)[0] == 'h';
    assert LegacyFilename(chatId)[0] == 'H';
  }

  /** Two tracks share a file only when they are equal or both default. */
  lemma PartitionsDistinct(chatId: string, t1: string, t2: string)
    ensures HistoryFilename(chatId, t1) == HistoryFilename(chatId, t2)
        <==> t1 == t2 || (IsDefaultTrack(t1) && IsDefaultTrack(t2))
  {
    FilenameShape(chatId, t1);
    FilenameShape(chatId, t2);
    var userDir := JoinPath(HistoryDir, UserIdFromChatId(chatId));
    if !IsDefaultTrack(t1) && !IsDefaultTrack(t2) {
      TrackNames(userDir, HistoryFileName, t1, t2);
    } else if !IsDefaultTrack(t1) {
      TrackNames(userDir, HistoryFileName, t1, t1);
    } else if !IsDefaultTrack(t2) {
      TrackNames(userDir, HistoryFileName, t2, t2);
    }
  }

  /** The string facts behind `PartitionsDistinct`. */
  lemma TrackNames(dir: string, name: string, t1: string, t2: string)
    requires t1 != "" && t2 != ""
    ensures dir + "/" + name != dir + "/" + t1 + "/" + name
    ensures dir + "/" + t1 + "/" + name == dir + "/" + t2 + "/" + name ==> t1 == t2
  {
    assert |dir + "/" + name| < |dir + "/" + t1 + "/" + name|;
    if dir + "/" + t1 + "/" + name == dir + "/" + t2 + "/" + name {
      assert dir + "/" + t1 + "/" + name == (dir + "/") + t1 + ("/" + name);
      assert dir + "/" + t2 + "/" + name == (dir + "/") + t2 + ("/" + name);
      MiddleInjective(dir + "/", t1, t2, "/" + name);
    }
  }

  /** `saveMessageToHistory`: append one turn; an unparsable file is left alone. */
  function SaveStep(fs: FileSystem, chatId: string, track: string, turn: Turn): (fs': FileSystem)
    ensures var path := HistoryFilename(chatId, track);
      && (CorruptAt(fs, path) ==> fs' == fs)
      && (!CorruptAt(fs, path) ==> path in fs' && fs'[path] == Records(Stored(fs, path) + [turn]))
      && fs'.Keys == fs.Keys + {path}
      && forall p :: p in fs && p != path ==> p in fs' && fs'[p] == fs[p]
  {
    var path := HistoryFilename(chatId, track);
    if CorruptAt(fs, path) then fs
    else fs[path := Records(Stored(fs, path) + [turn])]
  }

  /** What `getMessageHistory` returns, and the file system it leaves behind. */
  datatype ReadResult = ReadResult(history: seq<Turn>, fs: FileSystem)

  /**
   * `getMessageHistory`: the canonical file if it exists (unparsable: no
   * turns); otherwise, for the track spelled exactly "chat", the legacy file,
   * which is moved to the canonical place when it parses.
   */
  function ReadStep(fs: FileSystem, chatId: string, track: string): (r: ReadResult)
    ensures var path := HistoryFilename(chatId, track);
      var legacy := LegacyFilename(chatId);
      && (path in fs ==> r == ReadResult(Stored(fs, path), fs))
      && (path !in fs && track == DefaultTrack && legacy in fs && fs[legacy].Records? ==>
            r.history == fs[legacy].turns && path in r.fs && r.fs[path] == fs[legacy]
            && legacy !in r.fs && r.fs.Keys == fs.Keys - {legacy} + {path}
            && forall p :: p in fs && p != legacy ==> p in r.fs && r.fs[p] == fs[p])
      && (path !in fs && !(track == DefaultTrack && legacy in fs && fs[legacy].Records?) ==>
            r == ReadResult([], fs))
  {
    var path := HistoryFilename(chatId, track);
    LegacyDistinct(chatId, track);
    if path in fs then ReadResult(Stored(fs, path), fs)
    else if track == DefaultTrack then
      var legacy := LegacyFilename(chatId);
      if legacy in fs then
        match fs[legacy]
        case Corrupt => ReadResult([], fs)
        case Records(h) => ReadResult(h, fs[path := Records(h)] - {legacy})
      else ReadResult([], fs)
    else ReadResult([], fs)
  }

  /** `clearMessageHistory`: delete the canonical file, reporting whether it existed. */
  function ClearStep(fs: FileSystem, chatId: string, track: string): (r: (bool, FileSystem))
    ensures var path := HistoryFilename(chatId, track);
      && (r.0 <==> path in fs)
      && path !in r.1
      && r.1.Keys == fs.Keys - {path}
      && forall p :: p in r.1 ==> r.1[p] == fs[p]
  {
    var path := HistoryFilename(chatId, track);
    if path in fs then (true, fs - {path}) else (false, fs)
  }

  /**
   * Reading, saving a turn, and reading again yields what the first read
   * returned followed by that turn, whenever the canonical file parses.
   */
  lemma ReadSaveRead(fs: FileSystem, chatId: string, track: string, turn: Turn)
    requires !CorruptAt(fs, HistoryFilename(chatId, track))
    ensures var first := ReadStep(fs, chatId, track);
      ReadStep(SaveStep(first.fs, chatId, track, turn), chatId, track).history
        == first.history + [turn]
  {
    var path := HistoryFilename(chatId, track);
    var first := ReadStep(fs, chatId, track);
    assert !CorruptAt(first.fs, path);
    assert Stored(first.fs, path) == first.history;
  }

  /**
   * Saving before the first read of a chat that only has a legacy file starts
   * a fresh canonical file: the legacy turns are not part of what is read next.
   */
  lemma SaveBeforeMigration(fs: FileSystem, chatId: string, turn: Turn)
    requires HistoryFilename(chatId, DefaultTrack) !in fs
    requires LegacyFilename(chatId) in fs
    ensures ReadStep(SaveStep(fs, chatId, DefaultTrack, turn), chatId, DefaultTrack).history == [turn]
    ensures LegacyFilename(chatId) in SaveStep(fs, chatId, DefaultTrack, turn)
  {
    LegacyDistinct(chatId, DefaultTrack);
  }

  /** Migration happens at most once: a second read changes nothing and sees the same turns. */
  lemma ReadIdempotent(fs: FileSystem, chatId: string, track: string)
    ensures var first := ReadStep(fs, chatId, track);
      ReadStep(first.fs, chatId, track) == first
  {
    LegacyDistinct(chatId, track);
  }

  /**
   * After a clear the track reads as empty, except that the default track
   * falls back to a legacy file that is still present.
   */
  lemma ClearThenRead(fs: FileSystem, chatId: string, track: string)
    ensures var cleared := ClearStep(fs, chatId, track).1;
      var legacy := LegacyFilename(chatId);
      ReadStep(cleared, chatId, track).history
        == if track == DefaultTrack && legacy in fs && fs[legacy].Records? then fs[legacy].turns else []
  {
    LegacyDistinct(chatId, track);
  }

  /** Saving to or clearing one track leaves every other track's turns as they were. */
  lemma TracksIndependent(fs: FileSystem, chatId: string, track: string, other: string, turn: Turn)
    requires !(track == other || (IsDefaultTrack(track) && IsDefaultTrack(other)))
    ensures var p := HistoryFilename(chatId, other);
      && Stored(SaveStep(fs, chatId, track, turn), p) == Stored(fs, p)
      && Stored(ClearStep(fs, chatId, track).1, p) == Stored(fs, p)
  {
    PartitionsDistinct(chatId, track, other);
  }

  /** `msg.role === 'user' ? 'User' : 'Assistant'`: every other role reads as the assistant. */
  function RoleLabel(role: string): string {
    if role == "user" then "User" else "Assistant"
  }

  /** `Role: content`. */
  function RenderTurn(t: Turn): (line: string)
    ensures line != ""
    ensures StartsWith(line, if t.role == "user" then "User: " else "Assistant: ")
  {
    RoleLabel(t.role) + ": " + t.content
  }

  function RenderAll(turns: seq<Turn>): (lines: seq<string>)
    ensures |lines| == |turns|
    ensures forall i :: 0 <= i < |turns| ==> lines[i] == RenderTurn(turns[i])
  {
    if turns == [] then [] else [RenderTurn(turns[0])] + RenderAll(turns[1..])
  }

  /** `history.slice(-maxMessages)`: the most recent turns, or all of them when the bound is 0. */
  function Window(history: seq<Turn>, maxMessages: int): seq<Turn> {
    SliceFrom(history, -maxMessages)
  }

  /** The window is the last `min(n, |h|)` turns for a positive bound and everything for 0. */
  lemma WindowShape(history: seq<Turn>, maxMessages: int)
    requires maxMessages >= 0
    ensures maxMessages == 0 ==> Window(history, maxMessages) == history
    ensures maxMessages > 0 ==>
      var k := if maxMessages < |history| then maxMessages else |history|;
      Window(history, maxMessages) == history[|history| - k..]
  {
  }

  /** `getFormattedHistoryForContext` on the turns already read. */
  function FormatHistory(history: seq<Turn>, maxMessages: int): (text: string)
    ensures text == "" <==> Window(history, maxMessages) == []
  {
    if |history| == 0 then ""
    else
      var lines := RenderAll(Window(history, maxMessages));
      JoinEmpty(lines, "\n");
      Join(lines, "\n")
  }

  /**
   * Once a turn has been saved, the context for a positive bound ends with
   * that turn's line, on a line of its own after the earlier turns.
   */
  lemma {:induction false} FormatEndsWithLatest(history: seq<Turn>, turn: Turn, maxMessages: int)
    requires maxMessages > 0
    ensures var text := FormatHistory(history + [turn], maxMessages);
      var earlier := Window(history + [turn], maxMessages);
      && (|earlier| == 1 ==> text == RenderTurn(turn))
      && (|earlier| > 1 ==> text == FormatHistory(history, maxMessages - 1) + "\n" + RenderTurn(turn))
  {
    var w := Window(history + [turn], maxMessages);
    WindowSnoc(history, turn, maxMessages);
    if |w| > 1 {
      var wp := Window(history, maxMessages - 1);
      var lines := RenderAll(wp);
      assert |history| > 0;
      FormatJoins(history, maxMessages - 1);
      FormatJoins(history + [turn], maxMessages);
      assert RenderAll(w) == lines + [RenderTurn(turn)];
      JoinSnoc(lines, "\n", RenderTurn(turn));
    }
  }

  /** A history with turns formats as its window's lines joined by line breaks. */
  lemma FormatJoins(history: seq<Turn>, maxMessages: int)
    requires |history| > 0
    ensures FormatHistory(history, maxMessages) == Join(RenderAll(Window(history, maxMessages)), "\n")
  {
  }

  /** The window over a history with one more turn is the narrower window over the old one, then that turn. */
  lemma WindowSnoc(history: seq<Turn>, turn: Turn, maxMessages: int)
    requires maxMessages > 0
    ensures var w := Window(history + [turn], maxMessages);
      && (|w| == 1 ==> w == [turn])
      && (|w| > 1 ==> w == Window(history, maxMessages - 1) + [turn])
  {
    var h := history + [turn];
    var k := if |h| - maxMessages < 0 then 0 else |h| - maxMessages;
    assert Window(h, maxMessages) == h[k..];
    if k < |history| {
      assert Window(history, maxMessages - 1) == history[k..];
      assert h[k..] == history[k..] + [turn];
    }
  }

  /**
   * The history store of the running bot: the files it owns, changed only
   * through the operations of lib/historyManager.js.
   */
  class TurnStore {
    var files: FileSystem

    constructor (files: FileSystem)
      ensures this.files == files
    {
      this.files := files;
    }

    /** `saveMessageToHistory`; the clock is the `timestamp` parameter. */
    method SaveMessageToHistory(chatId: string, sender: string, role: string, content: string,
                                track: string, timestamp: string)
      modifies this
      ensures files == SaveStep(old(files), chatId, track, Turn(timestamp, role, content, sender))
    {
      var filename := HistoryFilename(chatId, track);
      var history: seq<Turn> := [];
      if filename in files {
        match files[filename] {
          case Corrupt => return;
          case Records(h) => history := h;
        }
      }
      history := history + [Turn(timestamp, role, content, sender)];
      files := files[filename := Records(history)];
    }

    /** `getMessageHistory`, including the one-time move of a legacy file. */
    method GetMessageHistory(chatId: string, track: string) returns (history: seq<Turn>)
      modifies this
      ensures ReadResult(history, files) == ReadStep(old(files), chatId, track)
    {
      var filename := HistoryFilename(chatId, track);
      if filename in files {
        history := Stored(files, filename);
        return;
      }
      history := [];
      if track == DefaultTrack {
        var oldFilename := LegacyFilename(chatId);
        if oldFilename in files {
          match files[oldFilename] {
            case Corrupt =>
            case Records(h) =>
              files := files[filename := Records(h)];
              files := files - {oldFilename};
              history := h;
          }
        }
      }
    }

    /** `clearMessageHistory`. */
    method ClearMessageHistory(chatId: string, track: string) returns (cleared: bool)
      modifies this
      ensures (cleared, files) == ClearStep(old(files), chatId, track)
    {
      var filename := HistoryFilename(chatId, track);
      cleared := filename in files;
      if cleared {
        files := files - {filename};
      }
    }

    /** `getFormattedHistoryForContext`: reads (possibly migrating), then formats. */
    method GetFormattedHistoryForContext(chatId: string, maxMessages: int, track: string)
      returns (text: string)
      modifies this
      ensures var r := ReadStep(old(files), chatId, track);
        text == FormatHistory(r.history, maxMessages) && files == r.fs
    {
      var history := GetMessageHistory(chatId, track);
      if |history| == 0 {
        return "";
      }
      var recent := SliceFrom(history, -maxMessages);
      text := Join(RenderAll(recent), "\n");
    }
  }
}
