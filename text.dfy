/**
 * The JavaScript string and array built-ins the bot relies on, written out
 * with their semantics on text inside the Basic Multilingual Plane:
 * `startsWith`, `includes`, `split` on a one-character separator, `join`,
 * `trim`, `Array.prototype.slice` with one argument, decimal rendering of a
 * number in a template literal, and the leftmost-match behaviour of the
 * bracketed-tag regular expressions (`/\[TAG:([0-9]+)\]/`) together with
 * the non-global `.replace` calls that rewrite only the first match.
 *
 * A `string` is a sequence of Unicode scalar values, while JavaScript counts
 * UTF-16 code units: a character outside the Basic Multilingual Plane is one
 * `char` here and two code units there (README, "## Left out").
 */
module Text {
  import opened Wrappers

  predicate StartsWith(s: string, prefix: string) {
    |prefix| <= |s| && s[..|prefix|] == prefix
  }

  /** `s.includes(p)`: `p` occurs somewhere in `s`. */
  predicate Contains(s: string, p: string)
    decreases |s|
  {
    StartsWith(s, p) || (|s| > 0 && Contains(s[1..], p))
  }

  lemma {:induction false} ContainsAt(s: string, p: string, i: nat)
    requires i <= |s| && StartsWith(s[i..], p)
    ensures Contains(s, p)
    decreases i
  {
    if i > 0 {
      assert s[1..][i - 1..] == s[i..];
      ContainsAt(s[1..], p, i - 1);
    }
  }

  predicate IsDigit(c: char) { '0' <= c <= '9' }

  predicate IsAlphanumeric(c: char) {
    ('a' <= c <= 'z') || ('A' <= c <= 'Z') || IsDigit(c)
  }

  predicate AllDigits(s: string) {
    forall i :: 0 <= i < |s| ==> IsDigit(s[i])
  }

  /** The characters matched by `\s` and removed by `trim` (WhiteSpace and LineTerminator). */
  predicate IsSpace(c: char) {
    c == '\t' || c == '\n' || c == '\U{000B}' || c == '\U{000C}' || c == '\r' || c == ' '
    || c == '\U{00A0}' || c == '\U{1680}' || ('\U{2000}' <= c <= '\U{200A}')
    || c == '\U{2028}' || c == '\U{2029}' || c == '\U{202F}' || c == '\U{205F}'
    || c == '\U{3000}' || c == '\U{FEFF}'
  }

  /** The characters that `.` in a regular expression does not match. */
  predicate IsLineTerminator(c: char) {
    c == '\n' || c == '\r' || c == '\U{2028}' || c == '\U{2029}'
  }

  // ---------------------------------------------------------------------
  // split / join / pop

  /** `parts.join(sep)`; joining no parts gives the empty string. */
  function Join(parts: seq<string>, sep: string): string
    decreases |parts|
  {
    if |parts| == 0 then ""
    else if |parts| == 1 then parts[0]
    else parts[0] + sep + Join(parts[1..], sep)
  }

  /** `s.split(sep)` for a one-character separator. */
  function Split(s: string, sep: char): (parts: seq<string>)
    ensures |parts| >= 1
    ensures forall i :: 0 <= i < |parts| ==> sep !in parts[i]
    ensures Join(parts, [sep]) == s
    decreases |s|
  {
    if |s| == 0 then [""]
    else
      var rest := Split(s[1..], sep);
      if s[0] == sep then
        assert [s[0]] + s[1..] == s;
        [""] + rest
      else
        var r := [[s[0]] + rest[0]] + rest[1..];
        assert r[1..] == rest[1..];
        assert Join(rest, [sep]) == rest[0] + (if |rest| == 1 then "" else [sep] + Join(rest[1..], [sep]));
        assert [s[0]] + s[1..] == s;
        r
  }

  lemma {:induction false} SplitWithout(s: string, sep: char)
    requires sep !in s
    ensures Split(s, sep) == [s]
    decreases |s|
  {
    if |s| > 0 {
      SplitWithout(s[1..], sep);
      assert [s[0]] + s[1..] == s;
    }
  }

  /** Splitting at a separator that does not occur in the head peels the head off. */
  lemma {:induction false} SplitAfterHead(a: string, sep: char, b: string)
    requires sep !in a
    ensures Split(a + [sep] + b, sep) == [a] + Split(b, sep)
    decreases |a|
  {
    if |a| == 0 {
      assert a + [sep] + b == [sep] + b;
      assert ([sep] + b)[1..] == b;
    } else {
      var s := a + [sep] + b;
      var rest := Split(s[1..], sep);
      assert s[0] == a[0] != sep;
      assert s[1..] == a[1..] + [sep] + b;
      SplitAfterHead(a[1..], sep, b);
      assert rest == [a[1..]] + Split(b, sep);
      assert Split(s, sep) == [[s[0]] + rest[0]] + rest[1..];
      assert [a[0]] + a[1..] == a;
    }
  }

  /** The first piece of a split is the text before the first separator. */
  lemma SplitHead(s: string, sep: char)
    ensures var head := Split(s, sep)[0];
      && |head| <= |s| && s[..|head|] == head && sep !in head
      && (|head| == |s| || s[|head|] == sep)
  {
    var parts := Split(s, sep);
    if |parts| > 1 {
      assert s == parts[0] + [sep] + Join(parts[1..], [sep]);
    }
  }

  /** Joining one more piece appends the separator and that piece. */
  lemma {:induction false} JoinSnoc(parts: seq<string>, sep: string, last: string)
    requires |parts| >= 1
    ensures Join(parts + [last], sep) == Join(parts, sep) + sep + last
    decreases |parts|
  {
    if |parts| > 1 {
      assert (parts + [last])[1..] == parts[1..] + [last];
      JoinSnoc(parts[1..], sep, last);
    } else {
      assert (parts + [last])[1..] == [last];
    }
  }

  /** A join of non-empty pieces is empty exactly when there are no pieces. */
  lemma {:induction false} JoinEmpty(parts: seq<string>, sep: string)
    requires forall i :: 0 <= i < |parts| ==> parts[i] != ""
    ensures Join(parts, sep) == "" <==> parts == []
    decreases |parts|
  {
    if |parts| > 1 {
      JoinEmpty(parts[1..], sep);
      assert |Join(parts, sep)| >= |parts[0]|;
    }
  }

  predicate EndsWith(s: string, suffix: string) {
    |suffix| <= |s| && s[|s| - |suffix|..] == suffix
  }

  /** `parts.pop()` on a non-empty array: its last element. */
  function Last(parts: seq<string>): string
    requires |parts| >= 1
  {
    parts[|parts| - 1]
  }

  // ---------------------------------------------------------------------
  // trim

  function TrimStart(s: string): (r: string)
    ensures |r| <= |s| && r == s[|s| - |r|..]
    ensures r == "" || !IsSpace(r[0])
    ensures forall i :: 0 <= i < |s| - |r| ==> IsSpace(s[i])
    decreases |s|
  {
    if |s| > 0 && IsSpace(s[0]) then TrimStart(s[1..]) else s
  }

  function TrimEnd(s: string): (r: string)
    ensures |r| <= |s| && r == s[..|r|]
    ensures r == "" || !IsSpace(r[|r| - 1])
    ensures forall i :: |r| <= i < |s| ==> IsSpace(s[i])
    decreases |s|
  {
    if |s| > 0 && IsSpace(s[|s| - 1]) then TrimEnd(s[..|s| - 1]) else s
  }

  /** A leading white-space character makes no difference to `trimStart`. */
  lemma TrimStartSpace(c: char, s: string)
    requires IsSpace(c)
    ensures TrimStart([c] + s) == TrimStart(s)
  {
    assert ([c] + s)[1..] == s;
  }

  /** `s.trim()`. */
  function Trim(s: string): string {
    TrimEnd(TrimStart(s))
  }

  // ---------------------------------------------------------------------
  // Array.prototype.slice(start)

  /** `a.slice(start)`: a negative start counts from the end and is clamped at 0. */
  function SliceFrom<T>(a: seq<T>, start: int): seq<T> {
    var k := if start < 0 then (if |a| + start < 0 then 0 else |a| + start)
             else (if start > |a| then |a| else start);
    a[k..]
  }

  // ---------------------------------------------------------------------
  // numbers in template literals

  function DigitChar(d: nat): (c: char)
    requires d < 10
    ensures IsDigit(c)
  {
    "0123456789"[d]
  }

  /** `${n}` for a non-negative integer such as `Date.now()`. */
  function Decimal(n: nat): (r: string)
    ensures |r| >= 1 && AllDigits(r)
    decreases n
  {
    if n < 10 then [DigitChar(n)] else Decimal(n / 10) + [DigitChar(n % 10)]
  }

  // ---------------------------------------------------------------------
  // the bracketed-tag regular expressions

  /** Length of the run of decimal digits that starts at `j`. */
  function DigitRun(s: string, j: nat): (k: nat)
    requires j <= |s|
    ensures j + k <= |s|
    ensures forall i :: j <= i < j + k ==> IsDigit(s[i])
    ensures j + k < |s| ==> !IsDigit(s[j + k])
    decreases |s| - j
  {
    if j < |s| && IsDigit(s[j]) then 1 + DigitRun(s, j + 1) else 0
  }

  /** Length of the run of `\s` characters that starts at `j` (what `\s*` consumes). */
  function SpaceRun(s: string, j: nat): (k: nat)
    requires j <= |s|
    ensures j + k <= |s|
    ensures forall i :: j <= i < j + k ==> IsSpace(s[i])
    ensures j + k < |s| ==> !IsSpace(s[j + k])
    decreases |s| - j
  {
    if j < |s| && IsSpace(s[j]) then 1 + SpaceRun(s, j + 1) else 0
  }

  /**
   * Whether `prefix [0-9]+ ]` matches at position `i`, and if so how many
   * digits it captured. Since `]` is not a digit, the greedy digit run never
   * needs to backtrack.
   */
  function TagAt(s: string, prefix: string, i: nat): (r: Option<nat>)
    requires i <= |s|
    ensures r.Some? ==> r.value >= 1 && i + |prefix| + r.value < |s| && s[i + |prefix| + r.value] == ']'
  {
    if StartsWith(s[i..], prefix) then
      var j := i + |prefix|;
      var k := DigitRun(s, j);
      if k >= 1 && j + k < |s| && s[j + k] == ']' then Some(k) else None
    else None
  }

  /** A regular-expression match: where it starts, the captured digits, where it ends. */
  datatype TagMatch = TagMatch(start: nat, id: string, end: nat)

  /** The first match at or after position `i`. */
  function FindTagFrom(s: string, prefix: string, i: nat): (r: Option<TagMatch>)
    requires i <= |s|
    ensures r.Some? ==>
      && i <= r.value.start <= |s| && TagAt(s, prefix, r.value.start).Some?
      && r.value == MatchAt(s, prefix, r.value.start, TagAt(s, prefix, r.value.start).value)
    decreases |s| - i
  {
    match TagAt(s, prefix, i)
    case Some(k) => Some(MatchAt(s, prefix, i, k))
    case None =>
      if i == |s| then None else FindTagFrom(s, prefix, i + 1)
  }

  /** The match for a tag of `k` digits that starts at `i`. */
  function MatchAt(s: string, prefix: string, i: nat, k: nat): (m: TagMatch)
    requires i <= |s| && TagAt(s, prefix, i) == Some(k)
    ensures m.start == i && m.end == i + |prefix| + k + 1 <= |s| && |m.id| == k
    ensures m.id == s[i + |prefix| .. m.end - 1]
  {
    var j := i + |prefix|;
    TagMatch(i, s[j..j + k], j + k + 1)
  }

  /**
   * `/\[TAG:([0-9]+)\]/.exec(s)` where `prefix` is `[TAG:`: the leftmost
   * match, its captured digits and the text it spans.
   */
  function FindTag(s: string, prefix: string): (r: Option<TagMatch>)
    ensures r.Some? ==> |r.value.id| >= 1 && AllDigits(r.value.id)
    ensures r.Some? ==> r.value.start + |prefix| + |r.value.id| + 1 == r.value.end <= |s| && s[r.value.start..r.value.end] == prefix + r.value.id + "]"
  {
    var r := FindTagFrom(s, prefix, 0);
    if r.Some? then
      TagSpan(s, prefix, r.value.start, |r.value.id|);
      r
    else r
  }

  /** A position without a tag extends a tag-free range that starts just after it. */
  lemma NoTagExtends(s: string, prefix: string, i: nat, hi: nat)
    requires i < hi <= |s| + 1 && TagAt(s, prefix, i).None?
    requires forall j :: i + 1 <= j < hi ==> TagAt(s, prefix, j).None?
    ensures forall j :: i <= j < hi ==> TagAt(s, prefix, j).None?
  {
  }

  /** The match `FindTag` reports is the leftmost one; when it reports none, there is none. */
  lemma FindTagLeftmost(s: string, prefix: string)
    ensures var r := FindTag(s, prefix);
      && (r.Some? ==> forall j :: 0 <= j < r.value.start ==> TagAt(s, prefix, j).None?)
      && (r.None? ==> forall j :: 0 <= j <= |s| ==> TagAt(s, prefix, j).None?)
  {
    FindTagFromLeftmost(s, prefix, 0);
  }

  lemma {:induction false} FindTagFromLeftmost(s: string, prefix: string, i: nat)
    requires i <= |s|
    ensures var r := FindTagFrom(s, prefix, i);
      && (r.Some? ==> forall j :: i <= j < r.value.start ==> TagAt(s, prefix, j).None?)
      && (r.None? ==> forall j :: i <= j <= |s| ==> TagAt(s, prefix, j).None?)
    decreases |s| - i
  {
    if TagAt(s, prefix, i).None? && i < |s| {
      var r := FindTagFrom(s, prefix, i + 1);
      assert FindTagFrom(s, prefix, i) == r;
      FindTagFromLeftmost(s, prefix, i + 1);
      if r.Some? {
        NoTagExtends(s, prefix, i, r.value.start);
      } else {
        NoTagExtends(s, prefix, i, |s| + 1);
      }
    } else if TagAt(s, prefix, i).Some? {
      assert FindTagFrom(s, prefix, i) == Some(MatchAt(s, prefix, i, TagAt(s, prefix, i).value));
    } else {
      assert FindTagFrom(s, prefix, i) == None;
    }
  }

  lemma TagSpan(s: string, prefix: string, i: nat, k: nat)
    requires i <= |s| && TagAt(s, prefix, i) == Some(k)
    ensures i + |prefix| + k + 1 <= |s|
    ensures k >= 1 && AllDigits(s[i + |prefix|..i + |prefix| + k])
    ensures s[i..i + |prefix| + k + 1] == prefix + s[i + |prefix|..i + |prefix| + k] + "]"
  {
    var j := i + |prefix|;
    assert StartsWith(s[i..], prefix);
    assert s[i..j] == prefix;
    assert s[i..j + k + 1] == s[i..j] + s[j..j + k] + [s[j + k]];
  }

  /** The text matched by `(.*)` from position `j`: everything up to the first line terminator. */
  function LineRest(s: string, j: nat): (r: string)
    requires j <= |s|
    ensures j + |r| <= |s| && r == s[j..j + |r|]
    ensures forall i :: 0 <= i < |r| ==> !IsLineTerminator(r[i])
    ensures j + |r| < |s| ==> IsLineTerminator(s[j + |r|])
    decreases |s| - j
  {
    if j < |s| && !IsLineTerminator(s[j]) then [s[j]] + LineRest(s, j + 1) else ""
  }

  /** `s.replace(/\[TAG:[0-9]+\]/, repl)`: only the first match is rewritten. */
  function ReplaceTag(s: string, prefix: string, repl: string): string {
    match FindTag(s, prefix)
    case None => s
    case Some(m) => s[..m.start] + repl + s[m.end..]
  }

  /** `s.replace(/\[TAG:[0-9]+\]\s*\/, '')`: the first match and the white space after it are removed. */
  function StripTag(s: string, prefix: string): string {
    match FindTag(s, prefix)
    case None => s
    case Some(m) => StripMatch(s, m)
  }

  /** The string without the matched text and the white space after it. */
  function StripMatch(s: string, m: TagMatch): string
    requires m.start <= m.end <= |s|
  {
    s[..m.start] + s[m.end + SpaceRun(s, m.end)..]
  }

  /** A tag written at the very start of a string is the one the regular expression finds. */
  lemma TagAtFront(prefix: string, id: string, rest: string)
    requires |id| >= 1 && AllDigits(id)
    ensures FindTag(prefix + id + "]" + rest, prefix)
            == Some(TagMatch(0, id, |prefix| + |id| + 1))
  {
    var s := prefix + id + "]" + rest;
    var j := |prefix|;
    assert s[0..][..|prefix|] == prefix;
    DigitRunExact(s, j, |id|);
    assert TagAt(s, prefix, 0) == Some(|id|);
    assert s[j..j + |id|] == id;
  }

  /** What `\s*` leaves behind is what `trimStart` leaves. */
  lemma SpaceRunTrims(s: string, j: nat)
    requires j <= |s|
    ensures s[j + SpaceRun(s, j)..] == TrimStart(s[j..])
  {
    SpaceRunLength(s, j);
  }

  /** `\s*` from `j` and `trimStart` of the rest take away the same number of characters. */
  lemma {:induction false} SpaceRunLength(s: string, j: nat)
    requires j <= |s|
    ensures SpaceRun(s, j) + |TrimStart(s[j..])| == |s| - j
    decreases |s| - j
  {
    if j < |s| && IsSpace(s[j]) {
      assert s[j..][1..] == s[j + 1..];
      SpaceRunLength(s, j + 1);
    }
  }

  /** A string the tag expression matches contains the tag's opening text. */
  lemma FoundTagContained(s: string, prefix: string)
    requires FindTag(s, prefix).Some?
    ensures Contains(s, prefix)
  {
    var m := FindTag(s, prefix).value;
    assert s[m.start..m.end] == prefix + m.id + "]";
    assert s[m.start..][..|prefix|] == s[m.start..m.end][..|prefix|];
    ContainsAt(s, prefix, m.start);
  }

  /** TagAtFront, for a string already known to have that shape. */
  lemma TagOpens(s: string, prefix: string, id: string, rest: string)
    requires |id| >= 1 && AllDigits(id) && s == prefix + id + "]" + rest
    ensures FindTag(s, prefix) == Some(TagMatch(0, id, |prefix| + |id| + 1))
  {
    TagAtFront(prefix, id, rest);
  }

  /** Stripping the tag that opens a string leaves the rest with its leading white space trimmed. */
  lemma StripAtFront(prefix: string, id: string, rest: string)
    requires |id| >= 1 && AllDigits(id)
    ensures StripTag(prefix + id + "]" + rest, prefix) == TrimStart(rest)
  {
    var s := prefix + id + "]" + rest;
    var end := |prefix| + |id| + 1;
    TagAtFront(prefix, id, rest);
    StripLeading(s, TagMatch(0, id, end));
    assert s[end..] == rest;
  }

  /** Stripping a match that starts the string leaves what follows it, trimmed. */
  lemma StripLeading(s: string, m: TagMatch)
    requires m.start == 0 && m.end <= |s|
    ensures StripMatch(s, m) == TrimStart(s[m.end..])
  {
    StripFront(s, m);
    SpaceRunTrims(s, m.end);
  }

  /** Stripping a match that starts the string drops the match and the white space after it. */
  lemma StripFront(s: string, m: TagMatch)
    requires m.start == 0 && m.end <= |s|
    ensures StripMatch(s, m) == s[m.end + SpaceRun(s, m.end)..]
  {
    EmptyFront(s, m.end + SpaceRun(s, m.end));
  }

  /** Nothing taken from the front, then the rest from `i`, is the rest from `i`. */
  lemma EmptyFront(s: string, i: nat)
    requires i <= |s|
    ensures s[..0] + s[i..] == s[i..]
  {
    assert s[..0] == [];
  }

  /** Replacing the tag that opens a string puts the replacement in front of the rest. */
  lemma ReplaceAtFront(prefix: string, id: string, rest: string, repl: string)
    requires |id| >= 1 && AllDigits(id)
    ensures ReplaceTag(prefix + id + "]" + rest, prefix, repl) == repl + rest
  {
    var s := prefix + id + "]" + rest;
    var end := |prefix| + |id| + 1;
    TagAtFront(prefix, id, rest);
    assert s[end..] == rest;
    assert ReplaceTag(s, prefix, repl) == s[..0] + repl + rest;
    assert s[..0] + repl == repl;
  }

  lemma DigitRunExact(s: string, j: nat, k: nat)
    requires j + k < |s|
    requires forall i :: j <= i < j + k ==> IsDigit(s[i])
    requires !IsDigit(s[j + k])
    ensures DigitRun(s, j) == k
    decreases k
  {
    if k > 0 {
      DigitRunExact(s, j + 1, k - 1);
    }
  }
}
