/**
 * Character-level text handling of the title generator
 * (ai-title-generator/main.ts:120-135): `sanitizeTitle`, the rename
 * target path, and the `trim` the commands use to detect blank text.
 * The regular expressions of `sanitizeTitle` are written out by hand.
 */
module TitleText {
  import opened Wrappers

  /** Titles are cut to this many characters. */
  const MaxTitleLength := 100

  /** The characters `^["']|["']$` strips from the ends of a title. */
  predicate IsQuote(c: char) {
    c == '"' || c == '\''
  }

  /** The class `[\\/:*?"<>|]`: characters a file name may not contain. */
  predicate IsForbidden(c: char) {
    c == '\\' || c == '/' || c == ':' || c == '*' || c == '?' || c == '"' || c == '<' || c == '>' || c == '|'
  }

  /** 1 when `s` starts with a quote, else 0. */
  function Lead(s: string): (n: nat) {
    if |s| > 0 && IsQuote(s[0]) then 1 else 0
  }

  /**
   * `title.replace(/^["']|["']$/g, '')`: one leading and one trailing quote
   * go, and nothing else. A lone quote character is the leading one, and the
   * trailing alternative then has nothing left to match.
   */
  function StripQuotes(s: string): (r: string)
    ensures Lead(s) + |r| <= |s| <= Lead(s) + |r| + 1
    ensures r == s[Lead(s)..Lead(s) + |r|]
    ensures |s| == Lead(s) + |r| + 1 <==> |s| > Lead(s) && IsQuote(s[|s| - 1])
  {
    var t := s[Lead(s)..];
    if |t| > 0 && IsQuote(t[|t| - 1]) then t[..|t| - 1] else t
  }

  /** `title.replace(/[\\/:*?"<>|]/g, '-')`. */
  function ReplaceForbidden(s: string): (r: string)
    ensures |r| == |s|
    ensures forall i :: 0 <= i < |s| && IsForbidden(s[i]) ==> r[i] == '-'
    ensures forall i :: 0 <= i < |s| && !IsForbidden(s[i]) ==> r[i] == s[i]
    ensures forall i :: 0 <= i < |r| ==> !IsForbidden(r[i])
  {
    if s == [] then []
    else [if IsForbidden(s[0]) then '-' else s[0]] + ReplaceForbidden(s[1..])
  }

  /** `s.slice(0, n)` when `s` is longer than `n`. */
  function Truncate(s: string, n: nat): (r: string)
    ensures |r| == if |s| <= n then |s| else n
    ensures r == s[..|r|]
  {
    if |s| > n then s[..n] else s
  }

  /**
   * `sanitizeTitle`: strip the quotes, replace forbidden characters, cut to
   * 100 characters. The result is the longest prefix of the stripped and
   * replaced title that fits, and it is a valid file name segment.
   */
  function SanitizeTitle(title: string): (r: string)
    ensures |r| <= MaxTitleLength
    ensures forall i :: 0 <= i < |r| ==> !IsForbidden(r[i])
    ensures |r| == if |StripQuotes(title)| <= MaxTitleLength then |StripQuotes(title)| else MaxTitleLength
    ensures r == ReplaceForbidden(StripQuotes(title))[..|r|]
  {
    Truncate(ReplaceForbidden(StripQuotes(title)), MaxTitleLength)
  }

  /**
   * Every character of the title between its leading quote (if any) and its
   * last character keeps its place, shifted by the stripped quote, as long as
   * it falls within the first 100: forbidden ones become '-', all others,
   * apostrophes included, stay as they are.
   */
  lemma SanitizeKeepsInterior(title: string, i: nat)
    requires Lead(title) <= i < |title| - 1 && i - Lead(title) < MaxTitleLength
    ensures i - Lead(title) < |SanitizeTitle(title)|
    ensures SanitizeTitle(title)[i - Lead(title)] == if IsForbidden(title[i]) then '-' else title[i]
  {
  }

  /**
   * A title that is already short enough, has no forbidden character and
   * does not start or end with a quote comes back unchanged.
   */
  lemma SanitizeFixedPoint(title: string)
    requires |title| <= MaxTitleLength
    requires forall i :: 0 <= i < |title| ==> !IsForbidden(title[i])
    requires title != [] ==> !IsQuote(title[0]) && !IsQuote(title[|title| - 1])
    ensures SanitizeTitle(title) == title
  {
  }

  /** A leading quote is removed even when it is the whole title. */
  lemma SanitizeLoneQuote()
    ensures SanitizeTitle("\"") == "" && SanitizeTitle("'") == ""
    ensures SanitizeTitle("'x'") == "x" && SanitizeTitle("\"a\"b\"") == "a-b"
  {
  }

  // ---------------------------------------------------------------------
  // Blank text and trim
  // ---------------------------------------------------------------------

  /** The ASCII whitespace characters that `String.prototype.trim` removes. */
  predicate IsSpace(c: char) {
    c == ' ' || c == '\t' || c == '\n' || c == '\r' || c == '\U{000B}' || c == '\U{000C}'
  }

  predicate Blank(s: string) {
    forall i :: 0 <= i < |s| ==> IsSpace(s[i])
  }

  /** The first position at or after `from` that is not whitespace, or `|s|`. */
  function SkipSpaces(s: string, from: nat): (k: nat)
    requires from <= |s|
    ensures from <= k <= |s|
    ensures forall i :: from <= i < k ==> IsSpace(s[i])
    ensures k < |s| ==> !IsSpace(s[k])
    decreases |s| - from
  {
    if from == |s| || !IsSpace(s[from]) then from else SkipSpaces(s, from + 1)
  }

  /** The end of `s[..to]` once trailing whitespace is dropped. */
  function SkipSpacesBack(s: string, to: nat): (k: nat)
    requires to <= |s|
    ensures k <= to
    ensures forall i :: k <= i < to ==> IsSpace(s[i])
    ensures k > 0 ==> !IsSpace(s[k - 1])
  {
    if to == 0 || !IsSpace(s[to - 1]) then to else SkipSpacesBack(s, to - 1)
  }

  /** How many whitespace characters `trim()` removes from the front of `s`. */
  function TrimOffset(s: string): (n: nat)
    ensures n <= |s|
  {
    SkipSpaces(s, 0)
  }

  /**
   * `trim()`: the infix of `s` between its first and last non-whitespace
   * characters; what it drops on either side is whitespace, and it is empty
   * exactly when `s` is blank.
   */
  function Trim(s: string): (r: string)
    ensures TrimOffset(s) + |r| <= |s| && r == s[TrimOffset(s)..TrimOffset(s) + |r|]
    ensures forall i :: 0 <= i < TrimOffset(s) ==> IsSpace(s[i])
    ensures forall i :: TrimOffset(s) + |r| <= i < |s| ==> IsSpace(s[i])
    ensures r != [] ==> !IsSpace(r[0]) && !IsSpace(r[|r| - 1])
    ensures r == [] <==> Blank(s)
  {
    var a, b := SkipSpaces(s, 0), SkipSpacesBack(s, |s|);
    if b <= a then [] else s[a..b]
  }

  /** Trimming twice is trimming once. */
  lemma TrimIdempotent(s: string)
    ensures Trim(Trim(s)) == Trim(s)
  {
  }

  // ---------------------------------------------------------------------
  // Rename target
  // ---------------------------------------------------------------------

  /**
   * `file.parent ? parent.path + "/" + title + ".md" : title + ".md"`
   * (line 133): the path ends in `title.md`, preceded by the parent's path
   * and a '/' when the note has a parent, and by nothing otherwise.
   */
  function RenamePath(parentPath: Option<string>, title: string): (p: string)
    ensures |p| >= |title| + 3 && p[|p| - |title| - 3..] == title + ".md"
    ensures parentPath.None? ==> |p| == |title| + 3
    ensures parentPath.Some? ==>
      && |p| == |parentPath.value| + 1 + |title| + 3
      && p[..|parentPath.value|] == parentPath.value && p[|parentPath.value|] == '/'
  {
    match parentPath
    case Some(p) => p + "/" + title + ".md"
    case None => title + ".md"
  }

  /** The position of the last '/' in `path`, or -1 when there is none. */
  function LastSlash(path: string): (r: int)
    ensures -1 <= r < |path|
    ensures r >= 0 ==> path[r] == '/'
    ensures forall k :: r < k < |path| ==> path[k] != '/'
  {
    if path == [] then -1
    else if path[|path| - 1] == '/' then |path| - 1
    else LastSlash(path[..|path| - 1])
  }

  /** The folder part of a path: everything before its last '/', if it has one. */
  function Folder(path: string): (r: Option<string>)
    ensures r.Some? ==> |r.value| < |path| && path[|r.value|] == '/' && r.value == path[..|r.value|]
    ensures r.None? ==> forall k :: 0 <= k < |path| ==> path[k] != '/'
  {
    var i := LastSlash(path);
    if i == -1 then None else Some(path[..i])
  }

  /** The file name part of a path: everything after its last '/'. */
  function FileName(path: string): (n: string)
    ensures |n| <= |path| && n == path[|path| - |n|..]
    ensures forall k :: 0 <= k < |n| ==> n[k] != '/'
  {
    path[LastSlash(path) + 1..]
  }

  /**
   * Renaming to a sanitized title keeps the note in its folder: the new
   * path's folder is the old parent and its file name is `title.md`,
   * because a sanitized title holds no '/'.
   */
  lemma RenameStaysInFolder(parentPath: Option<string>, title: string)
    requires forall i :: 0 <= i < |title| ==> !IsForbidden(title[i])
    ensures FileName(RenamePath(parentPath, title)) == title + ".md"
    ensures Folder(RenamePath(parentPath, title)) == parentPath
  {
    var name := title + ".md";
    var path := RenamePath(parentPath, title);
    match parentPath {
      case Some(p) =>
        assert path == p + "/" + name;
        assert path[|p|] == '/';
        assert LastSlash(path) == |p|;
        assert path[..|p|] == p;
      case None =>
        assert path == name;
        assert LastSlash(path) == -1;
    }
  }
}
