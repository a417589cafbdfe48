// The three regular-expression replacements the upload hooks apply to file
// names (src/hooks/useAlbumUpload.ts, src/hooks/useUploadForm.ts):
//   /\.[^/.]+$/      the extension,
//   /^\d+[\s\-.]*/   a leading track number and its separator,
//   /\s*-\s*.*/      everything from the first dash on (to the line end).
// Each is a single, non-global String.prototype.replace with ''.

module FileNames {
  import opened Strings
  import opened JsText

  /** A character `[^/.]` accepts. */
  predicate Plain(c: char)
  {
    c != '.' && c != '/'
  }

  /** The length of the longest suffix of plain characters. */
  function TrailingPlain(s: string): (t: nat)
    ensures t <= |s|
  {
    if |s| > 0 && Plain(s[|s| - 1]) then 1 + TrailingPlain(s[..|s| - 1]) else 0
  }

  /** The suffix is plain and the character before it is not. */
  lemma {:induction false} TrailingPlainSpan(s: string)
    ensures var t := TrailingPlain(s);
            (forall j :: |s| - t <= j < |s| ==> Plain(s[j])) && (t < |s| ==> !Plain(s[|s| - t - 1]))
  {
    if |s| > 0 && Plain(s[|s| - 1]) {
      TrailingPlainSpan(s[..|s| - 1]);
    }
  }

  /**
   * name.replace(/\.[^/.]+$/, ''): a final '.' followed by at least one
   * character, none of them '.' or '/', is removed with what follows it.
   */
  function StripExtension(name: string): (r: string)
    ensures |r| <= |name|
  {
    var t := TrailingPlain(name);
    if 0 < t < |name| && name[|name| - t - 1] == '.' then name[..|name| - t - 1] else name
  }

  /** What is removed is a '.' and at least one plain character after it, at the end of the name. */
  lemma StripExtensionPrefix(name: string)
    ensures var r := StripExtension(name);
            r <= name &&
            (r != name ==> |r| + 1 < |name| && name[|r|] == '.' && forall j :: |r| < j < |name| ==> Plain(name[j]))
  {
    TrailingPlainSpan(name);
  }

  /** A name left whole has no extension: every '.' before its last character has a '.' or '/' after it. */
  lemma StripExtensionKeepsName(name: string)
    requires StripExtension(name) == name
    ensures forall k :: 0 <= k < |name| - 1 && name[k] == '.' ==> exists j :: k < j < |name| && !Plain(name[j])
  {
    var t := TrailingPlain(name);
    TrailingPlainSpan(name);
    assert forall k :: 0 <= k < |name| - 1 && name[k] == '.' ==>
      (t == 0 ==> !Plain(name[|name| - 1])) && (t > 0 ==> !Plain(name[|name| - t - 1]) && k < |name| - t - 1);
  }

  /** Stripping the extension of a base and an extension gives back the base. */
  lemma StripExtensionOfNamed(base: string, ext: string)
    requires |ext| > 0 && forall j :: 0 <= j < |ext| ==> Plain(ext[j])
    ensures StripExtension(base + "." + ext) == base
  {
    var name := base + "." + ext;
    TrailingPlainSpan(name);
    assert name[|base|] == '.';
    assert forall j :: |base| < j < |name| ==> name[j] == ext[j - |base| - 1];
    assert name[..|base|] == base;
  }

  /** A character `[\s\-.]` accepts. */
  predicate Separator(c: char)
  {
    IsJsSpace(c) || c == '-' || c == '.'
  }

  /** s.replace(/^\d+[\s\-.]*\/, ''): a leading run of digits and the separators after it are removed. */
  function StripTrackNumber(s: string): (r: string)
    ensures |r| <= |s|
  {
    if |s| > 0 && IsDigit(s[0]) then DropLeading(DropLeading(s, IsDigit), Separator) else s
  }

  /**
   * The strip leaves a suffix: all of a name that does not start with a
   * digit, and otherwise a shorter one that does not start with a separator.
   */
  lemma StripTrackNumberSuffix(s: string)
    ensures var r := StripTrackNumber(s);
            r == s[|s| - |r|..] &&
            ((|s| == 0 || !IsDigit(s[0])) ==> r == s) &&
            (|s| > 0 && IsDigit(s[0]) ==> |r| < |s| && (|r| == 0 || !Separator(r[0])))
  {
    if |s| > 0 && IsDigit(s[0]) {
      var digitsGone := DropLeading(s, IsDigit);
      DropLeadingSuffix(s, IsDigit);
      DropLeadingSuffix(digitsGone, Separator);
      var r := DropLeading(digitsGone, Separator);
      assert digitsGone[|digitsGone| - |r|..] == s[|s| - |r|..];
    }
  }

  /** A track number, separators and a title give the title. */
  lemma StripTrackNumberOfTrack(digits: string, separators: string, title: string)
    requires |digits| > 0 && forall j :: 0 <= j < |digits| ==> IsDigit(digits[j])
    requires forall j :: 0 <= j < |separators| ==> Separator(separators[j])
    requires |title| == 0 || !Separator(title[0])
    requires |separators| == 0 && |title| > 0 ==> !IsDigit(title[0])
    ensures StripTrackNumber(digits + separators + title) == title
  {
    var s := digits + separators + title;
    assert s == digits + (separators + title);
    assert IsDigit(s[0]);
    if |separators| > 0 {
      assert !IsDigit(separators[0]);
    }
    DropLeadingPrefix(digits, separators + title, IsDigit);
    DropLeadingPrefix(separators, title, Separator);
  }

  /** The length of the longest suffix of white space. */
  function TrailingSpace(s: string): (t: nat)
    ensures t <= |s|
  {
    if |s| > 0 && IsJsSpace(s[|s| - 1]) then 1 + TrailingSpace(s[..|s| - 1]) else 0
  }

  /** The suffix is white space and the character before it is not. */
  lemma {:induction false} TrailingSpaceSpan(s: string)
    ensures var t := TrailingSpace(s);
            (forall j :: |s| - t <= j < |s| ==> IsJsSpace(s[j])) && (t < |s| ==> !IsJsSpace(s[|s| - t - 1]))
  {
    if |s| > 0 && IsJsSpace(s[|s| - 1]) {
      TrailingSpaceSpan(s[..|s| - 1]);
    }
  }

  predicate NotLineTerminator(c: char)
  {
    !IsLineTerminator(c)
  }

  /** What `\s*.*` matches after the dash ends where the line does: the rest of the text after it. */
  function AfterLine(s: string): (r: string)
    ensures |r| <= |s|
  {
    DropLeading(DropLeading(s, IsJsSpace), NotLineTerminator)
  }

  /** A text with no line terminator. */
  predicate OneLine(s: string)
  {
    forall j :: 0 <= j < |s| ==> !IsLineTerminator(s[j])
  }

  lemma OneLineSuffix(s: string, k: nat)
    requires OneLine(s) && k <= |s|
    ensures OneLine(s[k..])
  {
    assert forall j :: 0 <= j < |s| - k ==> s[k..][j] == s[k + j];
  }

  /** Within one line, `\s*.*` takes everything. */
  lemma AfterLineOfLine(s: string)
    requires OneLine(s)
    ensures AfterLine(s) == ""
  {
    var t := DropLeading(s, IsJsSpace);
    DropLeadingSuffix(s, IsJsSpace);
    OneLineSuffix(s, |s| - |t|);
    DropLeadingSuffix(t, NotLineTerminator);
  }

  /**
   * s.replace(/\s*-\s*.*\/, ''): from the white space before the first
   * '-', through the white space after it and the rest of that line, is
   * removed.
   */
  function CutAtDash(s: string): (r: string)
    ensures '-' !in s ==> r == s
    ensures '-' in s ==> |r| < |s|
  {
    var d := IndexOf(s, '-');
    if d == -1 then s
    else s[..d - TrailingSpace(s[..d])] + AfterLine(s[d + 1..])
  }

  /** On one line, the cut keeps exactly what precedes the dash and its white space. */
  lemma CutAtDashOfLine(s: string)
    requires '-' in s && OneLine(s)
    ensures CutAtDash(s) <= s && '-' !in CutAtDash(s)
    ensures |CutAtDash(s)| == 0 || !IsJsSpace(CutAtDash(s)[|CutAtDash(s)| - 1])
  {
    var d := IndexOf(s, '-');
    assert '-' !in s[..d];
    OneLineSuffix(s, d + 1);
    CutAtFirstDash(s, d);
    TrailingSpaceSpan(s[..d]);
    var p := d - TrailingSpace(s[..d]);
    var c := s[..p];
    assert forall j :: 0 <= j < p ==> c[j] == s[j];
    if p > 0 {
      assert c[p - 1] == s[..d][p - 1];
    }
  }

  /** A text of white space only. */
  predicate AllSpace(w: string)
  {
    forall j :: 0 <= j < |w| ==> IsJsSpace(w[j])
  }

  /** With its first dash at d and one line after it, the cut keeps what precedes the dash and its white space. */
  lemma CutAtFirstDash(s: string, d: nat)
    requires d < |s| && s[d] == '-' && '-' !in s[..d]
    requires OneLine(s[d + 1..])
    ensures CutAtDash(s) == s[..d - TrailingSpace(s[..d])]
  {
    assert forall j :: 0 <= j < d ==> s[j] == s[..d][j];
    assert IndexOf(s, '-') == d;
    AfterLineOfLine(s[d + 1..]);
  }

  /** A name with a dash cuts to what stands before it. */
  lemma CutAtDashOfPair(first: string, space: string, rest: string)
    requires '-' !in first && (|first| == 0 || !IsJsSpace(first[|first| - 1]))
    requires AllSpace(space)
    requires OneLine(rest)
    ensures CutAtDash(first + space + "-" + rest) == first
  {
    var a := first + space;
    var s := a + "-" + rest;
    assert s[..|a|] == a;
    assert s[|a| + 1..] == rest;
    assert '-' !in space by {
      assert !IsJsSpace('-');
    }
    CutAtFirstDash(s, |a|);
    TrailingSpaceAfter(first, space);
    assert a[..|first|] == first;
  }

  /** The white space at the end of a + w is w when a does not end in white space. */
  lemma {:induction false} TrailingSpaceAfter(a: string, w: string)
    requires |a| == 0 || !IsJsSpace(a[|a| - 1])
    requires AllSpace(w)
    ensures TrailingSpace(a + w) == |w|
  {
    if |w| == 0 {
      assert a + w == a;
    } else {
      TrailingSpaceAfter(a, w[..|w| - 1]);
      assert (a + w)[..|a + w| - 1] == a + w[..|w| - 1];
    }
  }

  /** handleAlbumFilesChange: the album name taken from the first file's name. */
  function AlbumNameFrom(fileName: string): (r: string)
    ensures r != ""
  {
    var cleanName := CutAtDash(StripTrackNumber(StripExtension(fileName)));
    if cleanName == "" then "New Album" else cleanName
  }

  /** "01 Artist - Song.mp3"-style names: the album name is what stands between the number and the dash. */
  lemma AlbumNameOfTrack(digits: string, separators: string, first: string, space: string, rest: string, ext: string)
    requires |digits| > 0 && forall j :: 0 <= j < |digits| ==> IsDigit(digits[j])
    requires forall j :: 0 <= j < |separators| ==> Separator(separators[j])
    requires |first| > 0 && !Separator(first[0]) && (|separators| == 0 ==> !IsDigit(first[0]))
    requires '-' !in first && !IsJsSpace(first[|first| - 1])
    requires AllSpace(space) && OneLine(rest)
    requires |ext| > 0 && forall j :: 0 <= j < |ext| ==> Plain(ext[j])
    ensures AlbumNameFrom(digits + separators + first + space + "-" + rest + "." + ext) == first
  {
    var title := first + space + "-" + rest;
    assert title[0] == first[0];
    assert digits + separators + first + space + "-" + rest == digits + separators + title;
    StripExtensionOfNamed(digits + separators + title, ext);
    StripTrackNumberOfTrack(digits, separators, title);
    CutAtDashOfPair(first, space, rest);
  }

  /** A name that is only a track number falls back to "New Album". */
  lemma AlbumNameOfNumber(digits: string, ext: string)
    requires |digits| > 0 && forall j :: 0 <= j < |digits| ==> IsDigit(digits[j])
    requires |ext| > 0 && forall j :: 0 <= j < |ext| ==> Plain(ext[j])
    ensures AlbumNameFrom(digits + "." + ext) == "New Album"
  {
    StripExtensionOfNamed(digits, ext);
    assert digits == digits + "" + "";
    StripTrackNumberOfTrack(digits, "", "");
  }

  /** The default title of an album track: no extension and no track number. */
  function DefaultTitle(fileName: string): (r: string)
    ensures |r| <= |StripExtension(fileName)| <= |fileName|
  {
    StripTrackNumber(StripExtension(fileName))
  }

  /** "07 - Title.mp3"-style names: the title is what stands between number and extension. */
  lemma DefaultTitleOfTrack(digits: string, separators: string, title: string, ext: string)
    requires |digits| > 0 && forall j :: 0 <= j < |digits| ==> IsDigit(digits[j])
    requires forall j :: 0 <= j < |separators| ==> Separator(separators[j])
    requires |title| == 0 || !Separator(title[0])
    requires |separators| == 0 && |title| > 0 ==> !IsDigit(title[0])
    requires |ext| > 0 && forall j :: 0 <= j < |ext| ==> Plain(ext[j])
    ensures DefaultTitle(digits + separators + title + "." + ext) == title
  {
    StripExtensionOfNamed(digits + separators + title, ext);
    StripTrackNumberOfTrack(digits, separators, title);
  }
}
