/** The breadcrumb trail of components/layout/Breadcrumb.tsx: the path of
    the page cut into its segments, each shown with a readable label and,
    except the last, linked to the path up to it. */
module Breadcrumb {
  import opened Types
  import opened Strings
  import opened Seqs

  /** `pathname === '/'`: no trail on the home page. */
  predicate Shown(pathname: string)
  {
    pathname != "/"
  }

  /** `pathname.split('/').filter(segment => segment !== '')`. */
  function Segments(pathname: string): seq<string>
  {
    Filter(Split(pathname, '/'), (s: string) => s != "")
  }

  /** Every segment is a non-empty piece of the path without a '/'. */
  lemma SegmentsAreClean(pathname: string)
    ensures forall k :: 0 <= k < |Segments(pathname)| ==>
      Segments(pathname)[k] != "" && '/' !in Segments(pathname)[k]
  {
    var f := (s: string) => s != "";
    FilterMembers(Split(pathname, '/'), f);
    SplitParts(pathname, '/');
    forall k | 0 <= k < |Segments(pathname)|
      ensures Segments(pathname)[k] != "" && '/' !in Segments(pathname)[k]
    {
      var seg := Segments(pathname)[k];
      assert seg in Split(pathname, '/');
      var j :| 0 <= j < |Split(pathname, '/')| && Split(pathname, '/')[j] == seg;
    }
  }

  /** A path written as '/' followed by non-empty segments joined by '/' is
      cut back into exactly those segments, so the last crumb's path is the
      page's own path. */
  lemma SegmentsOfJoin(segs: seq<string>)
    requires |segs| >= 1
    requires forall k :: 0 <= k < |segs| ==> segs[k] != "" && '/' !in segs[k]
    ensures Segments("/" + Join(segs, '/')) == segs
    ensures BuildPath(segs, |segs| - 1) == "/" + Join(segs, '/')
  {
    var f := (s: string) => s != "";
    SplitAppendSep([], Join(segs, '/'), '/');
    assert [] + ['/'] + Join(segs, '/') == "/" + Join(segs, '/');
    SplitJoin(segs, '/');
    assert Split("/" + Join(segs, '/'), '/') == [[]] + segs;
    FilterAll(segs, f);
    assert segs[..|segs|] == segs;
  }

  /** `word.charAt(0).toUpperCase() + word.slice(1)`. */
  function Capitalize(word: string): string
  {
    if word == [] then [] else [UpperChar(word[0])] + word[1..]
  }

  function CapitalizeAll(words: seq<string>): (r: seq<string>)
    ensures |r| == |words|
  {
    if words == [] then [] else [Capitalize(words[0])] + CapitalizeAll(words[1..])
  }

  /** `formatSegment` without the URI decoding: split at '-', capitalise
      each word, join with ' '. */
  function FormatSegment(segment: string): string
  {
    Join(CapitalizeAll(Split(segment, '-')), ' ')
  }

  /** The label read one character at a time: a '-' becomes a space, and
      the character at the start of a word is upper-cased. */
  function FormatChars(s: string, wordStart: bool): (r: string)
    ensures |r| == |s|
  {
    if s == [] then []
    else if s[0] == '-' then [' '] + FormatChars(s[1..], true)
    else [if wordStart then UpperChar(s[0]) else s[0]] + FormatChars(s[1..], false)
  }

  /** The pieces of a split joined back, the first one capitalised or not. */
  function JoinWords(parts: seq<string>, capFirst: bool): string
    requires |parts| >= 1
  {
    Join([if capFirst then Capitalize(parts[0]) else parts[0]] + CapitalizeAll(parts[1..]), ' ')
  }

  lemma JoinCons(c: char, x: string, ys: seq<string>)
    ensures Join([[c] + x] + ys, ' ') == [c] + Join([x] + ys, ' ')
  {
    if ys != [] {
      assert ([[c] + x] + ys)[1..] == ys && ([x] + ys)[1..] == ys;
    }
  }

  lemma {:induction false} FormatMatchesChars(s: string, capFirst: bool)
    ensures JoinWords(Split(s, '-'), capFirst) == FormatChars(s, capFirst)
  {
    if s == [] {
    } else if s[0] == '-' {
      var rest := Split(s[1..], '-');
      FormatMatchesChars(s[1..], true);
      assert Split(s, '-') == [[]] + rest;
      assert CapitalizeAll(rest) == [Capitalize(rest[0])] + CapitalizeAll(rest[1..]);
      var ws := [[]] + CapitalizeAll(rest);
      assert ws[1..] == CapitalizeAll(rest);
      assert JoinWords(Split(s, '-'), capFirst) == Join(ws, ' ');
    } else {
      var rest := Split(s[1..], '-');
      FormatMatchesChars(s[1..], false);
      var c := if capFirst then UpperChar(s[0]) else s[0];
      assert Split(s, '-') == [[s[0]] + rest[0]] + rest[1..];
      assert (if capFirst then Capitalize([s[0]] + rest[0]) else [s[0]] + rest[0]) == [c] + rest[0];
      JoinCons(c, rest[0], CapitalizeAll(rest[1..]));
    }
  }

  /** The character of the label at position `i`. */
  function LabelChar(s: string, wordStart: bool, i: nat): char
    requires i < |s|
  {
    if s[i] == '-' then ' '
    else if (i == 0 && wordStart) || (i > 0 && s[i - 1] == '-') then UpperChar(s[i])
    else s[i]
  }

  lemma {:induction false} FormatCharAt(s: string, wordStart: bool, i: nat)
    requires i < |s|
    ensures FormatChars(s, wordStart)[i] == LabelChar(s, wordStart, i)
  {
    if i > 0 {
      var t := s[1..];
      FormatCharAt(t, s[0] == '-', i - 1);
      assert FormatChars(s, wordStart)[i] == FormatChars(t, s[0] == '-')[i - 1];
      assert t[i - 1] == s[i];
      if i > 1 {
        assert t[i - 2] == s[i - 1];
      }
    }
  }

  /** A label has the segment's length: every '-' becomes a space, the
      first character and every character after a '-' is upper-cased, and
      every other character is kept. */
  lemma FormatSegmentSpec(segment: string)
    ensures |FormatSegment(segment)| == |segment|
    ensures forall i :: 0 <= i < |segment| ==>
      FormatSegment(segment)[i] ==
        if segment[i] == '-' then ' '
        else if i == 0 || segment[i - 1] == '-' then UpperChar(segment[i])
        else segment[i]
  {
    FormatMatchesChars(segment, true);
    var parts := Split(segment, '-');
    assert CapitalizeAll(parts) == [Capitalize(parts[0])] + CapitalizeAll(parts[1..]);
    var r := FormatChars(segment, true);
    assert FormatSegment(segment) == r;
    forall i | 0 <= i < |segment|
      ensures r[i] == if segment[i] == '-' then ' '
        else if i == 0 || segment[i - 1] == '-' then UpperChar(segment[i])
        else segment[i]
    {
      FormatCharAt(segment, true, i);
    }
  }

  /** `buildPath(index)`: '/' and the segments up to `index`, joined by '/'. */
  function BuildPath(segments: seq<string>, index: nat): string
    requires index < |segments|
  {
    "/" + Join(segments[..index + 1], '/')
  }

  /** Each crumb's path extends the one before by '/' and its own segment. */
  lemma BuildPathExtends(segments: seq<string>, index: nat)
    requires index + 1 < |segments|
    ensures BuildPath(segments, index + 1) == BuildPath(segments, index) + "/" + segments[index + 1]
  {
    assert segments[..index + 2] == segments[..index + 1] + [segments[index + 1]];
    JoinSnoc(segments[..index + 1], segments[index + 1], '/');
  }

  /** One crumb: its label, and the path it links to unless it is the last. */
  datatype Crumb = Crumb(text: string, link: Option<string>)

  /** The crumbs of `segments[index..]`. */
  function CrumbsFrom(segments: seq<string>, index: nat): seq<Crumb>
    requires index <= |segments|
    decreases |segments| - index
  {
    if index == |segments| then []
    else
      var link := if index == |segments| - 1 then None else Some(BuildPath(segments, index));
      [Crumb(FormatSegment(segments[index]), link)] + CrumbsFrom(segments, index + 1)
  }

  /** The crumb of segment `i`: its formatted label, and a link to the path
      up to it unless it is the last segment. */
  function CrumbOf(segments: seq<string>, i: nat): Crumb
    requires i < |segments|
  {
    Crumb(FormatSegment(segments[i]), if i == |segments| - 1 then None else Some(BuildPath(segments, i)))
  }

  lemma {:induction false} CrumbsLength(segments: seq<string>, index: nat)
    requires index <= |segments|
    ensures |CrumbsFrom(segments, index)| == |segments| - index
    decreases |segments| - index
  {
    if index < |segments| {
      CrumbsLength(segments, index + 1);
    }
  }

  lemma {:induction false} CrumbAt(segments: seq<string>, index: nat, k: nat)
    requires index + k < |segments|
    ensures k < |CrumbsFrom(segments, index)|
    ensures CrumbsFrom(segments, index)[k] == CrumbOf(segments, index + k)
    decreases k
  {
    CrumbsLength(segments, index);
    if k > 0 {
      CrumbAt(segments, index + 1, k - 1);
      assert CrumbsFrom(segments, index)[k] == CrumbsFrom(segments, index + 1)[k - 1];
    }
  }

  /** One crumb per segment, labelled with the formatted segment; every
      crumb but the last links to the path up to its segment, and the last
      is plain text. */
  lemma CrumbsSpec(segments: seq<string>)
    ensures |CrumbsFrom(segments, 0)| == |segments|
    ensures forall k :: 0 <= k < |segments| ==>
      CrumbsFrom(segments, 0)[k].text == FormatSegment(segments[k]) &&
      (CrumbsFrom(segments, 0)[k].link.None? <==> k == |segments| - 1) &&
      (CrumbsFrom(segments, 0)[k].link.Some? ==> CrumbsFrom(segments, 0)[k].link.value == BuildPath(segments, k))
  {
    CrumbsLength(segments, 0);
    forall k | 0 <= k < |segments|
      ensures CrumbsFrom(segments, 0)[k] == CrumbOf(segments, k)
    {
      CrumbAt(segments, 0, k);
    }
  }

  /** The trail after the Home link: one crumb per segment, nothing on the
      home page. */
  function Trail(pathname: string): (r: seq<Crumb>)
    ensures !Shown(pathname) ==> r == []
    ensures Shown(pathname) ==> r == CrumbsFrom(Segments(pathname), 0)
  {
    if !Shown(pathname) then [] else CrumbsFrom(Segments(pathname), 0)
  }
}
