/** The few `java.lang.String` operations the configuration pipeline relies on:
    `indexOf`, `replace`, `trim`, `isBlank`, joining, and `split` with the
    delimiter pattern `\s*(;|\r?\n)\s*` used for client type annotations.
 */
module Strings {
  import opened Results

  /** `s.indexOf(c, from)`: the first position at or after `from` holding `c`, or -1. */
  function IndexOf(s: string, c: char, from: nat): (r: int)
    ensures r == -1 || (from <= r < |s| && s[r] == c)
    decreases |s| - from
  {
    if from >= |s| then -1
    else if s[from] == c then from
    else IndexOf(s, c, from + 1)
  }

  /** No position before the one `IndexOf` finds, nor any at all when it finds none, holds `c`. */
  lemma {:induction false} IndexOfFirst(s: string, c: char, from: nat)
    ensures forall q :: from <= q < |s| && (IndexOf(s, c, from) == -1 || q < IndexOf(s, c, from)) ==> s[q] != c
    decreases |s| - from
  {
    if from < |s| && s[from] != c {
      IndexOfFirst(s, c, from + 1);
    }
  }

  /** `s.replace(from, to)` for single characters. */
  function ReplaceChar(s: string, from: char, to: char): (r: string)
    ensures |r| == |s|
    ensures forall i :: 0 <= i < |s| && s[i] == from ==> r[i] == to
    ensures forall i :: 0 <= i < |s| && s[i] != from ==> r[i] == s[i]
  {
    if s == [] then []
    else [if s[0] == from then to else s[0]] + ReplaceChar(s[1..], from, to)
  }

  /** After replacing every `from` by a different `to`, no `from` is left. */
  lemma ReplaceCharRemoves(s: string, from: char, to: char)
    requires from != to
    ensures from !in ReplaceChar(s, from, to)
  {
    var r := ReplaceChar(s, from, to);
    forall i | 0 <= i < |r|
      ensures r[i] != from
    {
      if s[i] == from {
        assert r[i] == to;
      } else {
        assert r[i] == s[i];
      }
    }
  }

  /** Characters `String.trim` removes: every code point up to and including the space. */
  predicate IsTrimmable(c: char) {
    c <= ' '
  }

  /** The leading part of `String.trim`. */
  function DropLeading(s: string): (r: string)
    ensures |r| <= |s| && r == s[|s| - |r|..]
    ensures forall i :: 0 <= i < |s| - |r| ==> IsTrimmable(s[i])
    ensures r == [] || !IsTrimmable(r[0])
  {
    if |s| > 0 && IsTrimmable(s[0]) then DropLeading(s[1..]) else s
  }

  /** The trailing part of `String.trim`. */
  function DropTrailing(s: string): (r: string)
    ensures |r| <= |s| && r == s[..|r|]
    ensures forall i :: |r| <= i < |s| ==> IsTrimmable(s[i])
    ensures r == [] || !IsTrimmable(r[|r| - 1])
  {
    if |s| > 0 && IsTrimmable(s[|s| - 1]) then DropTrailing(s[..|s| - 1]) else s
  }

  /** `String.trim`: drop the code points up to the space at both ends. */
  function Trim(s: string): (r: string)
    ensures |r| <= |s|
    ensures r == [] || (!IsTrimmable(r[0]) && !IsTrimmable(r[|r| - 1]))
    ensures (forall i :: 0 <= i < |s| ==> !IsTrimmable(s[i])) ==> r == s
  {
    var t := DropLeading(s);
    var r := DropTrailing(t);
    assert r == [] || r[0] == t[0];
    r
  }

  /** `Character.isWhitespace`: the ASCII controls 9-13 and 28-31, and the
      Unicode space separators other than the non-breaking ones. */
  predicate IsJavaWhitespace(c: char) {
    var n := c as int;
    || 9 <= n <= 13 || 28 <= n <= 32
    || n == 0x1680 || 0x2000 <= n <= 0x2006 || 0x2008 <= n <= 0x200A
    || n == 0x2028 || n == 0x2029 || n == 0x205F || n == 0x3000
  }

  /** `String.isBlank`: empty, or whitespace only. */
  predicate IsBlank(s: string) {
    forall i :: 0 <= i < |s| ==> IsJavaWhitespace(s[i])
  }

  /** The items separated by `sep`, as `String.join` writes them. */
  function Join(items: seq<string>, sep: string): string {
    if |items| == 0 then ""
    else if |items| == 1 then items[0]
    else items[0] + sep + Join(items[1..], sep)
  }

  // ---------------------------------------------------------------------------
  // `s.split("\\s*(;|\\r?\\n)\\s*")`
  // ---------------------------------------------------------------------------

  /** The regular-expression class `\s`. */
  predicate IsRegexSpace(c: char) {
    c == ' ' || c == '\t' || c == '\n' || c == '\r' || c as int == 11 || c as int == 12
  }

  /** The end of the run of `\s` characters that starts at `p`. */
  function SpaceRunEnd(s: string, p: nat): (e: nat)
    requires p <= |s|
    ensures p <= e <= |s|
    ensures forall i :: p <= i < e ==> IsRegexSpace(s[i])
    ensures e == |s| || !IsRegexSpace(s[e])
    decreases |s| - p
  {
    if p < |s| && IsRegexSpace(s[p]) then SpaceRunEnd(s, p + 1) else p
  }

  /** Where a match of `\s*(;|\r?\n)\s*` that starts at `p` ends, if one starts there.
      The greedy `\s*` takes the whole run of spaces; a `;` right after it wins,
      otherwise the engine backs off to the last line break inside the run and
      the trailing `\s*` takes the rest of the run again. */
  function MatchAt(s: string, p: nat): (m: Option<nat>)
    requires p <= |s|
    ensures m.Some? ==> p < m.value <= |s|
    ensures m.Some? ==> m.value == |s| || !IsRegexSpace(s[m.value])
    ensures p < |s| && (s[p] == ';' || s[p] == '\n') ==> m.Some?
  {
    var e := SpaceRunEnd(s, p);
    if e < |s| && s[e] == ';' then Some(SpaceRunEnd(s, e + 1))
    else if '\n' in s[p..e] then
      Some(e)
    else None
  }

  /** A match that starts on a space is also a match from the position before it. */
  lemma MatchAtExtendsBack(s: string, q: nat)
    requires q + 1 <= |s| && IsRegexSpace(s[q])
    requires MatchAt(s, q + 1).Some?
    ensures MatchAt(s, q).Some?
  {
    assert SpaceRunEnd(s, q) == SpaceRunEnd(s, q + 1);
    var e := SpaceRunEnd(s, q);
    if !(e < |s| && s[e] == ';') {
      var i :| i in s[q + 1..e] && i == '\n';
      assert s[q + 1..e] == s[q..e][1..];
      assert '\n' in s[q..e];
    }
  }

  /** `Matcher.find` from `from`: the leftmost match starting at or after `from`. */
  function FindFrom(s: string, from: nat): (r: Option<(nat, nat)>)
    requires from <= |s|
    ensures r.Some? ==> from <= r.value.0 < r.value.1 <= |s| && MatchAt(s, r.value.0) == Some(r.value.1)
    ensures r.Some? ==> forall q :: from <= q < r.value.0 ==> MatchAt(s, q).None?
    ensures r.None? ==> forall q :: from <= q <= |s| ==> MatchAt(s, q).None?
    decreases |s| - from
  {
    match MatchAt(s, from)
    case Some(e) => Some((from, e))
    case None => if from == |s| then None else FindFrom(s, from + 1)
  }

  /** The pieces between consecutive matches, from `from` to the end. */
  function SplitPieces(s: string, from: nat): (ps: seq<string>)
    requires from <= |s|
    ensures |ps| >= 1
    decreases |s| - from
  {
    match FindFrom(s, from)
    case None => [s[from..]]
    case Some((st, en)) => [s[from..st]] + SplitPieces(s, en)
  }

  /** `split` with limit 0 drops the empty strings at the end of the result. */
  function DropTrailingEmpty(ps: seq<string>): (r: seq<string>)
    ensures |r| <= |ps| && r == ps[..|r|]
    ensures forall i :: |r| <= i < |ps| ==> ps[i] == ""
    ensures r == [] || r[|r| - 1] != ""
  {
    if |ps| > 0 && ps[|ps| - 1] == "" then DropTrailingEmpty(ps[..|ps| - 1]) else ps
  }

  /** `s.split("\\s*(;|\\r?\\n)\\s*")`: with no match at all Java returns `[s]` as is. */
  function SplitOnDelimiters(s: string): seq<string> {
    if FindFrom(s, 0).None? then [s] else DropTrailingEmpty(SplitPieces(s, 0))
  }

  /** `s.trim().split("\\s*(;|\\r?\\n)\\s*")`. */
  function SplitAnnotations(s: string): seq<string> {
    SplitOnDelimiters(Trim(s))
  }

  /** A piece of an annotation list: no delimiter inside, no space at either end. */
  predicate CleanPiece(p: string) {
    && ';' !in p
    && '\n' !in p
    && (p == [] || (!IsRegexSpace(p[0]) && !IsRegexSpace(p[|p| - 1])))
  }

  /** No position strictly inside a stretch without matches holds a delimiter. */
  lemma NoDelimiterBeforeMatch(s: string, from: nat, to: nat)
    requires from <= to <= |s|
    requires forall q :: from <= q < to ==> MatchAt(s, q).None?
    ensures ';' !in s[from..to] && '\n' !in s[from..to]
  {
    forall i | from <= i < to
      ensures s[i] != ';' && s[i] != '\n'
    {
      assert MatchAt(s, i).None?;
    }
  }

  lemma {:induction false} SplitPiecesClean(s: string, from: nat)
    requires from <= |s|
    requires from == |s| || !IsRegexSpace(s[from])
    requires |s| == 0 || !IsRegexSpace(s[|s| - 1])
    ensures forall i :: 0 <= i < |SplitPieces(s, from)| ==> CleanPiece(SplitPieces(s, from)[i])
    decreases |s| - from
  {
    var ps := SplitPieces(s, from);
    match FindFrom(s, from)
    case None =>
      NoDelimiterBeforeMatch(s, from, |s|);
      assert ps == [s[from..]];
    case Some((st, en)) =>
      NoDelimiterBeforeMatch(s, from, st);
      if st > from && IsRegexSpace(s[st - 1]) {
        MatchAtExtendsBack(s, st - 1);
        assert false;
      }
      SplitPiecesClean(s, en);
      assert ps == [s[from..st]] + SplitPieces(s, en);
  }

  /** Every annotation `SplitAnnotations` returns is delimiter-free and has
      no surrounding whitespace. */
  lemma SplitAnnotationsClean(s: string)
    ensures forall i :: 0 <= i < |SplitAnnotations(s)| ==> CleanPiece(SplitAnnotations(s)[i])
  {
    var t := Trim(s);
    if t != [] {
      RegexSpaceIsTrimmable(t[0]);
      RegexSpaceIsTrimmable(t[|t| - 1]);
    }
    SplitOnDelimitersClean(t);
  }

  /** The split of a string without surrounding whitespace gives clean pieces. */
  lemma SplitOnDelimitersClean(t: string)
    requires t == [] || (!IsRegexSpace(t[0]) && !IsRegexSpace(t[|t| - 1]))
    ensures forall i :: 0 <= i < |SplitOnDelimiters(t)| ==> CleanPiece(SplitOnDelimiters(t)[i])
  {
    if FindFrom(t, 0).None? {
      NoDelimiterBeforeMatch(t, 0, |t|);
      assert t[0..|t|] == t;
    } else {
      var ps := SplitPieces(t, 0);
      SplitPiecesClean(t, 0);
      var r := DropTrailingEmpty(ps);
      assert forall i :: 0 <= i < |r| ==> r[i] == ps[i];
    }
  }

  /** A value with no `;` and no line break is a single annotation, trimmed. */
  lemma SplitAnnotationsSingle(s: string)
    requires ';' !in Trim(s) && '\n' !in Trim(s)
    ensures SplitAnnotations(s) == [Trim(s)]
  {
    var t := Trim(s);
    forall q | 0 <= q <= |t|
      ensures MatchAt(t, q).None?
    {
      var e := SpaceRunEnd(t, q);
      if e < |t| {
        assert t[e] in t;
      }
    }
  }

  // ---------------------------------------------------------------------------
  // Splitting a list written with `;` separators
  // ---------------------------------------------------------------------------

  /** `trim` leaves a string that starts and ends with kept characters as it is. */
  lemma TrimKeepsUnpadded(s: string)
    requires s != [] && !IsTrimmable(s[0]) && !IsTrimmable(s[|s| - 1])
    ensures Trim(s) == s
  {
    var t := DropLeading(s);
    assert t == s;
    assert DropTrailing(t) == t;
  }

  /** An annotation the split gives back unchanged: not empty, no delimiter
      inside, nothing `trim` would remove at either end. */
  predicate Annotation(p: string) {
    && p != []
    && ';' !in p && '\n' !in p
    && !IsTrimmable(p[0]) && !IsTrimmable(p[|p| - 1])
  }

  /** Every `\s` character is one `trim` removes. */
  lemma RegexSpaceIsTrimmable(c: char)
    ensures IsRegexSpace(c) ==> IsTrimmable(c)
  {
  }

  /** Joined non-empty items start with the first item's first character and
      end with the last item's last character. */
  lemma {:induction false} JoinEnds(items: seq<string>, sep: string)
    requires items != [] && forall j :: 0 <= j < |items| ==> items[j] != []
    ensures Join(items, sep) != []
    ensures Join(items, sep)[0] == items[0][0]
    ensures Join(items, sep)[|Join(items, sep)| - 1] == items[|items| - 1][|items[|items| - 1]| - 1]
    decreases |items|
  {
    if |items| > 1 {
      JoinEnds(items[1..], sep);
    }
  }

  /** No match starts inside a stretch that holds no delimiter and ends on a
      character other than `\s`. */
  lemma NoMatchInPiece(s: string, a: nat, b: nat, q: nat)
    requires a <= q < b <= |s|
    requires forall i :: a <= i < b ==> s[i] != ';' && s[i] != '\n'
    requires !IsRegexSpace(s[b - 1])
    ensures MatchAt(s, q).None?
  {
    var e := SpaceRunEnd(s, q);
    assert e < b;
    forall i | 0 <= i < e - q
      ensures s[q..e][i] != '\n'
    {
      assert s[q..e][i] == s[q + i];
    }
  }

  /** `find` from `from` stops at the first position where a match starts. */
  lemma {:induction false} FindFromAt(s: string, from: nat, p: nat, e: nat)
    requires from <= p <= |s| && MatchAt(s, p) == Some(e)
    requires forall q :: from <= q < p ==> MatchAt(s, q).None?
    ensures FindFrom(s, from) == Some((p, e))
    decreases p - from
  {
    if from < p {
      FindFromAt(s, from + 1, p, e);
    }
  }

  /** `items` written with `sep` between them sit in `s` from `from` to the end. */
  predicate JoinedAt(s: string, from: nat, items: seq<string>, sep: string)
    decreases |items|
  {
    && items != []
    && from + |items[0]| <= |s| && s[from..from + |items[0]|] == items[0]
    && if |items| == 1 then from + |items[0]| == |s|
       else
         var next := from + |items[0]| + |sep|;
         && next <= |s| && s[from + |items[0]|..next] == sep
         && JoinedAt(s, next, items[1..], sep)
  }

  /** Cutting a suffix written as three parts back into those parts. */
  lemma SuffixParts(s: string, from: nat, a: string, b: string, c: string)
    requires from <= |s| && s[from..] == a + b + c
    ensures from + |a| + |b| + |c| == |s|
    ensures s[from..from + |a|] == a
    ensures s[from + |a|..from + |a| + |b|] == b
    ensures s[from + |a| + |b|..] == c
  {
    assert s[from..][..|a|] == a;
    assert s[from..][|a|..|a| + |b|] == b;
    assert s[from..][|a| + |b|..] == c;
  }

  /** A suffix that is the joined items holds them in place. */
  lemma {:induction false} JoinIsJoinedAt(s: string, from: nat, items: seq<string>, sep: string)
    requires from <= |s| && s[from..] == Join(items, sep) && items != []
    ensures JoinedAt(s, from, items, sep)
    decreases |items|
  {
    if |items| == 1 {
      SuffixParts(s, from, items[0], "", "");
    } else {
      SuffixParts(s, from, items[0], sep, Join(items[1..], sep));
      JoinIsJoinedAt(s, from + |items[0]| + |sep|, items[1..], sep);
    }
  }

  /** No match starts inside an annotation that sits at `from`. */
  lemma NoMatchInAnnotation(s: string, from: nat, item: string)
    requires from + |item| <= |s| && s[from..from + |item|] == item && Annotation(item)
    ensures forall q :: from <= q < from + |item| ==> MatchAt(s, q).None?
  {
    var p := from + |item|;
    forall i | from <= i < p
      ensures s[i] != ';' && s[i] != '\n'
    {
      assert s[i] == item[i - from];
    }
    assert s[p - 1] == item[|item| - 1];
    RegexSpaceIsTrimmable(s[p - 1]);
    forall q | from <= q < p
      ensures MatchAt(s, q).None?
    {
      NoMatchInPiece(s, from, p, q);
    }
  }

  /** A separator followed by a character other than `\s` is one whole match. */
  lemma SeparatorMatch(s: string, p: nat, sep: string)
    requires sep == ";" || sep == "; "
    requires p + |sep| < |s| && s[p..p + |sep|] == sep && !IsTrimmable(s[p + |sep|])
    ensures MatchAt(s, p) == Some(p + |sep|)
  {
    assert s[p] == sep[0] == ';';
    assert SpaceRunEnd(s, p) == p;
    RegexSpaceIsTrimmable(s[p + |sep|]);
    if |sep| == 2 {
      assert s[p + 1] == sep[1] == ' ';
    }
  }

  /** The last annotation, alone at the end, is one piece. */
  lemma SplitPiecesLast(s: string, from: nat, item: string)
    requires from + |item| == |s| && s[from..from + |item|] == item && Annotation(item)
    ensures SplitPieces(s, from) == [item]
  {
    NoMatchInAnnotation(s, from, item);
    assert MatchAt(s, |s|).None?;
    assert FindFrom(s, from).None?;
    assert s[from..] == item;
  }

  /** An annotation followed by a separator and a character `trim` keeps is cut
      off as the first piece, and splitting resumes after the separator. */
  lemma SplitPiecesStep(s: string, from: nat, item: string, sep: string, next: nat)
    requires sep == ";" || sep == "; "
    requires next == from + |item| + |sep| && next < |s| && !IsTrimmable(s[next])
    requires s[from..from + |item|] == item && Annotation(item)
    requires s[from + |item|..next] == sep
    ensures SplitPieces(s, from) == [item] + SplitPieces(s, next)
  {
    var p := from + |item|;
    NoMatchInAnnotation(s, from, item);
    SeparatorMatch(s, p, sep);
    FindFromAt(s, from, p, next);
  }

  /** The first character of the annotations that sit at `from`. */
  lemma JoinedAtStart(s: string, from: nat, items: seq<string>, sep: string)
    requires JoinedAt(s, from, items, sep) && Annotation(items[0])
    ensures from < |s| && s[from] == items[0][0] && !IsTrimmable(s[from])
  {
    assert s[from..from + |items[0]|][0] == s[from];
  }

  /** One step of `SplitPiecesJoin`: the first annotation is cut off, and the
      rest sit where splitting resumes. */
  lemma SplitPiecesJoinStep(s: string, from: nat, items: seq<string>, sep: string, next: nat)
    requires JoinedAt(s, from, items, sep) && |items| > 1
    requires forall j :: 0 <= j < |items| ==> Annotation(items[j])
    requires sep == ";" || sep == "; "
    requires next == from + |items[0]| + |sep|
    ensures JoinedAt(s, next, items[1..], sep)
    ensures forall j :: 0 <= j < |items[1..]| ==> Annotation(items[1..][j])
    ensures SplitPieces(s, from) == [items[0]] + SplitPieces(s, next)
  {
    var rest := items[1..];
    assert rest[0] == items[1];
    JoinedAtStart(s, next, rest, sep);
    SplitPiecesStep(s, from, items[0], sep, next);
  }

  /** The pieces of annotations that sit at `from` are those annotations. */
  lemma {:induction false} SplitPiecesJoin(s: string, from: nat, items: seq<string>, sep: string)
    requires JoinedAt(s, from, items, sep)
    requires forall j :: 0 <= j < |items| ==> Annotation(items[j])
    requires sep == ";" || sep == "; "
    ensures SplitPieces(s, from) == items
    decreases |items|
  {
    if |items| == 1 {
      SplitPiecesLast(s, from, items[0]);
    } else {
      var next := from + |items[0]| + |sep|;
      SplitPiecesJoinStep(s, from, items, sep, next);
      SplitPiecesJoin(s, next, items[1..], sep);
      assert items == [items[0]] + items[1..];
    }
  }

  /** Lines 127-135 of the Kotlin client codegen, the other way round: annotations
      written one after another with `;` or `; ` between them are split back
      into exactly those annotations, in order. */
  lemma SplitAnnotationsJoin(items: seq<string>, sep: string)
    requires items != [] && forall j :: 0 <= j < |items| ==> Annotation(items[j])
    requires sep == ";" || sep == "; "
    ensures SplitAnnotations(Join(items, sep)) == items
  {
    var s := Join(items, sep);
    JoinEnds(items, sep);
    TrimKeepsUnpadded(s);
    assert s[0..] == s;
    JoinIsJoinedAt(s, 0, items, sep);
    SplitPiecesJoin(s, 0, items, sep);
    assert items[|items| - 1] != [];
  }
}
