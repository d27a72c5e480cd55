/** The test-suite driver's parser for the mapping arguments: a list of maps
    written the way Java prints a `List<Map<String, String>>`, as in
    `[{name=id, location=PATH}, {name=q, location=QUERY}]`, read back by an
    index walk over the string and turned into parameter or response-body
    mappings.

    The walk is modelled step by step. Java assertions are disabled at run
    time, so the ones in the walk are not checks; any index the walk takes
    outside the string is a `StringIndexOutOfBoundsException`, returned here
    as a failure.
 */
module GeneratorMain {
  import opened Results
  import opened Strings
  import opened Mappings

  type Entries = map<string, string>

  const IndexOutOfBounds: string := "StringIndexOutOfBoundsException"

  // ---------------------------------------------------------------------------
  // parseListOfMaps
  // ---------------------------------------------------------------------------

  /** Lines 161-172: the entry read at `i`, below `endIndex`: one space is
      skipped, the name runs to the next `=` (a missing one makes the substring
      fail), the value to the next comma, or to `endIndex` when no comma comes
      before it; a value that would end before it starts fails too. Returns
      the name, the value and the position after the value. */
  function EntryAt(s: string, i: nat, endIndex: int): (r: Result<(string, string, nat), string>)
    requires i < endIndex < |s|
    ensures r.Success? ==> r.value.2 > i
  {
    var i1 := if s[i] == ' ' then i + 1 else i;
    var nameIndex := IndexOf(s, '=', i1);
    if nameIndex == -1 then Failure(IndexOutOfBounds)
    else
      var i2 := nameIndex + 1;
      var commaIndex := IndexOf(s, ',', i2);
      var valueIndex := if endIndex < commaIndex || commaIndex == -1 then endIndex else commaIndex;
      if valueIndex < i2 then Failure(IndexOutOfBounds)
      else Success((s[i1..nameIndex], s[i2..valueIndex], valueIndex + 1))
  }

  /** Lines 160-175: the entries of one map, read from `i` while `i` stays
      below `endIndex`, the position of the map's closing brace (or -1 when
      there is none). Returns the map and the position after the last value. */
  function ParseEntries(s: string, i: nat, endIndex: int, m: Entries): (r: Result<(Entries, nat), string>)
    requires endIndex < |s|
    ensures r.Success? ==> r.value.1 >= i
    decreases endIndex - i
  {
    if !(i < endIndex) then Success((m, i))
    else
      match EntryAt(s, i, endIndex)
      case Failure(e) => Failure(e)
      case Success((name, value, next)) => ParseEntries(s, next, endIndex, m[name := value])
  }

  /** Lines 148-181: the maps from position `i` on, until a `]` is met where a
      map would start. A map may be preceded by one space; the character after
      it is skipped as the opening brace whatever it is. After the map one more
      character is skipped unless the walk stands on the last one. */
  function ParseGroups(s: string, i: nat, acc: seq<Entries>): (r: Result<seq<Entries>, string>)
    decreases |s| - i
  {
    if i >= |s| then Failure(IndexOutOfBounds)
    else if s[i] == ']' then Success(acc)
    else
      var i1 := if s[i] == ' ' then i + 1 else i;
      var i2 := i1 + 1;
      var endIndex := IndexOf(s, '}', i2);
      match ParseEntries(s, i2, endIndex, map[])
      case Failure(e) => Failure(e)
      case Success((m, i3)) =>
        var i4 := if i3 != |s| - 1 then i3 + 1 else i3;
        ParseGroups(s, i4, acc + [m])
  }

  /** Lines 139-185: a blank string is the empty list; anything else is walked
      from position 1, the `[` at position 0 taken for granted. */
  function ParseListOfMaps(s: string): (r: Result<seq<Entries>, string>)
    ensures IsBlank(s) ==> r == Success([])
    ensures |s| == 1 && !IsBlank(s) ==> r == Failure(IndexOutOfBounds)
  {
    if IsBlank(s) then Success([]) else ParseGroups(s, 1, [])
  }

  // ---------------------------------------------------------------------------
  // The printed form the parser reads back
  // ---------------------------------------------------------------------------

  /** One entry as `Map.toString` prints it. */
  function EntryText(e: (string, string)): string {
    e.0 + "=" + e.1
  }

  /** The entries of a map after `pre`, separated by a comma and then `lead`
      (Java prints `", "`; a bare `","` is read the same way). */
  function EntriesText(es: seq<(string, string)>, pre: string, lead: string): string
    requires es != []
  {
    pre + EntryText(es[0]) + (if |es| == 1 then "" else "," + EntriesText(es[1..], lead, lead))
  }

  /** The maps after `pre`, each in braces, separated by a comma and then `lead`. */
  function GroupsText(gs: seq<seq<(string, string)>>, pre: string, lead: string): string
    requires gs != [] && forall j :: 0 <= j < |gs| ==> gs[j] != []
  {
    pre + "{" + EntriesText(gs[0], "", lead) + "}"
      + (if |gs| == 1 then "" else "," + GroupsText(gs[1..], lead, lead))
  }

  /** The whole list in brackets. */
  function Render(gs: seq<seq<(string, string)>>, lead: string): string
    requires forall j :: 0 <= j < |gs| ==> gs[j] != []
  {
    "[" + (if gs == [] then "" else GroupsText(gs, "", lead)) + "]"
  }

  /** The map the entries build when put in order: a later entry with the same
      name replaces an earlier one. */
  function Fold(m: Entries, es: seq<(string, string)>): Entries
    decreases |es|
  {
    if es == [] then m else Fold(m[es[0].0 := es[0].1], es[1..])
  }

  /** A name and value the printed form can carry back: the name holds no `=`
      and does not start with a space, the value holds no comma, and neither
      holds a closing brace. */
  predicate Readable(e: (string, string)) {
    && '=' !in e.0 && '}' !in e.0 && (|e.0| > 0 ==> e.0[0] != ' ')
    && ',' !in e.1 && '}' !in e.1
  }

  predicate ReadableGroups(gs: seq<seq<(string, string)>>) {
    forall j :: 0 <= j < |gs| ==> gs[j] != [] && forall k :: 0 <= k < |gs[j]| ==> Readable(gs[j][k])
  }

  // ---------------------------------------------------------------------------
  // Round trip
  // ---------------------------------------------------------------------------

  /** `IndexOf` finds `c` at `k` when `k` is the first `c` from `from` on. */
  lemma {:induction false} IndexOfAt(s: string, c: char, from: nat, k: nat)
    requires from <= k < |s| && s[k] == c
    requires forall q :: from <= q < k ==> s[q] != c
    ensures IndexOf(s, c, from) == k
    decreases k - from
  {
    if from < k {
      IndexOfAt(s, c, from + 1, k);
    }
  }

  /** No entry text holds a closing brace. */
  lemma {:induction false} EntriesTextNoBrace(es: seq<(string, string)>, pre: string, lead: string)
    requires es != [] && forall k :: 0 <= k < |es| ==> Readable(es[k])
    requires '}' !in pre && '}' !in lead
    ensures '}' !in EntriesText(es, pre, lead)
  {
    assert Readable(es[0]);
    assert '}' !in EntryText(es[0]);
    if |es| > 1 {
      assert forall k :: 0 <= k < |es[1..]| ==> Readable(es[1..][k]) by {
        forall k | 0 <= k < |es[1..]| ensures Readable(es[1..][k]) {
          assert es[1..][k] == es[k + 1];
        }
      }
      EntriesTextNoBrace(es[1..], lead, lead);
    }
  }

  /** No character of `u` is `c`, so no position of a slice equal to `u` holds `c`. */
  lemma NoneInSlice(s: string, a: nat, b: nat, u: string, c: char)
    requires a <= b <= |s| && s[a..b] == u && c !in u
    ensures forall q :: a <= q < b ==> s[q] != c
  {
    forall q | a <= q < b ensures s[q] != c {
      assert s[q] == u[q - a];
    }
  }

  /** The entry step in terms of positions: the name runs from `i1` to the
      first `=`, the value from there to the first comma, which is either at
      `valueIndex` or, when `valueIndex` is the closing brace, absent. */
  lemma EntryAtReads(s: string, i: nat, endIndex: int, i1: nat, nameIndex: nat, valueIndex: nat)
    requires i < endIndex < |s| && s[endIndex] == '}'
    requires (s[i] == ' ' && i1 == i + 1) || (s[i] != ' ' && i1 == i)
    requires i1 <= nameIndex < valueIndex <= endIndex && s[nameIndex] == '='
    requires forall q :: i1 <= q < nameIndex ==> s[q] != '='
    requires forall q :: nameIndex < q < valueIndex ==> s[q] != ','
    requires valueIndex < endIndex ==> s[valueIndex] == ','
    ensures EntryAt(s, i, endIndex) == Success((s[i1..nameIndex], s[nameIndex + 1..valueIndex], valueIndex + 1))
  {
    IndexOfAt(s, '=', i1, nameIndex);
    if valueIndex < endIndex {
      IndexOfAt(s, ',', nameIndex + 1, valueIndex);
    } else {
      IndexOfFirst(s, ',', nameIndex + 1);
      var c := IndexOf(s, ',', nameIndex + 1);
      assert c == -1 || endIndex < c;
    }
  }

  /** Where the pieces of an entry's text sit once the text is found at `i`. */
  lemma EntryLayout(s: string, i: nat, endIndex: nat, e: (string, string), pre: string, rest: string,
                    i1: nat, nameIndex: nat, valueIndex: nat)
    requires Readable(e) && (pre == "" || pre == " ")
    requires i + |pre + EntryText(e) + rest| == endIndex < |s|
    requires s[i..endIndex] == pre + EntryText(e) + rest
    requires rest == "" || rest[0] == ','
    requires i1 == i + |pre| && nameIndex == i1 + |e.0| && valueIndex == nameIndex + 1 + |e.1|
    ensures (s[i] == ' ' && i1 == i + 1) || (s[i] != ' ' && i1 == i)
    ensures s[nameIndex] == '=' && s[i1..nameIndex] == e.0 && s[nameIndex + 1..valueIndex] == e.1
    ensures forall q :: i1 <= q < nameIndex ==> s[q] != '='
    ensures forall q :: nameIndex < q < valueIndex ==> s[q] != ','
    ensures valueIndex < endIndex ==> s[valueIndex] == ','
  {
    var x0 := pre + e.0;
    var x1 := x0 + "=";
    var x2 := x1 + e.1;
    var t := x2 + rest;
    assert t == pre + EntryText(e) + rest;
    assert s[i] == t[0] by {
      assert s[i..endIndex][0] == s[i];
    }
    assert s[i] == ' ' <==> pre == " " by {
      if pre == "" {
        if |e.0| > 0 { assert t[0] == e.0[0]; } else { assert t[0] == '='; }
      }
    }
    forall q | 0 <= q < |e.0| ensures s[i1 + q] == e.0[q] {
      assert s[i1 + q] == s[i..endIndex][|pre| + q];
      assert t[|pre| + q] == x0[|pre| + q];
    }
    assert s[i1..nameIndex] == e.0;
    assert s[nameIndex] == '=' by {
      assert s[nameIndex] == s[i..endIndex][|x0|];
      assert t[|x0|] == x1[|x0|];
    }
    forall q | 0 <= q < |e.1| ensures s[nameIndex + 1 + q] == e.1[q] {
      assert s[nameIndex + 1 + q] == s[i..endIndex][|x1| + q];
      assert t[|x1| + q] == x2[|x1| + q];
    }
    assert s[nameIndex + 1..valueIndex] == e.1;
    NoneInSlice(s, i1, nameIndex, e.0, '=');
    NoneInSlice(s, nameIndex + 1, valueIndex, e.1, ',');
    if rest != "" {
      assert s[valueIndex] == ',' by {
        assert s[valueIndex] == s[i..endIndex][|x2|];
      }
    }
  }

  /** One step of the entry walk: at `i` the text is `pre`, then the entry,
      then either the comma before the next entry or the closing brace at
      `endIndex`. The step reads exactly that entry. */
  lemma ParseOneEntry(s: string, i: nat, endIndex: nat, e: (string, string), pre: string, rest: string)
    requires Readable(e) && (pre == "" || pre == " ")
    requires endIndex < |s| && s[endIndex] == '}'
    requires i + |pre + EntryText(e) + rest| == endIndex
    requires s[i..endIndex] == pre + EntryText(e) + rest
    requires rest == "" || rest[0] == ','
    ensures i < endIndex
    ensures EntryAt(s, i, endIndex) == Success((e.0, e.1, i + |pre + EntryText(e)| + 1))
  {
    var i1 := i + |pre|;
    var nameIndex := i1 + |e.0|;
    var valueIndex := nameIndex + 1 + |e.1|;
    EntryLayout(s, i, endIndex, e, pre, rest, i1, nameIndex, valueIndex);
    EntryAtReads(s, i, endIndex, i1, nameIndex, valueIndex);
  }

  /** A slice equal to `x + y` ends in a slice equal to `y`. */
  lemma SuffixSlice(s: string, a: nat, b: nat, x: string, y: string)
    requires a <= b <= |s| && s[a..b] == x + y
    ensures a + |x| <= b && s[a + |x|..b] == y
  {
    forall q | 0 <= q < |y| ensures s[a + |x|..b][q] == y[q] {
      assert s[a..b][|x| + q] == (x + y)[|x| + q];
    }
  }

  /** The printed entries are the first entry, then the rest after a comma. */
  lemma EntriesTextSplit(es: seq<(string, string)>, pre: string, lead: string)
    requires es != []
    ensures |es| == 1 ==> EntriesText(es, pre, lead) == pre + EntryText(es[0]) + ""
    ensures |es| > 1 ==> EntriesText(es, pre, lead) == pre + EntryText(es[0]) + ("," + EntriesText(es[1..], lead, lead))
    ensures |es| > 1 ==> EntriesText(es, pre, lead) == (pre + EntryText(es[0]) + ",") + EntriesText(es[1..], lead, lead)
  {
  }

  /** Every entry of the tail is readable when every entry is. */
  lemma ReadableTail(es: seq<(string, string)>)
    requires es != [] && forall k :: 0 <= k < |es| ==> Readable(es[k])
    ensures Readable(es[0]) && forall k :: 0 <= k < |es[1..]| ==> Readable(es[1..][k])
  {
    forall k | 0 <= k < |es[1..]| ensures Readable(es[1..][k]) {
      assert es[1..][k] == es[k + 1];
    }
  }

  /** The entry walk after one entry is read. */
  lemma ParseEntriesStep(s: string, i: nat, endIndex: int, m: Entries, name: string, value: string, next: nat)
    requires i < endIndex < |s| && EntryAt(s, i, endIndex) == Success((name, value, next))
    ensures ParseEntries(s, i, endIndex, m) == ParseEntries(s, next, endIndex, m[name := value])
  {
  }

  /** Past the first entry and its comma the text holds the other entries. */
  lemma EntriesTail(s: string, i: nat, endIndex: nat, es: seq<(string, string)>, pre: string, lead: string)
    requires |es| > 1 && i <= endIndex <= |s| && s[i..endIndex] == EntriesText(es, pre, lead)
    ensures i + |pre + EntryText(es[0])| + 1 + |EntriesText(es[1..], lead, lead)| == endIndex
    ensures s[i + |pre + EntryText(es[0])| + 1..endIndex] == EntriesText(es[1..], lead, lead)
  {
    EntriesTextSplit(es, pre, lead);
    SuffixSlice(s, i, endIndex, pre + EntryText(es[0]) + ",", EntriesText(es[1..], lead, lead));
  }

  /** The entries read back from their printed form, up to the closing brace
      at `endIndex`, give the map their fold builds; the walk ends just past
      the brace. */
  lemma {:induction false} ParseEntriesText(s: string, i: nat, endIndex: nat, es: seq<(string, string)>,
                                           pre: string, lead: string, m: Entries)
    requires es != [] && forall k :: 0 <= k < |es| ==> Readable(es[k])
    requires (pre == "" || pre == " ") && (lead == "" || lead == " ")
    requires endIndex < |s| && s[endIndex] == '}'
    requires i + |EntriesText(es, pre, lead)| == endIndex
    requires s[i..endIndex] == EntriesText(es, pre, lead)
    ensures ParseEntries(s, i, endIndex, m) == Success((Fold(m, es), endIndex + 1))
    decreases |es|
  {
    var e := es[0];
    ReadableTail(es);
    EntriesTextSplit(es, pre, lead);
    var rest := if |es| == 1 then "" else "," + EntriesText(es[1..], lead, lead);
    ParseOneEntry(s, i, endIndex, e, pre, rest);
    var next := i + |pre + EntryText(e)| + 1;
    var m' := m[e.0 := e.1];
    ParseEntriesStep(s, i, endIndex, m, e.0, e.1, next);
    if |es| > 1 {
      EntriesTail(s, i, endIndex, es, pre, lead);
      ParseEntriesText(s, next, endIndex, es[1..], lead, lead, m');
    }
  }

  /** The maps the printed groups stand for, each its entries folded in order. */
  function Maps(gs: seq<seq<(string, string)>>): (r: seq<Entries>)
    ensures |r| == |gs|
  {
    if gs == [] then [] else [Fold(map[], gs[0])] + Maps(gs[1..])
  }

  /** The printed groups are the first map in braces, then the rest after a comma. */
  lemma GroupsTextSplit(gs: seq<seq<(string, string)>>, pre: string, lead: string)
    requires gs != [] && forall j :: 0 <= j < |gs| ==> gs[j] != []
    ensures |gs| == 1 ==> GroupsText(gs, pre, lead) == pre + "{" + EntriesText(gs[0], "", lead) + "}" + ""
    ensures |gs| > 1 ==>
              GroupsText(gs, pre, lead)
              == pre + "{" + EntriesText(gs[0], "", lead) + "}" + ("," + GroupsText(gs[1..], lead, lead))
  {
  }

  /** Every map of the tail is readable when every map is. */
  lemma ReadableGroupsTail(gs: seq<seq<(string, string)>>)
    requires gs != [] && ReadableGroups(gs)
    ensures forall k :: 0 <= k < |gs[0]| ==> Readable(gs[0][k])
    ensures ReadableGroups(gs[1..])
  {
    forall j | 0 <= j < |gs[1..]| ensures gs[1..][j] != [] && forall k :: 0 <= k < |gs[1..][j]| ==> Readable(gs[1..][j][k]) {
      assert gs[1..][j] == gs[j + 1];
    }
  }

  /** Where the pieces of one printed map sit once the text is found at `i`. */
  lemma GroupLayout(s: string, i: nat, end: nat, pre: string, body: string, tail: string)
    requires (pre == "" || pre == " ") && '}' !in body
    requires i + |pre + "{" + body + "}" + tail| == end <= |s|
    requires s[i..end] == pre + "{" + body + "}" + tail
    requires tail == "" || tail[0] == ','
    ensures (s[i] == ' ') == (pre == " ") && s[i] != ']'
    ensures s[i + |pre| + 1..i + |pre| + 1 + |body|] == body
    ensures s[i + |pre| + 1 + |body|] == '}'
    ensures forall q :: i + |pre| + 1 <= q < i + |pre| + 1 + |body| ==> s[q] != '}'
    ensures tail != "" ==> s[i + |pre| + 2 + |body|] == ','
  {
    var x0 := pre + "{";
    var x1 := x0 + body;
    var x2 := x1 + "}";
    var t := x2 + tail;
    var i2 := i + |x0|;
    assert s[i] == t[0] by {
      assert s[i..end][0] == s[i];
    }
    assert t[0] == if pre == " " then ' ' else '{';
    forall q | 0 <= q < |body| ensures s[i2 + q] == body[q] {
      assert s[i2 + q] == s[i..end][|x0| + q];
      assert t[|x0| + q] == x1[|x0| + q];
    }
    assert s[i2..i2 + |body|] == body;
    assert s[i2 + |body|] == '}' by {
      assert s[i2 + |body|] == s[i..end][|x1|];
      assert t[|x1|] == x2[|x1|];
    }
    NoneInSlice(s, i2, i2 + |body|, body, '}');
    if tail != "" {
      assert s[i2 + |body| + 1] == ',' by {
        assert s[i2 + |body| + 1] == s[i..end][|x2|];
      }
    }
  }

  /** The group walk after one map is read. */
  lemma ParseGroupsStep(s: string, i: nat, acc: seq<Entries>, i2: nat, endIndex: int, m: Entries, i3: nat, i4: nat)
    requires i < |s| && s[i] != ']' && i2 == (if s[i] == ' ' then i + 1 else i) + 1
    requires endIndex == IndexOf(s, '}', i2) && ParseEntries(s, i2, endIndex, map[]) == Success((m, i3))
    requires i4 == if i3 != |s| - 1 then i3 + 1 else i3
    ensures ParseGroups(s, i, acc) == ParseGroups(s, i4, acc + [m])
  {
  }

  /** The length of one printed map and what follows it. */
  lemma GroupTextLength(pre: string, body: string, tail: string)
    ensures |pre + "{" + body + "}" + tail| == |pre| + 2 + |body| + |tail|
  {
  }

  /** The entries of one printed map read back: the closing brace is the
      first one after the opening brace, and the entries between fold into
      the map. */
  lemma GroupEntries(s: string, i: nat, g: seq<(string, string)>, pre: string, lead: string, tail: string,
                     i2: nat, endIndex: nat)
    requires g != [] && forall k :: 0 <= k < |g| ==> Readable(g[k])
    requires (pre == "" || pre == " ") && (lead == "" || lead == " ")
    requires tail == "" || tail[0] == ','
    requires i + |pre + "{" + EntriesText(g, "", lead) + "}" + tail| + 1 == |s|
    requires s[i..|s| - 1] == pre + "{" + EntriesText(g, "", lead) + "}" + tail
    requires i2 == i + |pre| + 1 && endIndex == i2 + |EntriesText(g, "", lead)|
    ensures (s[i] == ' ') == (pre == " ") && s[i] != ']'
    ensures endIndex + |tail| + 2 == |s|
    ensures IndexOf(s, '}', i2) == endIndex
    ensures ParseEntries(s, i2, endIndex, map[]) == Success((Fold(map[], g), endIndex + 1))
  {
    var body := EntriesText(g, "", lead);
    GroupTextLength(pre, body, tail);
    EntriesTextNoBrace(g, "", lead);
    GroupLayout(s, i, |s| - 1, pre, body, tail);
    IndexOfAt(s, '}', i2, endIndex);
    ParseEntriesText(s, i2, endIndex, g, "", lead, map[]);
  }

  /** One map read back: at `i` stand `pre` and the opening brace, the map's
      entries from `i2` fold into `m` up to its closing brace at `endIndex`;
      then come `tailLen` characters, which start with the comma before the
      next map when there are any, and the closing bracket that ends the
      string. The walk moves past the comma with `m` added. */
  lemma ParseOneGroup(s: string, i: nat, pre: string, i2: nat, endIndex: nat, tailLen: nat,
                      m: Entries, acc: seq<Entries>, next: nat)
    requires pre == "" || pre == " "
    requires i < |s| && (s[i] == ' ') == (pre == " ") && s[i] != ']'
    requires i2 == i + |pre| + 1 && endIndex + tailLen + 2 == |s|
    requires IndexOf(s, '}', i2) == endIndex
    requires ParseEntries(s, i2, endIndex, map[]) == Success((m, endIndex + 1))
    requires next == if tailLen == 0 then endIndex + 1 else endIndex + 2
    ensures ParseGroups(s, i, acc) == ParseGroups(s, next, acc + [m])
  {
    ParseGroupsStep(s, i, acc, i2, endIndex, m, endIndex + 1, next);
  }

  /** The printed groups found at `i` split into the first map in braces and
      the tail after it. */
  lemma GroupSplit(s: string, i: nat, gs: seq<seq<(string, string)>>, pre: string, lead: string)
    returns (tail: string)
    requires gs != [] && forall j :: 0 <= j < |gs| ==> gs[j] != []
    requires i + |GroupsText(gs, pre, lead)| + 1 == |s|
    requires s[i..|s| - 1] == GroupsText(gs, pre, lead)
    ensures tail == "" || tail[0] == ','
    ensures |tail| == if |gs| == 1 then 0 else 1 + |GroupsText(gs[1..], lead, lead)|
    ensures i + |pre + "{" + EntriesText(gs[0], "", lead) + "}" + tail| + 1 == |s|
    ensures s[i..|s| - 1] == pre + "{" + EntriesText(gs[0], "", lead) + "}" + tail
  {
    GroupsTextSplit(gs, pre, lead);
    tail := if |gs| == 1 then "" else "," + GroupsText(gs[1..], lead, lead);
  }

  /** The first map of readable groups is readable. */
  lemma ReadableHead(gs: seq<seq<(string, string)>>)
    requires gs != [] && ReadableGroups(gs)
    ensures gs[0] != [] && forall k :: 0 <= k < |gs[0]| ==> Readable(gs[0][k])
  {
  }

  /** The walk ends at the closing bracket. */
  lemma ParseGroupsEnd(s: string, acc: seq<Entries>)
    requires |s| > 0 && s[|s| - 1] == ']'
    ensures ParseGroups(s, |s| - 1, acc) == Success(acc)
  {
  }

  /** Past the first map and its comma the text holds the other maps. */
  lemma GroupsTail(s: string, i: nat, end: nat, gs: seq<seq<(string, string)>>, pre: string, lead: string)
    requires |gs| > 1 && (forall j :: 0 <= j < |gs| ==> gs[j] != [])
    requires i <= end <= |s| && s[i..end] == GroupsText(gs, pre, lead)
    ensures i + |pre| + 3 + |EntriesText(gs[0], "", lead)| + |GroupsText(gs[1..], lead, lead)| == end
    ensures s[i + |pre| + 3 + |EntriesText(gs[0], "", lead)|..end] == GroupsText(gs[1..], lead, lead)
  {
    GroupsTextSplit(gs, pre, lead);
    SuffixSlice(s, i, end, pre + "{" + EntriesText(gs[0], "", lead) + "}" + ",", GroupsText(gs[1..], lead, lead));
  }

  /** The folded maps of the groups: the first one, then the rest. */
  lemma MapsStep(gs: seq<seq<(string, string)>>, m: Entries, acc: seq<Entries>)
    requires gs != [] && m == Fold(map[], gs[0])
    ensures acc + Maps(gs) == acc + [m] + Maps(gs[1..])
    ensures |gs| == 1 ==> acc + Maps(gs) == acc + [m]
  {
    if |gs| == 1 {
      assert gs[1..] == [];
    }
  }

  /** The printed maps read back, up to the closing bracket that ends the
      string, give the folded maps in order. */
  lemma {:induction false} ParseGroupsText(s: string, i: nat, gs: seq<seq<(string, string)>>,
                                          pre: string, lead: string, acc: seq<Entries>)
    requires gs != [] && ReadableGroups(gs)
    requires (pre == "" || pre == " ") && (lead == "" || lead == " ")
    requires i + |GroupsText(gs, pre, lead)| + 1 == |s| && s[|s| - 1] == ']'
    requires s[i..|s| - 1] == GroupsText(gs, pre, lead)
    ensures ParseGroups(s, i, acc) == Success(acc + Maps(gs))
    decreases |gs|, 1
  {
    ReadableHead(gs);
    var tail := GroupSplit(s, i, gs, pre, lead);
    var m := Fold(map[], gs[0]);
    var i2 := i + |pre| + 1;
    var endIndex := i2 + |EntriesText(gs[0], "", lead)|;
    GroupEntries(s, i, gs[0], pre, lead, tail, i2, endIndex);
    MapsStep(gs, m, acc);
    if |gs| == 1 {
      ParseOneGroup(s, i, pre, i2, endIndex, 0, m, acc, endIndex + 1);
      ParseGroupsEnd(s, acc + [m]);
    } else {
      ParseOneGroup(s, i, pre, i2, endIndex, |tail|, m, acc, endIndex + 2);
      ParseGroupsRest(s, i, gs, pre, lead, acc + [m], endIndex + 2);
    }
  }

  /** The maps after the first one read back from `next`, just past the comma. */
  lemma {:induction false} ParseGroupsRest(s: string, i: nat, gs: seq<seq<(string, string)>>,
                                          pre: string, lead: string, acc: seq<Entries>, next: nat)
    requires |gs| > 1 && ReadableGroups(gs)
    requires (pre == "" || pre == " ") && (lead == "" || lead == " ")
    requires i + |GroupsText(gs, pre, lead)| + 1 == |s| && s[|s| - 1] == ']'
    requires s[i..|s| - 1] == GroupsText(gs, pre, lead)
    requires next == i + |pre| + 3 + |EntriesText(gs[0], "", lead)|
    ensures ParseGroups(s, next, acc) == Success(acc + Maps(gs[1..]))
    decreases |gs|, 0
  {
    ReadableGroupsTail(gs);
    GroupsTail(s, i, |s| - 1, gs, pre, lead);
    ParseGroupsText(s, next, gs[1..], lead, lead, acc);
  }

  /** The printed list is the printed maps in brackets. */
  lemma RenderText(gs: seq<seq<(string, string)>>, lead: string, s: string)
    requires gs != [] && (forall j :: 0 <= j < |gs| ==> gs[j] != []) && s == Render(gs, lead)
    ensures 1 + |GroupsText(gs, "", lead)| + 1 == |s|
    ensures s[0] == '[' && s[|s| - 1] == ']'
    ensures s[1..|s| - 1] == GroupsText(gs, "", lead)
  {
    var t := GroupsText(gs, "", lead);
    assert s == "[" + t + "]";
  }

  /** Lines 139-185 against `List.toString`: the printed list of readable maps,
      with the entries and maps separated by `","` or by `", "`, reads back as
      the maps its entries build. */
  lemma RenderRoundTrip(gs: seq<seq<(string, string)>>, lead: string)
    requires ReadableGroups(gs) && (lead == "" || lead == " ")
    ensures ParseListOfMaps(Render(gs, lead)) == Success(Maps(gs))
  {
    var s := Render(gs, lead);
    if gs == [] {
      assert s == "[]";
      assert !IsBlank(s) by { assert !IsJavaWhitespace(s[0]); }
    } else {
      RenderText(gs, lead, s);
      assert !IsBlank(s) by { assert !IsJavaWhitespace(s[0]); }
      ParseGroupsText(s, 1, gs, "", lead, []);
      assert [] + Maps(gs) == Maps(gs);
    }
  }

  // ---------------------------------------------------------------------------
  // parseParameterMappings and parseResponseBodyMappings
  // ---------------------------------------------------------------------------

  /** `map.get(key)`: `null` for a missing key. */
  function Get(m: Entries, key: string): Option<string> {
    if key in m then Some(m[key]) else None
  }

  /** A field read with `map.get(key)`: present exactly when the key is, and then its value. */
  predicate Carries(m: Entries, key: string, field: Option<string>) {
    (field.Some? <==> key in m) && (field.Some? ==> field.value == m[key])
  }

  /** `"true".equals(value)`: only the exact lower-case text, and never `null`. */
  predicate IsTrue(v: Option<string>) {
    v == Some("true")
  }

  /** Lines 120-126: one parameter mapping from its map. A missing `location`
      makes `ParameterLocation.valueOf(null)` throw a `NullPointerException`;
      a location that is not an exact constant name makes it throw an
      `IllegalArgumentException`. */
  function ToParameterMapping(m: Entries): (r: Result<ParameterMapping, string>)
    ensures r.Success? <==> "location" in m && LocationValueOf(m["location"]).Some?
    ensures "location" !in m ==> r == Failure("NullPointerException")
    ensures "location" in m && LocationValueOf(m["location"]).None? ==> r == Failure("IllegalArgumentException")
    ensures r.Success? ==> LocationName(r.value.location) == m["location"]
    ensures r.Success? ==> Carries(m, "name", r.value.name) && Carries(m, "mappedType", r.value.mappedType)
    ensures r.Success? ==> Carries(m, "mappedName", r.value.mappedName)
    ensures r.Success? ==> (r.value.isValidated <==> "isValidated" in m && m["isValidated"] == "true")
  {
    match Get(m, "location")
    case None => Failure("NullPointerException")
    case Some(l) =>
      match LocationValueOf(l)
      case None => Failure("IllegalArgumentException")
      case Some(location) =>
        Success(ParameterMapping(Get(m, "name"), location, Get(m, "mappedType"), Get(m, "mappedName"),
                                 IsTrue(Get(m, "isValidated"))))
  }

  /** Lines 130-135: one response-body mapping from its map; it cannot fail. */
  function ToResponseBodyMapping(m: Entries): (r: ResponseBodyMapping)
    ensures Carries(m, "headerName", r.headerName) && Carries(m, "mappedBodyType", r.mappedBodyType)
    ensures r.isListWrapper <==> "isListWrapper" in m && m["isListWrapper"] == "true"
    ensures r.isValidated <==> "isValidated" in m && m["isValidated"] == "true"
  {
    ResponseBodyMapping(Get(m, "headerName"), Get(m, "mappedBodyType"),
                        IsTrue(Get(m, "isListWrapper")), IsTrue(Get(m, "isValidated")))
  }

  /** The stream's `map` then `toList`: every map converted in order, the
      first failure ending the walk. */
  function ToParameterMappings(ms: seq<Entries>): (r: Result<seq<ParameterMapping>, string>)
    ensures r.Success? <==> forall j :: 0 <= j < |ms| ==> ToParameterMapping(ms[j]).Success?
    ensures r.Success? ==> |r.value| == |ms| && forall j :: 0 <= j < |ms| ==> r.value[j] == ToParameterMapping(ms[j]).value
    ensures r.Failure? ==>
              exists j :: && 0 <= j < |ms|
                          && (forall k :: 0 <= k < j ==> ToParameterMapping(ms[k]).Success?)
                          && ToParameterMapping(ms[j]).Failure?
                          && r == Failure(ToParameterMapping(ms[j]).error)
  {
    if ms == [] then Success([])
    else
      match ToParameterMapping(ms[0])
      case Failure(e) => Failure(e)
      case Success(p) =>
        match ToParameterMappings(ms[1..])
        case Failure(e) => Failure(e)
        case Success(ps) => Success([p] + ps)
  }

  /** Lines 120-128: the parameter mappings of the printed list. It fails
      exactly when the list does not parse or some map has no `location` or
      one that names no location; otherwise every map gives one mapping, in
      order, whose location is the one named. */
  function ParseParameterMappings(s: string): (r: Result<seq<ParameterMapping>, string>)
    ensures r.Success? <==>
      && ParseListOfMaps(s).Success?
      && forall j :: 0 <= j < |ParseListOfMaps(s).value| ==>
           "location" in ParseListOfMaps(s).value[j] && LocationValueOf(ParseListOfMaps(s).value[j]["location"]).Some?
    ensures ParseListOfMaps(s).Failure? ==> r == Failure(ParseListOfMaps(s).error)
    ensures ParseListOfMaps(s).Success? && r.Failure? ==>
      r.error == "NullPointerException" || r.error == "IllegalArgumentException"
    ensures ParseListOfMaps(s).Success? && r.Failure? ==>
      exists j :: && 0 <= j < |ParseListOfMaps(s).value|
                  && (forall k :: 0 <= k < j ==> ToParameterMapping(ParseListOfMaps(s).value[k]).Success?)
                  && ToParameterMapping(ParseListOfMaps(s).value[j]).Failure?
                  && r == Failure(ToParameterMapping(ParseListOfMaps(s).value[j]).error)
    ensures r.Success? ==> |r.value| == |ParseListOfMaps(s).value|
    ensures r.Success? ==> forall j :: 0 <= j < |r.value| ==>
      && LocationName(r.value[j].location) == ParseListOfMaps(s).value[j]["location"]
      && Carries(ParseListOfMaps(s).value[j], "name", r.value[j].name)
      && Carries(ParseListOfMaps(s).value[j], "mappedType", r.value[j].mappedType)
      && Carries(ParseListOfMaps(s).value[j], "mappedName", r.value[j].mappedName)
      && (r.value[j].isValidated <==> IsTrue(Get(ParseListOfMaps(s).value[j], "isValidated")))
  {
    match ParseListOfMaps(s)
    case Failure(e) => Failure(e)
    case Success(ms) => ToParameterMappings(ms)
  }

  /** Lines 130-137: the response-body mappings of the printed list. They
      never fail on their own: the result is a failure exactly when the list
      does not parse, and otherwise holds one mapping per map, in order, each
      flag set exactly when its entry is the text `true`. */
  function ParseResponseBodyMappings(s: string): (r: Result<seq<ResponseBodyMapping>, string>)
    ensures r.Success? <==> ParseListOfMaps(s).Success?
    ensures ParseListOfMaps(s).Failure? ==> r.error == ParseListOfMaps(s).error
    ensures r.Success? ==> |r.value| == |ParseListOfMaps(s).value|
    ensures r.Success? ==> forall j :: 0 <= j < |r.value| ==>
      && Carries(ParseListOfMaps(s).value[j], "headerName", r.value[j].headerName)
      && Carries(ParseListOfMaps(s).value[j], "mappedBodyType", r.value[j].mappedBodyType)
      && (r.value[j].isListWrapper <==> IsTrue(Get(ParseListOfMaps(s).value[j], "isListWrapper")))
      && (r.value[j].isValidated <==> IsTrue(Get(ParseListOfMaps(s).value[j], "isValidated")))
  {
    match ParseListOfMaps(s)
    case Failure(e) => Failure(e)
    case Success(ms) => Success(seq(|ms|, j requires 0 <= j < |ms| => ToResponseBodyMapping(ms[j])))
  }

  // ---------------------------------------------------------------------------
  // The printed form of the mappings
  // ---------------------------------------------------------------------------

  /** An optional entry: present only when the value is not `null`. */
  function OptionalEntry(key: string, v: Option<string>): seq<(string, string)> {
    match v
    case Some(t) => [(key, t)]
    case None => []
  }

  function BoolText(b: bool): string {
    if b then "true" else "false"
  }

  /** The entries a test writes for a parameter mapping. */
  function ParameterMappingText(p: ParameterMapping): seq<(string, string)> {
    OptionalEntry("name", p.name) + [("location", LocationName(p.location))]
      + OptionalEntry("mappedType", p.mappedType) + OptionalEntry("mappedName", p.mappedName)
      + [("isValidated", BoolText(p.isValidated))]
  }

  /** The entries a test writes for a response-body mapping. */
  function ResponseBodyMappingText(b: ResponseBodyMapping): seq<(string, string)> {
    OptionalEntry("headerName", b.headerName) + OptionalEntry("mappedBodyType", b.mappedBodyType)
      + [("isListWrapper", BoolText(b.isListWrapper)), ("isValidated", BoolText(b.isValidated))]
  }

  /** A string value the printed form carries back. */
  predicate ReadableValue(v: Option<string>) {
    v.Some? ==> ',' !in v.value && '}' !in v.value
  }

  /** Folding two runs of entries is folding the first, then the second. */
  lemma {:induction false} FoldAppend(m: Entries, a: seq<(string, string)>, b: seq<(string, string)>)
    ensures Fold(m, a + b) == Fold(Fold(m, a), b)
    decreases |a|
  {
    if a == [] {
      assert a + b == b;
    } else {
      assert (a + b)[0] == a[0] && (a + b)[1..] == a[1..] + b;
      FoldAppend(m[a[0].0 := a[0].1], a[1..], b);
    }
  }

  /** An optional entry folds into an update exactly when it is present. */
  lemma FoldOptional(m: Entries, key: string, v: Option<string>)
    ensures Get(Fold(m, OptionalEntry(key, v)), key) == (if v.Some? then v else Get(m, key))
    ensures forall k :: k != key ==> Get(Fold(m, OptionalEntry(key, v)), k) == Get(m, k)
  {
    if v.Some? {
      assert Fold(m, [(key, v.value)]) == Fold(m[key := v.value], []);
    }
  }

  /** One entry folds into an update. */
  lemma FoldOne(m: Entries, key: string, v: string)
    ensures Fold(m, [(key, v)]) == m[key := v]
  {
    assert Fold(m, [(key, v)]) == Fold(m[key := v], []);
  }

  /** The map a test writes for a parameter mapping holds each non-null
      field under its own key, the location by its constant name, and the
      validation flag as text. */
  lemma ParameterMappingEntries(p: ParameterMapping)
    ensures Get(Fold(map[], ParameterMappingText(p)), "name") == p.name
    ensures Get(Fold(map[], ParameterMappingText(p)), "location") == Some(LocationName(p.location))
    ensures Get(Fold(map[], ParameterMappingText(p)), "mappedType") == p.mappedType
    ensures Get(Fold(map[], ParameterMappingText(p)), "mappedName") == p.mappedName
    ensures Get(Fold(map[], ParameterMappingText(p)), "isValidated") == Some(BoolText(p.isValidated))
  {
    var a := OptionalEntry("name", p.name);
    var b := [("location", LocationName(p.location))];
    var c := OptionalEntry("mappedType", p.mappedType);
    var d := OptionalEntry("mappedName", p.mappedName);
    var e := [("isValidated", BoolText(p.isValidated))];
    assert ParameterMappingText(p) == a + b + c + d + e;
    FoldAppend(map[], a + b + c + d, e);
    FoldAppend(map[], a + b + c, d);
    FoldAppend(map[], a + b, c);
    FoldAppend(map[], a, b);
    var m0: Entries := map[];
    FoldOptional(m0, "name", p.name);
    var m1 := Fold(m0, a);
    FoldOne(m1, "location", LocationName(p.location));
    var m2 := Fold(m1, b);
    FoldOptional(m2, "mappedType", p.mappedType);
    var m3 := Fold(m2, c);
    FoldOptional(m3, "mappedName", p.mappedName);
    var m4 := Fold(m3, d);
    FoldOne(m4, "isValidated", BoolText(p.isValidated));
  }

  /** Lines 120-126 against the printed form: a parameter mapping written as
      a map reads back as itself. */
  lemma ParameterMappingRoundTrip(p: ParameterMapping)
    ensures ToParameterMapping(Fold(map[], ParameterMappingText(p))) == Success(p)
  {
    ParameterMappingEntries(p);
    var m := Fold(map[], ParameterMappingText(p));
    assert LocationValueOf(LocationName(p.location)) == Some(p.location) by {
      match p.location
      case Path =>
      case Query =>
      case Header =>
      case Cookie =>
      case Body =>
    }
  }

  /** The map a test writes for a response-body mapping holds each non-null
      field under its own key and both flags as text. */
  lemma ResponseBodyMappingEntries(b: ResponseBodyMapping)
    ensures Get(Fold(map[], ResponseBodyMappingText(b)), "headerName") == b.headerName
    ensures Get(Fold(map[], ResponseBodyMappingText(b)), "mappedBodyType") == b.mappedBodyType
    ensures Get(Fold(map[], ResponseBodyMappingText(b)), "isListWrapper") == Some(BoolText(b.isListWrapper))
    ensures Get(Fold(map[], ResponseBodyMappingText(b)), "isValidated") == Some(BoolText(b.isValidated))
  {
    var a := OptionalEntry("headerName", b.headerName);
    var c := OptionalEntry("mappedBodyType", b.mappedBodyType);
    var d := [("isListWrapper", BoolText(b.isListWrapper))];
    var e := [("isValidated", BoolText(b.isValidated))];
    assert ResponseBodyMappingText(b) == a + c + d + e;
    FoldAppend(map[], a + c + d, e);
    FoldAppend(map[], a + c, d);
    FoldAppend(map[], a, c);
    var m0: Entries := map[];
    FoldOptional(m0, "headerName", b.headerName);
    var m1 := Fold(m0, a);
    FoldOptional(m1, "mappedBodyType", b.mappedBodyType);
    var m2 := Fold(m1, c);
    FoldOne(m2, "isListWrapper", BoolText(b.isListWrapper));
    var m3 := Fold(m2, d);
    FoldOne(m3, "isValidated", BoolText(b.isValidated));
  }

  /** Lines 130-135 against the printed form: a response-body mapping
      written as a map reads back as itself. */
  lemma ResponseBodyMappingRoundTrip(b: ResponseBodyMapping)
    ensures ToResponseBodyMapping(Fold(map[], ResponseBodyMappingText(b))) == b
  {
    ResponseBodyMappingEntries(b);
  }

  /** The folded maps, position by position. */
  lemma {:induction false} MapsAt(gs: seq<seq<(string, string)>>)
    ensures forall j :: 0 <= j < |gs| ==> Maps(gs)[j] == Fold(map[], gs[j])
  {
    if gs != [] {
      MapsAt(gs[1..]);
      forall j | 0 <= j < |gs| ensures Maps(gs)[j] == Fold(map[], gs[j]) {
        if j > 0 {
          assert Maps(gs)[j] == Maps(gs[1..])[j - 1];
          assert gs[1..][j - 1] == gs[j];
        }
      }
    }
  }

  /** Entries that are each readable stay so when put one run after another. */
  lemma ReadableAppend(a: seq<(string, string)>, b: seq<(string, string)>)
    requires forall k :: 0 <= k < |a| ==> Readable(a[k])
    requires forall k :: 0 <= k < |b| ==> Readable(b[k])
    ensures forall k :: 0 <= k < |a + b| ==> Readable((a + b)[k])
  {
    forall k | 0 <= k < |a + b| ensures Readable((a + b)[k]) {
      if k >= |a| {
        assert (a + b)[k] == b[k - |a|];
      }
    }
  }

  /** No constant name of a location holds a comma or a closing brace. */
  lemma LocationNameReadable(l: ParameterLocation)
    ensures ',' !in LocationName(l) && '}' !in LocationName(l)
  {
  }

  /** The entries written for a parameter mapping whose strings hold no comma
      and no closing brace are readable. */
  lemma ParameterMappingTextReadable(p: ParameterMapping)
    requires ReadableValue(p.name) && ReadableValue(p.mappedType) && ReadableValue(p.mappedName)
    ensures ParameterMappingText(p) != []
    ensures forall k :: 0 <= k < |ParameterMappingText(p)| ==> Readable(ParameterMappingText(p)[k])
  {
    var a := OptionalEntry("name", p.name);
    var b := [("location", LocationName(p.location))];
    var c := OptionalEntry("mappedType", p.mappedType);
    var d := OptionalEntry("mappedName", p.mappedName);
    var e := [("isValidated", BoolText(p.isValidated))];
    LocationNameReadable(p.location);
    assert ParameterMappingText(p) == a + b + c + d + e;
    ReadableAppend(a, b);
    ReadableAppend(a + b, c);
    ReadableAppend(a + b + c, d);
    ReadableAppend(a + b + c + d, e);
  }

  /** The printed entries of each parameter mapping, in order. */
  function ParameterMappingTexts(ps: seq<ParameterMapping>): (r: seq<seq<(string, string)>>)
    ensures |r| == |ps| && forall j :: 0 <= j < |ps| ==> r[j] == ParameterMappingText(ps[j])
  {
    seq(|ps|, j requires 0 <= j < |ps| => ParameterMappingText(ps[j]))
  }

  /** Lines 120-128 against `List.toString`: parameter mappings whose strings
      hold no comma and no closing brace, printed as a list of maps, read
      back as themselves. */
  lemma ParameterMappingsRoundTrip(ps: seq<ParameterMapping>, lead: string)
    requires lead == "" || lead == " "
    requires forall j :: 0 <= j < |ps| ==>
               ReadableValue(ps[j].name) && ReadableValue(ps[j].mappedType) && ReadableValue(ps[j].mappedName)
    ensures ParseParameterMappings(Render(ParameterMappingTexts(ps), lead)) == Success(ps)
  {
    var gs := ParameterMappingTexts(ps);
    forall j | 0 <= j < |gs| ensures gs[j] != [] && forall k :: 0 <= k < |gs[j]| ==> Readable(gs[j][k]) {
      ParameterMappingTextReadable(ps[j]);
    }
    RenderRoundTrip(gs, lead);
    MapsAt(gs);
    var ms := Maps(gs);
    forall j | 0 <= j < |ms| ensures ToParameterMapping(ms[j]) == Success(ps[j]) {
      ParameterMappingRoundTrip(ps[j]);
    }
    var r := ToParameterMappings(ms);
    assert r.Success?;
    assert r.value == ps;
  }

  /** The printed entries of each response-body mapping, in order. */
  function ResponseBodyMappingTexts(bs: seq<ResponseBodyMapping>): (r: seq<seq<(string, string)>>)
    ensures |r| == |bs| && forall j :: 0 <= j < |bs| ==> r[j] == ResponseBodyMappingText(bs[j])
  {
    seq(|bs|, j requires 0 <= j < |bs| => ResponseBodyMappingText(bs[j]))
  }

  /** The entries written for a response-body mapping whose strings hold no
      comma and no closing brace are readable. */
  lemma ResponseBodyMappingTextReadable(b: ResponseBodyMapping)
    requires ReadableValue(b.headerName) && ReadableValue(b.mappedBodyType)
    ensures ResponseBodyMappingText(b) != []
    ensures forall k :: 0 <= k < |ResponseBodyMappingText(b)| ==> Readable(ResponseBodyMappingText(b)[k])
  {
    var a := OptionalEntry("headerName", b.headerName);
    var c := OptionalEntry("mappedBodyType", b.mappedBodyType);
    var d := [("isListWrapper", BoolText(b.isListWrapper)), ("isValidated", BoolText(b.isValidated))];
    assert ResponseBodyMappingText(b) == a + c + d;
    ReadableAppend(a, c);
    ReadableAppend(a + c, d);
  }

  /** Lines 130-137 against `List.toString`: response-body mappings whose
      strings hold no comma and no closing brace, printed as a list of maps,
      read back as themselves. */
  lemma ResponseBodyMappingsRoundTrip(bs: seq<ResponseBodyMapping>, lead: string)
    requires lead == "" || lead == " "
    requires forall j :: 0 <= j < |bs| ==> ReadableValue(bs[j].headerName) && ReadableValue(bs[j].mappedBodyType)
    ensures ParseResponseBodyMappings(Render(ResponseBodyMappingTexts(bs), lead)) == Success(bs)
  {
    var gs := ResponseBodyMappingTexts(bs);
    forall j | 0 <= j < |gs| ensures gs[j] != [] && forall k :: 0 <= k < |gs[j]| ==> Readable(gs[j][k]) {
      ResponseBodyMappingTextReadable(bs[j]);
    }
    RenderRoundTrip(gs, lead);
    MapsAt(gs);
    forall j | 0 <= j < |bs| ensures ToResponseBodyMapping(Maps(gs)[j]) == bs[j] {
      ResponseBodyMappingRoundTrip(bs[j]);
    }
    var r := ParseResponseBodyMappings(Render(gs, lead));
    assert r.Success? && |r.value| == |bs|;
    assert r.value == bs;
  }

  /** A repeated name keeps the last value, as `HashMap.put` does. */
  lemma RepeatedNameLastWins()
    ensures ParseListOfMaps("[{a=1, a=2}]") == Success([map["a" := "2"]])
  {
    var gs := [[("a", "1"), ("a", "2")]];
    assert Readable(("a", "1")) && Readable(("a", "2"));
    RenderRoundTrip(gs, " ");
    assert Render(gs, " ") == "[{a=1, a=2}]";
    assert Maps(gs) == [Fold(map[], gs[0])];
    assert Fold(map[], gs[0]) == map["a" := "2"];
  }

  /** A value holding a comma is not read back: the text after the comma is
      taken for the next entry, which has no `=`. */
  lemma CommaInValueFails()
    ensures ParseListOfMaps("[{a=1,2}]") == Failure(IndexOutOfBounds)
  {
    var s := "[{a=1,2}]";
    IndexOfAt(s, '}', 2, 7);
    EntryAtReads(s, 2, 7, 2, 3, 5);
    assert s[2..3] == "a" && s[4..5] == "1";
    ParseEntriesStep(s, 2, 7, map[], "a", "1", 6);
    IndexOfFirst(s, '=', 6);
    assert IndexOf(s, '=', 6) == -1;
    assert EntryAt(s, 6, 7).Failure?;
  }
}
