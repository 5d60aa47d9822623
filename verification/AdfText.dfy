/** Text for Jira: truncation, paragraphs, and the size of what a field or a description ends up holding. */
module AdfText {
  import opened Wrappers
  import opened Text

  const FIELD_CHAR_LIMIT := 32767
  const SAFE_FIELD_CHARS := 32000
  const SECTION_CHARS := 9000
  const MAX_CVES := 150
  const NOTE := " [\U{2026}truncated by qjsync: exceeds Jira's 32767-char field limit]"
  const MISSING := "None"

  // ---------------------------------------------------------------- truncation

  function Cut(s: string, limit: int, note: string): string {
    if |s| <= limit then s
    else s[..if limit - |note| > 0 then limit - |note| else 0] + note
  }

  function Truncate(s: string, limit: int): string {
    Cut(s, limit, NOTE)
  }

  lemma NoteLength()
    ensures |NOTE| == 62 && NOTE[61] == ']'
  {
  }

  lemma CutFits(s: string, limit: int, note: string)
    ensures |Cut(s, limit, note)| <= limit <==> |s| <= limit || |note| <= limit
    ensures Cut(Cut(s, limit, note), limit, note) == Cut(s, limit, note)
  {
    var once := Cut(s, limit, note);
    if |once| > limit {
      assert once == note;
    }
  }

  /** The result respects the limit exactly when nothing had to be cut or the 62 characters of the note fit. */
  lemma TruncateFitsExactlyWhen(s: string, limit: int)
    ensures |Truncate(s, limit)| <= limit <==> |s| <= limit || 62 <= limit
  {
    NoteLength();
    CutFits(s, limit, NOTE);
  }

  /** Cutting twice cuts once, even below the length of the note. */
  lemma TruncateTwice(s: string, limit: int)
    ensures Truncate(Truncate(s, limit), limit) == Truncate(s, limit)
  {
    CutFits(s, limit, NOTE);
  }

  // ---------------------------------------------------------------- paragraphs

  function Paragraphs(lines: seq<string>): seq<string> {
    if lines == [] then []
    else (if Strip(lines[0]) == "" then [] else [Strip(lines[0])]) + Paragraphs(lines[1..])
  }

  /** The text of each paragraph node. */
  function TextToAdf(s: string): seq<string> {
    var paragraphs := Paragraphs(SplitLines(s));
    if paragraphs == [] then [MISSING] else paragraphs
  }

  function Total(texts: seq<string>): nat {
    if texts == [] then 0 else |texts[0]| + Total(texts[1..])
  }

  function Join(texts: seq<string>): string {
    if texts == [] then "" else texts[0] + Join(texts[1..])
  }

  predicate Unbroken(line: string) {
    forall c :: c in line ==> !IsBreak(c)
  }

  predicate Tight(p: string) {
    p != "" && !IsSpace(p[0]) && !IsSpace(p[|p| - 1]) && Unbroken(p)
  }

  lemma {:induction false} BreaksAreInvisible(s: string)
    requires forall i :: 0 <= i < |s| ==> IsBreak(s[i])
    ensures Visible(s) == []
    decreases |s|
  {
    if s != [] {
      BreaksAreInvisible(s[1..]);
    }
  }

  lemma TakenOut(line: string, gap: string, rest: string)
    requires Visible(gap) == []
    ensures Visible(line + gap + rest) == Visible(line) + Visible(rest)
  {
    VisibleOfSum(line + gap, rest);
    VisibleOfSum(line, gap);
  }

  lemma InThree(s: string, k: nat, m: nat)
    requires k <= m <= |s|
    ensures s[..k] + s[k..m] + s[m..] == s
  {
  }

  lemma BreakTakenOut(s: string, k: nat, n: nat)
    requires k + n <= |s| && forall i :: k <= i < k + n ==> IsBreak(s[i])
    ensures Visible(s) == Visible(s[..k]) + Visible(s[k + n..])
  {
    BreaksAreInvisible(s[k..k + n]);
    TakenOut(s[..k], s[k..k + n], s[k + n..]);
    InThree(s, k, k + n);
  }

  lemma OnlyLine(s: string)
    ensures Join([s]) == s && Total([s]) == |s|
  {
    assert [s][1..] == [];
    assert s + "" == s;
  }

  lemma JoinTotal(first: string, more: seq<string>)
    ensures Visible(Join([first] + more)) == Visible(first) + Visible(Join(more))
    ensures Total([first] + more) == |first| + Total(more)
  {
    assert ([first] + more)[1..] == more;
    VisibleOfSum(first, Join(more));
  }

  lemma {:induction false} LinesKeepTheText(s: string)
    ensures Visible(Join(SplitLines(s))) == Visible(s)
    decreases |s|
  {
    var k := FirstBreak(s);
    if s == [] {
    } else if k == |s| {
      OnlyLine(s);
    } else {
      var n := BreakLength(s, k);
      LinesKeepTheText(s[k + n..]);
      BreakTakenOut(s, k, n);
      JoinTotal(s[..k], SplitLines(s[k + n..]));
    }
  }

  lemma {:induction false} LinesAddNothing(s: string)
    ensures Total(SplitLines(s)) <= |s|
    decreases |s|
  {
    var k := FirstBreak(s);
    if s == [] {
    } else if k == |s| {
      OnlyLine(s);
    } else {
      var rest := s[k + BreakLength(s, k)..];
      LinesAddNothing(rest);
      JoinTotal(s[..k], SplitLines(rest));
    }
  }

  lemma {:induction false} LinesAreUnbroken(s: string, l: string)
    requires l in SplitLines(s)
    ensures Unbroken(l)
    decreases |s|
  {
    var k := FirstBreak(s);
    if k < |s| {
      if l != s[..k] {
        LinesAreUnbroken(s[k + BreakLength(s, k)..], l);
      }
    }
  }

  lemma {:induction false} ParagraphsKeepTheText(lines: seq<string>)
    ensures Visible(Join(Paragraphs(lines))) == Visible(Join(lines))
    ensures Total(Paragraphs(lines)) <= Total(lines)
    decreases |lines|
  {
    if lines != [] {
      var line, more := lines[0], Paragraphs(lines[1..]);
      ParagraphsKeepTheText(lines[1..]);
      StripKeeps(line);
      JoinTotal(line, lines[1..]);
      assert [line] + lines[1..] == lines;
      if Strip(line) != "" {
        JoinTotal(Strip(line), more);
      } else {
        assert Paragraphs(lines) == more;
      }
    }
  }

  lemma {:induction false} ParagraphsAreTight(lines: seq<string>, p: string)
    requires forall l :: l in lines ==> Unbroken(l)
    requires p in Paragraphs(lines)
    ensures Tight(p)
    decreases |lines|
  {
    if p == Strip(lines[0]) && p != "" {
      StripKeeps(lines[0]);
      assert lines[0] in lines;
    } else {
      ParagraphsAreTight(lines[1..], p);
    }
  }

  lemma {:induction false} Shows(s: string, i: nat)
    requires i < |s| && !IsSpace(s[i])
    ensures Visible(s) != []
    decreases |s|
  {
    if i > 0 {
      Shows(s[1..], i - 1);
    }
  }

  lemma NothingToSee(ps: seq<string>)
    requires forall p :: p in ps ==> Tight(p)
    ensures Visible(Join(ps)) == [] <==> ps == []
  {
    if ps != [] {
      assert ps[0] in ps;
      Shows(ps[0], 0);
      VisibleOfSum(ps[0], Join(ps[1..]));
    }
  }

  /** No paragraph is empty, spaced at an end, or broken. */
  lemma AdfIsTight(s: string)
    ensures forall p :: p in TextToAdf(s) ==> Tight(p)
    ensures forall p :: p in Paragraphs(SplitLines(s)) ==> Tight(p)
  {
    forall l | l in SplitLines(s)
      ensures Unbroken(l)
    {
      LinesAreUnbroken(s, l);
    }
    forall p | p in Paragraphs(SplitLines(s))
      ensures Tight(p)
    {
      ParagraphsAreTight(SplitLines(s), p);
    }
  }

  /**
    The paragraphs hold the visible text of the string, all of it and in order, and they add no text,
    except for the placeholder when there was nothing to see.
   */
  lemma AdfKeepsTheText(s: string)
    ensures Visible(s) != [] ==> Visible(Join(TextToAdf(s))) == Visible(s) && Total(TextToAdf(s)) <= |s|
    ensures Visible(s) == [] ==> TextToAdf(s) == [MISSING]
  {
    LinesKeepTheText(s);
    LinesAddNothing(s);
    ParagraphsKeepTheText(SplitLines(s));
    AdfIsTight(s);
    NothingToSee(Paragraphs(SplitLines(s)));
  }

  /** At most the limit, when the placeholder fits in it. */
  lemma AdfFits(s: string, limit: nat)
    requires |s| <= limit && |MISSING| <= limit
    ensures Total(TextToAdf(s)) <= limit
  {
    AdfKeepsTheText(s);
    assert Total([MISSING]) == |MISSING| + Total([MISSING][1..]);
  }

  lemma TruncatedAdfFits(s: string, limit: nat)
    requires 62 <= limit
    ensures Total(TextToAdf(Truncate(s, limit))) <= limit
  {
    TruncateFitsExactlyWhen(s, limit);
    AdfFits(Truncate(s, limit), limit);
  }

  lemma CutShows(s: string, limit: int, note: string)
    requires |note| <= limit < |s| && Visible(note) != []
    ensures Visible(Cut(s, limit, note)) == Visible(s[..limit - |note|]) + Visible(note) != []
  {
    VisibleOfSum(s[..limit - |note|], note);
  }

  // ---------------------------------------------------------------- layout

  /** The text is the paragraphs in order, with a line break among the whitespace between any two of them. */
  ghost predicate LaidOut(s: string, ps: seq<string>)
    decreases |ps|, 2
  {
    if ps == [] then Blank(s) else exists i, j :: FirstAt(s, ps, i, j)
  }

  /** The first paragraph stands from `i` to `j`. */
  ghost predicate FirstAt(s: string, ps: seq<string>, i: int, j: int)
    requires ps != []
    decreases |ps|, 1
  {
    && 0 <= i <= j <= |s|
    && Blank(s[..i]) && s[i..j] == ps[0]
    && if |ps| == 1 then Blank(s[j..]) else exists k :: GoesOn(s, ps, j, k)
  }

  /** The others are laid out after the break at `k`. */
  ghost predicate GoesOn(s: string, ps: seq<string>, j: int, k: int)
    requires ps != []
    decreases |ps|, 0
  {
    0 <= j <= k < |s| && Blank(s[j..k]) && IsBreak(s[k]) && LaidOut(s[k + 1..], ps[1..])
  }

  lemma Further(s: string, ps: seq<string>, i: int, j: int) returns (k: int)
    requires |ps| > 1 && FirstAt(s, ps, i, j)
    ensures GoesOn(s, ps, j, k)
  {
    k :| GoesOn(s, ps, j, k);
  }

  lemma BlankSum(a: string, b: string)
    ensures Blank(a + b) <==> Blank(a) && Blank(b)
  {
    assert forall i :: 0 <= i < |b| ==> (a + b)[|a| + i] == b[i];
    assert forall i :: 0 <= i < |a| ==> (a + b)[i] == a[i];
  }

  lemma BlankFirst(b: string, s: string, ps: seq<string>)
    requires Blank(b) && LaidOut(s, ps)
    ensures LaidOut(b + s, ps)
  {
    if ps == [] {
      BlankSum(b, s);
    } else {
      var i, j :| FirstAt(s, ps, i, j);
      var n := |b|;
      assert (b + s)[..n + i] == b + s[..i];
      BlankSum(b, s[..i]);
      assert (b + s)[n + i..n + j] == s[i..j];
      if |ps| == 1 {
        assert (b + s)[n + j..] == s[j..];
      } else {
        var k := Further(s, ps, i, j);
        assert (b + s)[n + j..n + k] == s[j..k] && (b + s)[n + k + 1..] == s[k + 1..];
        assert GoesOn(b + s, ps, n + j, n + k);
      }
      assert FirstAt(b + s, ps, n + i, n + j);
    }
  }

  lemma BreaksAreBlank(s: string, k: nat, n: nat)
    requires k + n <= |s| && forall i :: k <= i < k + n ==> IsBreak(s[i])
    ensures Blank(s[k..k + n])
  {
  }

  /** One line, its break, and the lines after it. */
  lemma LineFirst(s: string, k: nat, n: nat, ps: seq<string>)
    requires n >= 1 && k + n <= |s| && (forall i :: k <= i < k + n ==> IsBreak(s[i]))
    requires LaidOut(s[k + n..], ps)
    ensures LaidOut(s, (if Strip(s[..k]) == "" then [] else [Strip(s[..k])]) + ps)
  {
    var i, j := StripCuts(s[..k]);
    var rest := s[k + n..];
    if Strip(s[..k]) == "" {
      BreaksAreBlank(s, k, n);
      assert s[..k] == s[..k][..i] + s[..k][j..];
      BlankSum(s[..k][..i], s[..k][j..]);
      BlankSum(s[..k], s[k..k + n]);
      BlankFirst(s[..k] + s[k..k + n], rest, ps);
      InThree(s, k, k + n);
      assert [] + ps == ps;
    } else {
      var all := [Strip(s[..k])] + ps;
      assert all[1..] == ps;
      assert s[..k][..i] == s[..i] && s[..k][i..j] == s[i..j] && s[..k][j..] == s[j..k];
      if ps == [] {
        BreaksAreBlank(s, k, n);
        assert s[j..] == s[j..k] + (s[k..k + n] + rest);
        BlankSum(s[k..k + n], rest);
        BlankSum(s[j..k], s[k..k + n] + rest);
      } else {
        BreaksAreBlank(s, k + 1, n - 1);
        BlankFirst(s[k + 1..k + n], rest, ps);
        assert s[k + 1..] == s[k + 1..k + n] + rest;
        assert GoesOn(s, all, j, k);
      }
      assert FirstAt(s, all, i, j);
    }
  }

  lemma OneLine(s: string)
    ensures LaidOut(s, Paragraphs([s]))
  {
    var i, j := StripCuts(s);
    assert Paragraphs([s]) == if Strip(s) == "" then [] else [Strip(s)];
    if Strip(s) == "" {
      assert s == s[..i] + s[j..];
      BlankSum(s[..i], s[j..]);
    } else {
      assert FirstAt(s, [Strip(s)], i, j);
    }
  }

  /** The paragraphs are the lines of the text, without the whitespace around them and without the blank ones. */
  lemma {:induction false} TextIsLaidOut(s: string)
    ensures LaidOut(s, Paragraphs(SplitLines(s)))
    decreases |s|
  {
    var k := FirstBreak(s);
    if s == [] {
    } else if k == |s| {
      OneLine(s);
    } else {
      var n := BreakLength(s, k);
      TextIsLaidOut(s[k + n..]);
      LineFirst(s, k, n, Paragraphs(SplitLines(s[k + n..])));
      assert SplitLines(s)[0] == s[..k] && SplitLines(s)[1..] == SplitLines(s[k + n..]);
    }
  }

  lemma Apart(s: string, ps: seq<string>, i: int, j: int)
    requires ps != [] && Tight(ps[0]) && FirstAt(s, ps, i, j)
    ensures 0 <= i < j <= |s| && !IsSpace(s[i]) && !IsSpace(s[j - 1])
    ensures (forall k :: i <= k < j ==> !IsBreak(s[k])) && forall k :: 0 <= k < i ==> IsSpace(s[k])
  {
    assert s[i..j][0] == s[i] && s[i..j][j - i - 1] == s[j - 1];
    forall k | i <= k < j
      ensures !IsBreak(s[k])
    {
      assert s[k] == s[i..j][k - i] && s[k] in ps[0];
    }
    forall k | 0 <= k < i
      ensures IsSpace(s[k])
    {
      assert s[..i][k] == s[k];
    }
  }

  /** Up to the next break, only whitespace follows a paragraph. */
  lemma OnlyBlankFollows(s: string, ps: seq<string>, i: int, j: int, e: int)
    requires ps != [] && FirstAt(s, ps, i, j) && j <= e < |s| && forall x :: j <= x <= e ==> !IsBreak(s[x])
    ensures IsSpace(s[e])
  {
    if |ps| == 1 {
      assert s[j..][e - j] == s[e];
    } else {
      var k := Further(s, ps, i, j);
      assert s[j..k][e - j] == s[e];
    }
  }

  /** Two tight first paragraphs of one text: the one cannot end before the other. */
  lemma EndsNoSooner(s: string, ps: seq<string>, qs: seq<string>, i: int, j: int, i': int, j': int)
    requires ps != [] && qs != [] && Tight(ps[0]) && Tight(qs[0])
    requires FirstAt(s, ps, i, j) && FirstAt(s, qs, i', j')
    ensures i <= i' && (i == i' ==> j' <= j)
  {
    Apart(s, ps, i, j);
    Apart(s, qs, i', j');
    if i == i' && j < j' {
      OnlyBlankFollows(s, ps, i, j, j' - 1);
    }
  }

  lemma SameFirst(s: string, ps: seq<string>, qs: seq<string>, i: int, j: int, i': int, j': int)
    requires ps != [] && qs != [] && Tight(ps[0]) && Tight(qs[0])
    requires FirstAt(s, ps, i, j) && FirstAt(s, qs, i', j')
    ensures i == i' && j == j' && ps[0] == qs[0]
  {
    EndsNoSooner(s, ps, qs, i, j, i', j');
    EndsNoSooner(s, qs, ps, i', j', i, j);
  }

  lemma SomethingToSee(s: string, ps: seq<string>)
    requires ps != [] && Tight(ps[0]) && LaidOut(s, ps)
    ensures !Blank(s)
  {
    var i, j :| FirstAt(s, ps, i, j);
    Apart(s, ps, i, j);
  }

  /** What is laid out after a break is laid out after any earlier break with nothing in between. */
  lemma AfterEarlierBreak(s: string, qs: seq<string>, j: int, k: int, k': int)
    requires |qs| > 1 && j <= k && GoesOn(s, qs, j, k')
    ensures k < k' ==> LaidOut(s[k + 1..], qs[1..])
  {
    if k < k' {
      assert s[k + 1..] == s[k + 1..k' + 1] + s[k' + 1..];
      assert forall x :: k < x < k' ==> s[x] == s[j..k'][x - j];
      BreaksAreBlank(s, k', 1);
      assert s[k + 1..k' + 1] == s[k + 1..k'] + s[k'..k' + 1];
      BlankSum(s[k + 1..k'], s[k'..k' + 1]);
      BlankFirst(s[k + 1..k' + 1], s[k' + 1..], qs[1..]);
    }
  }

  /** What stands after the first paragraph, up to where the others begin. */
  lemma BlankTail(s: string, j: int, k: int, qs: seq<string>)
    requires qs != [] && 0 <= j <= |s| && Blank(s[j..]) && GoesOn(s, qs, j, k)
    ensures Blank(s[k + 1..])
  {
    assert s[j..][k + 1 - j..] == s[k + 1..];
  }

  lemma {:induction false} LayoutDetermines(s: string, ps: seq<string>, qs: seq<string>)
    requires LaidOut(s, ps) && (forall p :: p in ps ==> Tight(p))
    requires LaidOut(s, qs) && (forall q :: q in qs ==> Tight(q))
    ensures ps == qs
    decreases |ps|
  {
    if ps == [] {
      if qs != [] {
        SomethingToSee(s, qs);
      }
    } else if qs == [] {
      SomethingToSee(s, ps);
    } else {
      var i, j :| FirstAt(s, ps, i, j);
      var i', j' :| FirstAt(s, qs, i', j');
      SameFirst(s, ps, qs, i, j, i', j');
      if |ps| == 1 && |qs| > 1 {
        var k := Further(s, qs, i', j');
        BlankTail(s, j, k, qs);
        SomethingToSee(s[k + 1..], qs[1..]);
      } else if |ps| > 1 && |qs| == 1 {
        var k := Further(s, ps, i, j);
        BlankTail(s, j, k, ps);
        SomethingToSee(s[k + 1..], ps[1..]);
      } else if |ps| > 1 {
        var k := Further(s, ps, i, j);
        var k' := Further(s, qs, i', j');
        AfterEarlierBreak(s, qs, j, k, k');
        AfterEarlierBreak(s, ps, j, k', k);
        LayoutDetermines(s[if k < k' then k + 1 else k' + 1..], ps[1..], qs[1..]);
      }
    }
  }

  /** The paragraphs made of a text are the only tight ones it can be laid out as. */
  lemma ParagraphsExactlyWhen(s: string, ps: seq<string>)
    ensures LaidOut(s, ps) && (forall p :: p in ps ==> Tight(p)) <==> ps == Paragraphs(SplitLines(s))
  {
    TextIsLaidOut(s);
    AdfIsTight(s);
    if LaidOut(s, ps) && (forall p :: p in ps ==> Tight(p)) {
      LayoutDetermines(s, ps, Paragraphs(SplitLines(s)));
    }
  }

  /** What can be seen of a value after cutting: all of it, or its beginning and the note. */
  function Shown(s: string, limit: int, note: string): string
    requires |note| <= limit
  {
    if |s| <= limit then Visible(s) else Visible(s[..limit - |note|]) + Visible(note)
  }

  lemma FieldShows(s: string, limit: int, note: string)
    requires (Visible(s) != [] || |s| > limit) && Visible(note) != [] && |note| <= limit
    ensures Visible(Join(TextToAdf(Cut(s, limit, note)))) == Shown(s, limit, note)
  {
    if |s| > limit {
      CutShows(s, limit, note);
    }
    AdfKeepsTheText(Cut(s, limit, note));
  }

  lemma NoteShows()
    ensures Visible(NOTE) != []
  {
    NoteLength();
    Shows(NOTE, 61);
  }

  lemma AdfIsLaidOut(s: string)
    requires Visible(s) != []
    ensures LaidOut(s, TextToAdf(s))
  {
    TextIsLaidOut(s);
    LinesKeepTheText(s);
    ParagraphsKeepTheText(SplitLines(s));
  }

  lemma CutIsLaidOut(s: string, limit: nat, note: string)
    requires (Visible(s) != [] || |s| > limit) && Visible(note) != [] && |note| <= limit
    ensures LaidOut(if |s| <= limit then s else s[..limit - |note|] + note, TextToAdf(Cut(s, limit, note)))
  {
    var cut := Cut(s, limit, note);
    if |s| > limit {
      CutShows(s, limit, note);
    }
    AdfIsLaidOut(cut);
    assert cut == if |s| <= limit then s else s[..limit - |note|] + note;
  }

  /** What a field is to hold for a value: within bounds, and showing all the limit leaves room for. */
  ghost predicate FitsAndShows(content: seq<string>, s: string, limit: int, note: string) {
    && content != []
    && Total(content) <= limit
    && |note| <= limit
    && (forall p :: p in content ==> Tight(p))
    && if Visible(s) != [] || |s| > limit then
         && LaidOut(if |s| <= limit then s else s[..limit - |note|] + note, content)
         && Visible(Join(content)) == Shown(s, limit, note)
       else content == ["None"]
  }

  lemma ContentOfField(s: string, limit: nat, note: string)
    requires |note| <= limit && |MISSING| <= limit && Visible(note) != []
    ensures FitsAndShows(TextToAdf(Cut(s, limit, note)), s, limit, note)
  {
    CutFits(s, limit, note);
    AdfFits(Cut(s, limit, note), limit);
    AdfIsTight(Cut(s, limit, note));
    if Visible(s) != [] || |s| > limit {
      FieldShows(s, limit, note);
      CutIsLaidOut(s, limit, note);
    } else {
      AdfKeepsTheText(s);
    }
  }

  lemma ContentOfSafeField(s: string)
    ensures FitsAndShows(TextToAdf(Truncate(s, SAFE_FIELD_CHARS)), s, SAFE_FIELD_CHARS, NOTE)
  {
    NoteLength();
    NoteShows();
    ContentOfField(s, SAFE_FIELD_CHARS, NOTE);
  }

  // ---------------------------------------------------------------- one field

  /** The fields of an issue under construction, by field id. */
  class Fields {
    var entries: map<string, seq<string>>

    constructor ()
      ensures entries == map[]
    {
      entries := map[];
    }
  }

  class FieldMapper {
    const fieldIds: map<string, string>

    constructor (fieldIds: map<string, string>)
      ensures this.fieldIds == fieldIds
    {
      this.fieldIds := fieldIds;
    }

    /** A value that is missing or empty, and a field Jira does not have, change nothing. */
    method PutAdf(fields: Fields, name: string, value: Option<string>)
      modifies fields
      ensures value.GetOr("") == "" || name !in fieldIds ==> fields.entries == old(fields.entries)
      ensures value.GetOr("") != "" && name in fieldIds ==>
        var put := fieldIds[name];
        && put in fields.entries
        && fields.entries == old(fields.entries)[put := fields.entries[put]]
        && FitsAndShows(fields.entries[put], value.value, 32000, NOTE)
    {
      if value.None? || value.value == "" {
        return;
      }
      if name !in fieldIds {
        return;
      }
      var text := Truncate(value.value, SAFE_FIELD_CHARS);
      var content := TextToAdf(text);
      if content == [] {
        content := [text];
      }
      ContentOfSafeField(value.value);
      fields.entries := fields.entries[fieldIds[name] := content];
    }
  }

  // ---------------------------------------------------------------- the description

  datatype Node = Paragraph(text: string) | Heading(text: string) | Bullets(items: seq<string>)

  datatype Asset = Asset(os: Option<string>, ip: Option<string>, ipv6: Option<string>, dns: Option<string>,
                         netbios: Option<string>, tracking: Option<string>)

  datatype Kb = Kb(cves: seq<string>, diagnosis: Option<string>, consequence: Option<string>, solution: Option<string>)

  function Size(nodes: seq<Node>): nat {
    if nodes == [] then 0
    else (if nodes[0].Bullets? then Total(nodes[0].items) else |nodes[0].text|) + Size(nodes[1..])
  }

  lemma {:induction false} SizeOfSum(a: seq<Node>, b: seq<Node>)
    ensures Size(a + b) == Size(a) + Size(b)
    decreases |a|
  {
    if a == [] {
      assert a + b == b;
    } else {
      assert (a + b)[1..] == a[1..] + b;
      SizeOfSum(a[1..], b);
    }
  }

  function AsNodes(texts: seq<string>): (nodes: seq<Node>)
    ensures |nodes| == |texts| && forall i :: 0 <= i < |texts| ==> nodes[i] == Paragraph(texts[i])
  {
    seq(|texts|, i requires 0 <= i < |texts| => Paragraph(texts[i]))
  }

  lemma {:induction false} SizeOfParagraphs(texts: seq<string>)
    ensures Size(AsNodes(texts)) == Total(texts)
    decreases |texts|
  {
    if texts != [] {
      SizeOfParagraphs(texts[1..]);
      assert AsNodes(texts)[1..] == AsNodes(texts[1..]);
    }
  }

  function Lead(asset: Asset, title: string): string {
    "Host details: IP " + Or(asset.ip, MISSING) + " DNS name : " + Or(asset.dns, MISSING)
    + " Vulnerability details: " + title
  }

  function Item(prefix: string, value: Option<string>): seq<string> {
    if Or(value, "") == "" then [] else [prefix + value.value]
  }

  function Addresses(asset: Asset): seq<string> {
    if Or(asset.ip, "") == "" then Item("IP / IPv6: ", asset.ipv6)
    else if Or(asset.ipv6, "") == "" then Item("IP / IPv6: ", asset.ip)
    else ["IP / IPv6: " + asset.ip.value + " / " + asset.ipv6.value]
  }

  function Environment(asset: Asset): seq<string> {
    Item("OS: ", asset.os) + Addresses(asset) + Item("DNS: ", asset.dns)
    + Item("NetBIOS: ", asset.netbios) + Item("Tracking Method: ", asset.tracking)
  }

  predicate Present(value: Option<string>) {
    value.GetOr("") != ""
  }

  predicate AnyPresent(asset: Asset) {
    || Present(asset.os) || Present(asset.ip) || Present(asset.ipv6)
    || Present(asset.dns) || Present(asset.netbios) || Present(asset.tracking)
  }

  function Count(present: bool): nat {
    if present then 1 else 0
  }

  /** The characters an attribute adds: its prefix and its value, or nothing. */
  function Chars(prefix: string, value: Option<string>): nat {
    if Present(value) then |prefix| + |value.value| else 0
  }

  function AddressChars(asset: Asset): nat {
    if Present(asset.ip) && Present(asset.ipv6) then 11 + |asset.ip.value| + 3 + |asset.ipv6.value|
    else Chars("IP / IPv6: ", asset.ip) + Chars("IP / IPv6: ", asset.ipv6)
  }

  lemma {:induction false} TotalOfSum(a: seq<string>, b: seq<string>)
    ensures Total(a + b) == Total(a) + Total(b)
    decreases |a|
  {
    if a == [] {
      assert a + b == b;
    } else {
      assert (a + b)[1..] == a[1..] + b;
      TotalOfSum(a[1..], b);
    }
  }

  lemma ItemSize(prefix: string, value: Option<string>)
    ensures |Item(prefix, value)| == Count(Present(value)) && Total(Item(prefix, value)) == Chars(prefix, value)
  {
    if Present(value) {
      assert [prefix + value.value][1..] == [];
    }
  }

  lemma AddressesSize(asset: Asset)
    ensures |Addresses(asset)| == Count(Present(asset.ip) || Present(asset.ipv6))
    ensures Total(Addresses(asset)) == AddressChars(asset)
  {
    ItemSize("IP / IPv6: ", asset.ip);
    ItemSize("IP / IPv6: ", asset.ipv6);
    if Present(asset.ip) && Present(asset.ipv6) {
      assert Addresses(asset)[1..] == [];
    }
  }

  /** One bullet for each attribute present, the two addresses sharing one; nothing is said of absent ones or added. */
  lemma EnvironmentSize(asset: Asset)
    ensures |Environment(asset)| ==
            Count(Present(asset.os)) + Count(Present(asset.ip) || Present(asset.ipv6)) + Count(Present(asset.dns))
            + Count(Present(asset.netbios)) + Count(Present(asset.tracking))
    ensures Total(Environment(asset)) ==
            Chars("OS: ", asset.os) + AddressChars(asset) + Chars("DNS: ", asset.dns)
            + Chars("NetBIOS: ", asset.netbios) + Chars("Tracking Method: ", asset.tracking)
  {
    var a, b, c := Item("OS: ", asset.os), Addresses(asset), Item("DNS: ", asset.dns);
    var d, e := Item("NetBIOS: ", asset.netbios), Item("Tracking Method: ", asset.tracking);
    ItemSize("OS: ", asset.os);
    AddressesSize(asset);
    ItemSize("DNS: ", asset.dns);
    ItemSize("NetBIOS: ", asset.netbios);
    ItemSize("Tracking Method: ", asset.tracking);
    TotalOfSum(a + b + c + d, e);
    TotalOfSum(a + b + c, d);
    TotalOfSum(a + b, c);
    TotalOfSum(a, b);
  }

  lemma NothingPresent(asset: Asset)
    ensures Environment(asset) == [] <==> !AnyPresent(asset)
  {
    EnvironmentSize(asset);
  }

  /** One more bullet, if there is something to say. */
  method AddItem(items: seq<string>, prefix: string, value: Option<string>) returns (more: seq<string>)
    ensures more == items + Item(prefix, value)
  {
    more := items;
    if Or(value, "") != "" {
      more := more + [prefix + value.value];
    }
  }

  method AddAddresses(items: seq<string>, asset: Asset) returns (more: seq<string>)
    ensures more == items + Addresses(asset)
  {
    more := items;
    var parts := [];
    if Or(asset.ip, "") != "" {
      parts := parts + [asset.ip.value];
    }
    if Or(asset.ipv6, "") != "" {
      parts := parts + [asset.ipv6.value];
    }
    if |parts| == 1 {
      more := more + ["IP / IPv6: " + parts[0]];
    } else if |parts| == 2 {
      more := more + ["IP / IPv6: " + parts[0] + " / " + parts[1]];
    }
  }

  /** The items of the Environment section; absent attributes have none. */
  method EnvironmentItems(asset: Asset) returns (items: seq<string>)
    ensures items == Environment(asset)
    ensures items == [] <==> !AnyPresent(asset)
  {
    NothingPresent(asset);
    items := AddItem([], "OS: ", asset.os);
    items := AddAddresses(items, asset);
    items := AddItem(items, "DNS: ", asset.dns);
    items := AddItem(items, "NetBIOS: ", asset.netbios);
    items := AddItem(items, "Tracking Method: ", asset.tracking);
  }

  /** The CVE list, capped: the first ones, and how many more there are. */
  function CveItems(cves: seq<string>): (items: seq<string>)
    ensures |items| <= MAX_CVES + 1
    ensures if |cves| <= MAX_CVES then items == cves
            else |items| == MAX_CVES + 1 && items[..MAX_CVES] == cves[..MAX_CVES]
  {
    if |cves| > MAX_CVES then cves[..MAX_CVES] + ["\U{2026} (+" + Decimal(|cves| - MAX_CVES) + " more)"]
    else cves
  }

  function ListBody(items: seq<string>): seq<Node> {
    if items == [] then [Paragraph(MISSING)] else [Bullets(items)]
  }

  function LongBody(text: Option<string>): seq<Node> {
    AsNodes(TextToAdf(Truncate(text.GetOr(""), SECTION_CHARS)))
  }

  function Section(heading: string, body: seq<Node>): seq<Node> {
    [Heading(heading)] + body
  }

  const NO_KB := Kb([], None, None, None)

  /** Lead, Environment and CVEs: the part no limit applies to. */
  function Opening(asset: Asset, cves: seq<string>, title: string): seq<Node> {
    [Paragraph(Lead(asset, title))]
    + Section("Environment", ListBody(Environment(asset)))
    + Section("CVEs", ListBody(CveItems(cves)))
  }

  /** Diagnosis, Consequence and Solution. */
  function Closing(kb: Kb): seq<Node> {
    Section("Diagnosis", LongBody(kb.diagnosis))
    + Section("Consequence", LongBody(kb.consequence))
    + Section("Solution", LongBody(kb.solution))
  }

  lemma Regroup(a: seq<Node>, b: seq<Node>, c: seq<Node>, d: seq<Node>)
    ensures a + b + c + d == a + (b + c + d)
  {
  }

  /** Section by section; a detection without a KnowledgeBase entry reads like one with an empty entry. */
  method BuildDescription(asset: Asset, kb: Option<Kb>, title: string) returns (content: seq<Node>)
    ensures content == Opening(asset, kb.GetOr(NO_KB).cves, title) + Closing(kb.GetOr(NO_KB))
  {
    content := [Paragraph(Lead(asset, title))];

    var items := EnvironmentItems(asset);
    content := content + Section("Environment", if items != [] then [Bullets(items)] else [Paragraph(MISSING)]);

    var cves := if kb.Some? then kb.value.cves else [];
    cves := CveItems(cves);
    content := content + Section("CVEs", if cves != [] then [Bullets(cves)] else [Paragraph(MISSING)]);

    ghost var opening := content;
    var entry := kb.GetOr(NO_KB);
    content := content + Section("Diagnosis", LongBody(entry.diagnosis));
    content := content + Section("Consequence", LongBody(entry.consequence));
    content := content + Section("Solution", LongBody(entry.solution));
    Regroup(opening, Section("Diagnosis", LongBody(entry.diagnosis)),
        Section("Consequence", LongBody(entry.consequence)),
      Section("Solution", LongBody(entry.solution)));
  }

  /** The Environment section says what is known of the host, one line each, in this order. */
  lemma EnvironmentReads(asset: Asset)
    ensures Environment(asset) ==
            (if Present(asset.os) then ["OS: " + asset.os.value] else [])
            + (if Present(asset.ip) && Present(asset.ipv6) then
                 ["IP / IPv6: " + asset.ip.value + " / " + asset.ipv6.value]
               else if Present(asset.ip) then ["IP / IPv6: " + asset.ip.value]
               else if Present(asset.ipv6) then ["IP / IPv6: " + asset.ipv6.value]
               else [])
            + (if Present(asset.dns) then ["DNS: " + asset.dns.value] else [])
            + (if Present(asset.netbios) then ["NetBIOS: " + asset.netbios.value] else [])
            + (if Present(asset.tracking) then ["Tracking Method: " + asset.tracking.value] else [])
  {
  }

  /** The CVE section lists the first 150 and says how many more there are. */
  lemma CvesRead(cves: seq<string>)
    ensures CveItems(cves) ==
            if |cves| <= 150 then cves else cves[..150] + ["\U{2026} (+" + Decimal(|cves| - 150) + " more)"]
  {
  }

  lemma LeadReads(asset: Asset, title: string)
    ensures Lead(asset, title) ==
            "Host details: IP " + (if Present(asset.ip) then asset.ip.value else "None")
            + " DNS name : " + (if Present(asset.dns) then asset.dns.value else "None")
            + " Vulnerability details: " + title
  {
  }

  lemma OpeningReads(asset: Asset, cves: seq<string>, title: string)
    ensures Opening(asset, cves, title) ==
            [Paragraph(Lead(asset, title)), Heading("Environment"),
             if AnyPresent(asset) then Bullets(Environment(asset)) else Paragraph("None"),
             Heading("CVEs"),
             if cves == [] then Paragraph("None") else Bullets(CveItems(cves))]
  {
    NothingPresent(asset);
  }

  lemma ClosingReads(kb: Kb)
    ensures Closing(kb) ==
            [Heading("Diagnosis")] + LongBody(kb.diagnosis)
            + [Heading("Consequence")] + LongBody(kb.consequence)
            + [Heading("Solution")] + LongBody(kb.solution)
  {
  }

  /** A long section: paragraphs laying out the text, or its beginning and the note, within 9000 characters. */
  lemma LongReads(text: Option<string>) returns (texts: seq<string>)
    ensures LongBody(text) == AsNodes(texts) && FitsAndShows(texts, text.GetOr(""), 9000, NOTE)
  {
    NoteLength();
    NoteShows();
    ContentOfField(text.GetOr(""), SECTION_CHARS, NOTE);
    texts := TextToAdf(Truncate(text.GetOr(""), SECTION_CHARS));
  }

  function LongSize(text: Option<string>): nat {
    Total(TextToAdf(Truncate(text.GetOr(""), SECTION_CHARS)))
  }

  lemma SectionSize(heading: string, text: Option<string>)
    ensures Size(Section(heading, LongBody(text))) == |heading| + LongSize(text)
    ensures LongSize(text) <= SECTION_CHARS
  {
    var texts := TextToAdf(Truncate(text.GetOr(""), SECTION_CHARS));
    SizeOfParagraphs(texts);
    assert Section(heading, AsNodes(texts))[1..] == AsNodes(texts);
    TruncatedAdfFits(text.GetOr(""), SECTION_CHARS);
  }

  lemma ClosingSize(kb: Kb)
    ensures Size(Closing(kb)) == 28 + LongSize(kb.diagnosis) + LongSize(kb.consequence) + LongSize(kb.solution)
    ensures Size(Closing(kb)) <= 28 + 3 * SECTION_CHARS
  {
    var d := Section("Diagnosis", LongBody(kb.diagnosis));
    var c := Section("Consequence", LongBody(kb.consequence));
    var s := Section("Solution", LongBody(kb.solution));
    SectionSize("Diagnosis", kb.diagnosis);
    SectionSize("Consequence", kb.consequence);
    SectionSize("Solution", kb.solution);
    SizeOfSum(d + c, s);
    SizeOfSum(d, c);
  }

  lemma {:induction false} VisibleOfLetters(s: string)
    requires forall i :: 0 <= i < |s| ==> s[i] == 'x'
    ensures Visible(s) == s
    decreases |s|
  {
    if s != [] {
      VisibleOfLetters(s[1..]);
    }
  }

  lemma {:induction false} JoinSize(texts: seq<string>)
    ensures |Join(texts)| == Total(texts)
    decreases |texts|
  {
    if texts != [] {
      JoinSize(texts[1..]);
    }
  }

  /** A text that fills its section. */
  lemma FullSection(s: string)
    requires |s| == SECTION_CHARS && forall i :: 0 <= i < |s| ==> s[i] == 'x'
    ensures LongSize(Some(s)) == SECTION_CHARS
  {
    VisibleOfLetters(s);
    AdfKeepsTheText(s);
    JoinSize(TextToAdf(s));
    VisibleFits(Join(TextToAdf(s)));
  }

  /** The description stays within the limit whatever the KnowledgeBase says, given the other parts. */
  ghost predicate AlwaysFits(asset: Asset, cves: seq<string>, title: string) {
    forall kb: Kb :: kb.cves == cves ==> Size(Opening(asset, cves, title) + Closing(kb)) <= FIELD_CHAR_LIMIT
  }

  /**
    The long sections leave 5739 characters for the opening, and the description is safe exactly when that is
    enough.
   */
  lemma DescriptionFitsExactlyWhen(asset: Asset, cves: seq<string>, title: string)
    ensures AlwaysFits(asset, cves, title) <==> Size(Opening(asset, cves, title)) <= 5739
  {
    var opening := Opening(asset, cves, title);
    forall kb: Kb
      ensures Size(opening + Closing(kb)) == Size(opening) + Size(Closing(kb)) <= Size(opening) + 28 + 3 * SECTION_CHARS
    {
      SizeOfSum(opening, Closing(kb));
      ClosingSize(kb);
    }
    var full: string := seq(SECTION_CHARS, _ => 'x');
    FullSection(full);
    var worst := Kb(cves, Some(full), Some(full), Some(full));
    ClosingSize(worst);
    assert worst.cves == cves;
  }

  function ListChars(items: seq<string>): nat {
    if items == [] then |MISSING| else Total(items)
  }

  lemma ListSize(heading: string, items: seq<string>)
    ensures Size(Section(heading, ListBody(items))) == |heading| + ListChars(items)
  {
    var body := ListBody(items);
    assert Section(heading, body)[1..] == body && body[1..] == [];
    assert Size(body) == ListChars(items);
  }

  lemma LeadSize(asset: Asset, title: string)
    ensures Size([Paragraph(Lead(asset, title))]) == 53 + |Or(asset.ip, MISSING)| + |Or(asset.dns, MISSING)| + |title|
  {
    assert [Paragraph(Lead(asset, title))][1..] == [];
    assert |"Host details: IP "| == 17 && |" DNS name : "| == 12 && |" Vulnerability details: "| == 24;
  }

  /** What the opening takes, from the lengths of what goes into it. */
  lemma OpeningSize(asset: Asset, cves: seq<string>, title: string)
    ensures Size(Opening(asset, cves, title)) ==
            53 + |Or(asset.ip, MISSING)| + |Or(asset.dns, MISSING)| + |title|
            + 11 + ListChars(Environment(asset)) + 4 + ListChars(CveItems(cves))
  {
    var lead := [Paragraph(Lead(asset, title))];
    var env, list := Section("Environment", ListBody(Environment(asset))), Section("CVEs", ListBody(CveItems(cves)));
    ListSize("Environment", Environment(asset));
    ListSize("CVEs", CveItems(cves));
    SizeOfSum(lead + env, list);
    SizeOfSum(lead, env);
    LeadSize(asset, title);
  }

  /** The opening grows with the title, so a long title alone is too much. */
  lemma TitleCounts(asset: Asset, cves: seq<string>, title: string)
    ensures Size(Opening(asset, cves, title)) >= |title|
    ensures |title| > 5739 ==> !AlwaysFits(asset, cves, title)
  {
    DescriptionFitsExactlyWhen(asset, cves, title);
    OpeningSize(asset, cves, title);
  }
}
