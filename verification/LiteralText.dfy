/** Every text whose lines are ended by line feeds can be written as a block
    scalar, literal or folded, and is read back as it was. */
module LiteralText {
  import opened Results
  import opened ScannerState
  import opened LineText
  import opened FlowScalars
  import opened OpenScalars

  predicate IsLine(s: string) {
    forall i :: 0 <= i < |s| ==> !Breakz(s[i])
  }

  predicate AreLines(ls: seq<string>) {
    forall i :: 0 <= i < |ls| ==> IsLine(ls[i])
  }

  /** The text with these lines. */
  function TextOf(ls: seq<string>): string {
    if ls == [] then "" else ls[0] + ("\n" + TextOf(ls[1..]))
  }

  function Spaces(k: nat): (s: string)
    ensures |s| == k && forall i :: 0 <= i < k ==> s[i] == ' '
  {
    if k == 0 then "" else " " + Spaces(k - 1)
  }

  /** The lines as they are written: each after its indentation. */
  function Written(ls: seq<string>, k: nat): string {
    if ls == [] then "" else Spaces(k) + ls[0] + "\n" + Written(ls[1..], k)
  }

  /** Whether a line begins with neither a space nor a tab: between two such lines,
      empty ones aside, a folded scalar takes a break away. */
  predicate Flush(line: string) {
    line != "" && line[0] != ' ' && line[0] != '\t'
  }

  /** The first line that is not empty, if there is one. */
  function NextLine(ls: seq<string>): string {
    if ls == [] then "" else if ls[0] != "" then ls[0] else NextLine(ls[1..])
  }

  /** The lines with an empty one more wherever folding takes one away. */
  function Spread(folded: bool, ls: seq<string>): seq<string> {
    if ls == [] then []
    else (if folded && Flush(ls[0]) && Flush(NextLine(ls[1..])) then [ls[0], ""] else [ls[0]]) + Spread(folded, ls[1..])
  }

  /** How many lines at the beginning are empty. */
  function Empty(ls: seq<string>): (m: nat)
    ensures m <= |ls| && (m < |ls| ==> ls[m] != "")
    ensures forall i :: 0 <= i < m ==> ls[i] == ""
  {
    if ls == [] || ls[0] != "" then 0 else 1 + Empty(ls[1..])
  }

  predicate Here(b: seq<char>, p: nat, s: string) {
    p + |s| <= |b| && b[p..p + |s|] == s
  }

  /** The written lines stand at the beginning of a line, and after them neither
      a space nor a break. */
  predicate StandAt(b: seq<char>, p: nat, ls: seq<string>, k: nat) {
    && p <= |b| && ColumnAt(b, p) == 0 && Here(b, p, Written(ls, k))
    && var c := CharAt(b, p + |Written(ls, k)|); c != ' ' && !Break(c)
  }

  lemma HereBoth(b: seq<char>, p: nat, s: string, t: string)
    requires Here(b, p, s + t)
    ensures Here(b, p, s) && Here(b, p + |s|, t)
  {
    assert b[p..p + |s|] == b[p..p + |s + t|][..|s|];
    assert b[p + |s|..p + |s + t|] == b[p..p + |s + t|][|s|..];
  }

  lemma HereAt(b: seq<char>, p: nat, s: string, i: nat)
    requires Here(b, p, s) && i < |s|
    ensures b[p + i] == s[i]
  {
    assert b[p + i] == b[p..p + |s|][i];
  }

  lemma {:induction false} ColumnOfSpaces(b: seq<char>, p: nat, i: nat, k: nat)
    requires p <= |b| && ColumnAt(b, p) == 0 && Here(b, p, Spaces(k)) && i <= k
    ensures ColumnAt(b, p + i) == i
    decreases i
  {
    if i > 0 {
      ColumnOfSpaces(b, p, i - 1, k);
      HereAt(b, p, Spaces(k), i - 1);
    }
  }

  lemma AfterFeed(b: seq<char>, p: nat)
    requires p < |b| && b[p] == '\n'
    ensures ColumnAt(b, p + 1) == 0
  {
  }

  lemma WrittenFirst(ls: seq<string>, k: nat)
    requires ls != []
    ensures Written(ls, k) == Spaces(k) + ls[0] + "\n" + Written(ls[1..], k)
  {
  }

  /** The first of the written lines: its indentation, its text, its line feed,
      and the others at the beginning of a line. */
  lemma FirstLine(b: seq<char>, p: nat, ls: seq<string>, k: nat)
    requires StandAt(b, p, ls, k) && ls != []
    ensures var text, end := p + k, p + k + |ls[0]|;
            && end < |b| && ColumnAt(b, p) == 0 && Here(b, p, Spaces(k)) && Here(b, text, ls[0]) && b[end] == '\n'
            && StandAt(b, end + 1, ls[1..], k) && end + 1 + |Written(ls[1..], k)| == p + |Written(ls, k)|
  {
    hide ColumnAt, Written, Here;
    WrittenFirst(ls, k);
    var text, end, rest := p + k, p + k + |ls[0]|, Written(ls[1..], k);
    HereBoth(b, p, Spaces(k) + ls[0] + "\n", rest);
    HereBoth(b, p, Spaces(k) + ls[0], "\n");
    HereBoth(b, p, Spaces(k), ls[0]);
    HereIs(b, end, "\n");
    HereAt(b, end, "\n", 0);
    AfterFeed(b, end);
  }

  /** The spaces before a line's text, or before its end where it has none. */
  lemma IndentPassed(b: seq<char>, p: nat, k: nat)
    requires p + k < |b| && ColumnAt(b, p) == 0 && Here(b, p, Spaces(k))
    ensures Indented(b, p, k) == p + k && ColumnAt(b, p + k) == k
  {
    hide ColumnAt;
    ColumnOfSpaces(b, p, k, k);
    forall i | p <= i < p + k ensures ColumnAt(b, i) < k && b[i] == ' ' {
      ColumnOfSpaces(b, p, i - p, k);
      HereAt(b, p, Spaces(k), i - p);
    }
    IndentedIs(b, p, p + k, k);
  }

  /** Past all the written lines there is nothing to pass. */
  lemma NothingPassed(b: seq<char>, p: nat, k: nat)
    requires CharAt(b, p) != ' ' && !Break(CharAt(b, p))
    ensures BlockBreaks(b, p, k) == Read("", p)
  {
    hide ColumnAt;
  }

  /** An empty line is passed as its break. */
  lemma EmptyStep(b: seq<char>, p: nat, k: nat)
    requires p + k < |b| && ColumnAt(b, p) == 0 && Here(b, p, Spaces(k)) && b[p + k] == '\n'
    ensures var rest := BlockBreaks(b, p + k + 1, k);
            BlockBreaks(b, p, k) == Read("\n" + rest.text, rest.next)
  {
    hide ColumnAt, Here;
    IndentPassed(b, p, k);
  }

  /** A line with text is passed up to its text. */
  lemma TextStep(b: seq<char>, p: nat, k: nat)
    requires p + k < |b| && ColumnAt(b, p) == 0 && Here(b, p, Spaces(k)) && !Break(b[p + k])
    ensures BlockBreaks(b, p, k) == Read("", p + k)
  {
    hide ColumnAt, Here;
    IndentPassed(b, p, k);
  }

  lemma EmptySplit(ls: seq<string>, m: nat)
    requires 0 < m <= |ls| && ls[0] == ""
    ensures TextOf(ls[..m]) == "\n" + TextOf(ls[1..][..m - 1])
    ensures ls[1..][m - 1..] == ls[m..]
  {
    assert ls[..m][1..] == ls[1..][..m - 1];
    assert "" + ("\n" + TextOf(ls[1..][..m - 1])) == "\n" + TextOf(ls[1..][..m - 1]);
  }

  /** Where reading stands past the empty lines at the beginning: at the text of
      the first that is not empty, or at the end. */
  predicate PastEmpty(b: seq<char>, p: nat, ls: seq<string>, k: nat, next: nat) {
    var m, end := Empty(ls), p + |Written(ls, k)|;
    if m == |ls| then next == end && end <= |b| && ColumnAt(b, end) == 0
    else k <= next && StandAt(b, next - k, ls[m..], k) && next - k + |Written(ls[m..], k)| == end
  }

  /** The empty lines at the beginning are read as their breaks. */
  lemma {:induction false} EmptyRead(b: seq<char>, p: nat, ls: seq<string>, k: nat)
    requires StandAt(b, p, ls, k) && AreLines(ls)
    ensures BlockBreaks(b, p, k).text == TextOf(ls[..Empty(ls)])
    ensures PastEmpty(b, p, ls, k, BlockBreaks(b, p, k).next)
    decreases |ls|
  {
    hide BlockBreaks, TextOf, ColumnAt, StandAt, Written, Here;
    if ls == [] {
      NothingStands(b, p, k);
    } else {
      FirstLine(b, p, ls, k);
      if ls[0] == "" {
        EmptyStep(b, p, k);
        EmptyRead(b, p + k + 1, ls[1..], k);
        EmptySplit(ls, Empty(ls));
      } else {
        LineBegins(b, p + k, ls[0]);
        TextStep(b, p, k);
        assert ls[0..] == ls;
        TextOfNothing(ls);
      }
    }
  }

  lemma NothingStands(b: seq<char>, p: nat, k: nat)
    requires StandAt(b, p, [], k)
    ensures |Written([], k)| == 0 && p <= |b| && ColumnAt(b, p) == 0 && BlockBreaks(b, p, k) == Read("", p)
    ensures TextOf([][..0]) == ""
  {
    NothingPassed(b, p, k);
  }

  lemma TextOfNothing(ls: seq<string>)
    ensures TextOf(ls[..0]) == ""
  {
  }

  /** A line's text begins with no break. */
  lemma LineBegins(b: seq<char>, p: nat, line: string)
    requires Here(b, p, line) && IsLine(line) && line != ""
    ensures p < |b| && !Breakz(b[p])
  {
    HereAt(b, p, line, 0);
  }

  lemma LineEndsThere(b: seq<char>, p: nat, line: string)
    requires Here(b, p, line) && IsLine(line) && p + |line| < |b| && b[p + |line|] == '\n'
    ensures LineEnd(b, p) == p + |line|
  {
    forall i | p <= i < p + |line| ensures !Breakz(b[i]) {
      HereAt(b, p, line, i - p);
    }
    LineEndIs(b, p, p + |line|);
  }

  lemma {:induction false} SpreadLines(folded: bool, ls: seq<string>)
    requires AreLines(ls)
    ensures AreLines(Spread(folded, ls))
  {
    if ls != [] {
      SpreadLines(folded, ls[1..]);
    }
  }

  lemma {:induction false} SpreadNone(ls: seq<string>)
    ensures Spread(false, ls) == ls
  {
    if ls != [] {
      SpreadNone(ls[1..]);
      assert ls == [ls[0]] + ls[1..];
    }
  }

  lemma Cons<T>(x: T, more: seq<T>, i: nat)
    requires i <= |more|
    ensures ([x] + more)[..i + 1] == [x] + more[..i] && ([x] + more)[i + 1..] == more[i..] && ([x] + more)[1..] == more
  {
  }

  lemma SpreadOfEmpty(folded: bool, ls: seq<string>)
    requires ls != [] && ls[0] == ""
    ensures ls == [""] + ls[1..] && Spread(folded, ls) == [""] + Spread(folded, ls[1..])
    ensures Empty(ls) == 1 + Empty(ls[1..]) && NextLine(ls) == NextLine(ls[1..])
    ensures forall more :: Empty([""] + more) == 1 + Empty(more)
  {
    forall more ensures Empty([""] + more) == 1 + Empty(more) {
      assert ([""] + more)[1..] == more;
    }
  }

  lemma SpreadOfLine(folded: bool, ls: seq<string>)
    requires ls == [] || ls[0] != ""
    ensures Empty(ls) == 0 == Empty(Spread(folded, ls)) && (ls != [] ==> Spread(folded, ls) != [] && Spread(folded, ls)[0] == ls[0] == NextLine(ls))
    ensures ls == [] ==> NextLine(ls) == "" && Spread(folded, ls) == []
  {
  }

  /** Nothing is put among empty lines at the beginning. */
  lemma {:induction false} SpreadEmpty(folded: bool, ls: seq<string>)
    ensures var us, m := Spread(folded, ls), Empty(ls);
            && Empty(us) == m <= |us| && us[..m] == ls[..m] && us[m..] == Spread(folded, ls[m..])
            && (m == |ls| ==> |us| == m && NextLine(ls) == "")
            && (m < |ls| ==> m < |us| && us[m] == ls[m] == NextLine(ls))
  {
    hide *;
    if ls != [] && ls[0] == "" {
      var us, more := Spread(folded, ls), Spread(folded, ls[1..]);
      SpreadOfEmpty(folded, ls);
      SpreadEmpty(folded, ls[1..]);
      var m := Empty(ls[1..]);
      Cons("", more, m);
      Cons("", ls[1..], m);
      if m < |ls[1..]| {
        assert us[m + 1] == more[m] && ls[m + 1] == ls[1..][m];
      }
    } else {
      SpreadOfLine(folded, ls);
      assert ls[0..] == ls && Spread(folded, ls)[0..] == Spread(folded, ls);
      assert ls[..0] == Spread(folded, ls)[..0];
    }
  }

  lemma SpreadHead(folded: bool, first: string, rest: seq<string>)
    ensures Spread(folded, [first] + rest)
         == [first] + if folded && Flush(first) && Flush(NextLine(rest)) then [""] + Spread(folded, rest) else Spread(folded, rest)
  {
    assert ([first] + rest)[1..] == rest;
  }

  lemma OneBreakMore(ls: seq<string>)
    ensures Empty([""] + ls) == 1 + Empty(ls) && TextOf([""] + ls) == "\n" + TextOf(ls)
  {
    assert ([""] + ls)[1..] == ls;
    assert "" + ("\n" + TextOf(ls)) == "\n" + TextOf(ls);
  }

  lemma FlushLine()
    ensures !Flush("")
  {
  }

  /** What is passed between two lines: the empty lines between them, and the one
      that was put there. */
  lemma GapText(folded: bool, first: string, rest: seq<string>)
    ensures var tail := Spread(folded, [first] + rest)[1..];
            var m, e := Empty(rest), Empty(tail);
            && (m == |rest| ==> e == |tail| && tail == rest)
            && (m < |rest| ==> e < |tail| && tail[e..] == Spread(folded, rest[m..]) && tail[e] == rest[m])
            && (m < |rest| ==> TextOf(tail[..e]) == if folded && Flush(first) && Flush(rest[m]) then "\n" + TextOf(rest[..m]) else TextOf(rest[..m]))
  {
    hide *;
    var us, more, m := Spread(folded, [first] + rest), Spread(folded, rest), Empty(rest);
    SpreadHead(folded, first, rest);
    SpreadEmpty(folded, rest);
    FlushLine();
    if m < |rest| && folded && Flush(first) && Flush(rest[m]) {
      assert us[1..] == [""] + more;
      OneBreakMore(more);
      OneBreakMore(more[..m]);
      Cons("", more, m);
      assert ([""] + more)[m + 1] == more[m];
    } else {
      assert us[1..] == more;
      if m == |rest| {
        assert more == more[..m] == rest[..m] == rest;
      }
    }
  }

  /** The lines from one that is not empty on. */
  lemma {:induction false} LinesRead(b: seq<char>, p: nat, ls: seq<string>, k: nat, folded: bool, breaks: string)
    requires StandAt(b, p, Spread(folded, ls), k) && k > 0 && AreLines(ls) && ls != [] && ls[0] != ""
    ensures LineAhead(b, p + k, k)
    ensures Lines(b, p + k, k, folded, Some(true), breaks) == Read(breaks + TextOf(ls), p + |Written(Spread(folded, ls), k)|)
    decreases |ls|
  {
    hide *;
    SpreadFirst(folded, ls);
    var us, rest := Spread(folded, ls), ls[1..];
    var tail, m := us[1..], Empty(rest);
    FirstLine(b, p, us, k);
    var start, end := p + k, p + k + |ls[0]|;
    IndentPassed(b, p, k);
    FirstIsLine(ls);
    LineBegins(b, start, ls[0]);
    LineStands(b, start, k);
    LineEndsThere(b, start, ls[0]);
    SpreadLines(folded, ls);
    FirstIsLine(us);
    EmptyRead(b, end + 1, tail, k);
    var next := BlockBreaks(b, end + 1, k);
    Steps(b, start, k, folded, breaks, end);
    HereIs(b, start, ls[0]);
    GapText(folded, ls[0], rest);
    assert [ls[0]] + rest == ls;
    TextGrows(breaks, ls);
    if m == |rest| {
      PastAll(b, end + 1, tail, k, next.next);
      assert tail[..m] == rest;
    } else {
      PastSome(b, end + 1, tail, k, next.next);
      FromHere(rest);
      FirstThere(b, next.next - k, tail[Empty(tail)..], k);
      LinesRead(b, next.next - k, rest[m..], k, folded, next.text);
      HereAt(b, start, ls[0], 0);
      JointIs(folded, ls[0], rest[m], TextOf(rest[..m]), next.text);
      TextSplit(rest, m);
      Regrouped(breaks + ls[0], Joint(folded, ls[0][0], "\n", next.text, rest[m][0]), next.text, TextOf(rest[m..]), TextOf(rest[..m]));
    }
  }

  lemma SpreadFirst(folded: bool, ls: seq<string>)
    requires ls != []
    ensures Spread(folded, ls) != [] && Spread(folded, ls)[0] == ls[0]
  {
  }

  lemma FirstIsLine(ls: seq<string>)
    requires AreLines(ls) && ls != []
    ensures IsLine(ls[0]) && AreLines(ls[1..])
  {
  }

  lemma LineStands(b: seq<char>, p: nat, k: nat)
    requires p < |b| && !Breakz(b[p]) && ColumnAt(b, p) == k
    ensures LineAhead(b, p, k)
  {
  }

  lemma PastAll(b: seq<char>, p: nat, ls: seq<string>, k: nat, next: nat)
    requires Empty(ls) == |ls| && PastEmpty(b, p, ls, k, next) && k > 0
    ensures next == p + |Written(ls, k)| <= |b| && !LineAhead(b, next, k)
  {
  }

  lemma PastSome(b: seq<char>, p: nat, ls: seq<string>, k: nat, next: nat)
    requires Empty(ls) < |ls| && PastEmpty(b, p, ls, k, next)
    ensures k <= next && StandAt(b, next - k, ls[Empty(ls)..], k)
    ensures next - k + |Written(ls[Empty(ls)..], k)| == p + |Written(ls, k)|
  {
    hide StandAt, Written;
  }

  lemma FromHere(ls: seq<string>)
    requires AreLines(ls) && Empty(ls) < |ls|
    ensures var m := Empty(ls); AreLines(ls[m..]) && ls[m..] != [] && ls[m..][0] == ls[m] != ""
  {
  }

  lemma FirstThere(b: seq<char>, p: nat, ls: seq<string>, k: nat)
    requires StandAt(b, p, ls, k) && ls != [] && ls[0] != ""
    ensures p + k < |b| && b[p + k] == ls[0][0]
  {
    FirstLine(b, p, ls, k);
    HereAt(b, p + k, ls[0], 0);
  }

  /** The break between two lines, as folding and the empty line put there leave it. */
  lemma JointIs(folded: bool, x: string, y: string, between: string, text: string)
    requires x != "" && y != ""
    requires text == if folded && Flush(x) && Flush(y) then "\n" + between else between
    ensures Joint(folded, x[0], "\n", text, y[0]) + text == "\n" + between
  {
    assert "" + text == text;
  }

  lemma Regrouped(x: string, joint: string, text: string, more: string, between: string)
    requires joint + text == "\n" + between
    ensures x + (joint + (text + more)) == x + ("\n" + (between + more))
  {
    assert joint + (text + more) == joint + text + more;
    assert "\n" + (between + more) == "\n" + between + more;
  }

  lemma TextGrows(breaks: string, ls: seq<string>)
    requires ls != []
    ensures breaks + ls[0] + ("\n" + TextOf(ls[1..])) == breaks + TextOf(ls)
  {
  }

  lemma HereIs(b: seq<char>, p: nat, s: string)
    requires Here(b, p, s)
    ensures p + |s| <= |b| && b[p..p + |s|] == s
  {
  }

  /** One line of a block scalar with a line feed at its end. */
  lemma Steps(b: seq<char>, p: nat, k: nat, folded: bool, breaks: string, end: nat)
    requires LineAhead(b, p, k) && LineEnd(b, p) == end < |b| && b[end] == '\n'
    ensures var next := BlockBreaks(b, end + 1, k);
            Lines(b, p, k, folded, Some(true), breaks) ==
            if LineAhead(b, next.next, k) then
              var rest := Lines(b, next.next, k, folded, Some(true), next.text);
              Read(breaks + b[p..end] + (Joint(folded, b[p], "\n", next.text, b[next.next]) + rest.text), rest.next)
            else Read(breaks + b[p..end] + ("\n" + next.text), next.next)
  {
    hide ColumnAt, BlockBreaks, Joint;
    assert BreakEnd(b, end) == end + 1;
  }

  lemma {:induction false} TextSplit(ls: seq<string>, m: nat)
    requires m <= |ls|
    ensures TextOf(ls[..m]) + TextOf(ls[m..]) == TextOf(ls)
    decreases m
  {
    if m == 0 {
      assert ls[..0] == [] && ls[0..] == ls;
    } else {
      TextSplit(ls[1..], m - 1);
      assert ls[..m][1..] == ls[1..][..m - 1] && ls[1..][m - 1..] == ls[m..];
      var front, back := TextOf(ls[1..][..m - 1]), TextOf(ls[m..]);
      assert ls[0] + ("\n" + front) + back == ls[0] + ("\n" + (front + back));
    }
  }

  // --- whole scalars

  /** The body of a scalar that keeps its breaks, from its first text on. */
  lemma BodyRead(b: seq<char>, p: nat, ls: seq<string>, k: nat, folded: bool)
    requires StandAt(b, p, Spread(folded, ls), k) && k > 0 && AreLines(ls)
    ensures var leading := BlockBreaks(b, p, k);
            && leading.next <= |b|
            && BlockText(b, leading.next, k, folded, Some(true), leading.text) == Read(TextOf(ls), p + |Written(Spread(folded, ls), k)|)
  {
    hide BlockBreaks, TextOf, ColumnAt, StandAt, Written, Here, Lines, Spread, PastEmpty, AreLines;
    var us, m := Spread(folded, ls), Empty(ls);
    SpreadLines(folded, ls);
    EmptyRead(b, p, us, k);
    SpreadEmpty(folded, ls);
    var leading := BlockBreaks(b, p, k);
    if m == |ls| {
      PastAll(b, p, us, k, leading.next);
      assert us == us[..m] == ls[..m] == ls;
      NoLineAhead(b, leading.next, k, folded, leading.text);
    } else {
      PastSome(b, p, us, k, leading.next);
      FromHere(ls);
      LinesRead(b, leading.next - k, ls[m..], k, folded, leading.text);
      TextSplit(ls, m);
    }
  }

  lemma NoLineAhead(b: seq<char>, p: nat, k: nat, folded: bool, breaks: string)
    requires p <= |b| && !LineAhead(b, p, k)
    ensures BlockText(b, p, k, folded, Some(true), breaks) == Read(breaks, p)
  {
    assert "" + breaks == breaks;
  }

  function DigitChar(n: nat): (c: char)
    requires 1 <= n <= 9
    ensures Digit(c) && c != '0' && HexValue(c) == n
  {
    ('0' as int + n) as char
  }

  /** The indentation a block scalar has for a digit, inside blocks at some other. */
  function IndentOf(outer: int, n: nat): (k: nat)
    requires outer >= -1 && n > 0
    ensures k > 0
  {
    (if outer + 1 > 1 then outer + 1 else 1) + n - 1
  }

  lemma HeaderRead(b: seq<char>, p: nat, n: nat)
    requires 1 <= n <= 9 && Here(b, p, [DigitChar(n), '+', '\n'])
    ensures HeaderAt(b, p) == Ok(Header(Some(true), Some(n), p + 2)) && RestOfLine(b, p + 2) == Ok(p + 3)
    ensures p + 3 <= |b| && ColumnAt(b, p + 3) == 0
  {
    hide ColumnAt;
    var header := [DigitChar(n), '+', '\n'];
    HereAt(b, p, header, 0);
    HereAt(b, p, header, 1);
    HereAt(b, p, header, 2);
    AfterFeed(b, p + 2);
  }

  /** A text whose only breaks are line feeds, with one at its end. */
  predicate Fed(s: string) {
    && (forall i :: 0 <= i < |s| ==> s[i] == '\n' || !Breakz(s[i]))
    && (s != "" ==> s[|s| - 1] == '\n')
  }

  function LinesOf(s: string): seq<string> {
    if s == "" then []
    else
      var rest := LinesOf(s[1..]);
      if s[0] == '\n' then [""] + rest
      else if rest == [] then [[s[0]]]
      else [[s[0]] + rest[0]] + rest[1..]
  }

  lemma {:induction false} LinesOfText(s: string)
    requires Fed(s)
    ensures AreLines(LinesOf(s)) && TextOf(LinesOf(s)) == s && (s != "" ==> LinesOf(s) != [])
  {
    if s != "" {
      LinesOfText(s[1..]);
      var rest := LinesOf(s[1..]);
      if s[0] == '\n' {
        assert ([""] + rest)[1..] == rest;
        assert s == "" + ("\n" + s[1..]);
      } else {
        assert ([[s[0]] + rest[0]] + rest[1..])[1..] == rest[1..];
        assert [s[0]] + rest[0] + ("\n" + TextOf(rest[1..])) == [s[0]] + (rest[0] + ("\n" + TextOf(rest[1..])));
        assert s == [s[0]] + s[1..];
      }
    }
  }

  /** Every such text, its lines indented as the digit says and, to be folded, an
      empty line more wherever folding takes one away, is read back whole as a
      scalar that keeps its breaks, in any block and whatever stands before it and,
      but for spaces and breaks, after it; leading and trailing empty lines and
      lines that begin with spaces included. */
  lemma EveryTextIsBlock(s: string, folded: bool, n: nat, outer: int, before: seq<char>, after: seq<char>)
    requires Fed(s) && 1 <= n <= 9 && outer >= -1
    requires CharAt(after, 0) != ' ' && !Break(CharAt(after, 0))
    ensures var written := [DigitChar(n), '+', '\n'] + Written(Spread(folded, LinesOf(s)), IndentOf(outer, n));
            Block(before + written + after, |before|, outer, folded) == Ok(Read(s, |before| + |written|))
  {
    hide ColumnAt, Written, HeaderAt, RestOfLine, BlockText, BlockBreaks, LinesOf, TextOf, Spread;
    var k := IndentOf(outer, n);
    var header, text := [DigitChar(n), '+', '\n'], Written(Spread(folded, LinesOf(s)), k);
    var b, p := before + (header + text) + after, |before|;
    assert Here(b, p, header + text);
    HereBoth(b, p, header, text);
    HeaderRead(b, p, n);
    assert CharAt(b, p + 3 + |text|) == CharAt(after, 0);
    LinesOfText(s);
    BodyRead(b, p + 3, LinesOf(s), k, folded);
  }

  /** Of a literal scalar the lines are the text's own. */
  lemma EveryTextIsLiteral(s: string, n: nat, outer: int, before: seq<char>, after: seq<char>)
    requires Fed(s) && 1 <= n <= 9 && outer >= -1
    requires CharAt(after, 0) != ' ' && !Break(CharAt(after, 0))
    ensures var written := [DigitChar(n), '+', '\n'] + Written(LinesOf(s), IndentOf(outer, n));
            Block(before + written + after, |before|, outer, false) == Ok(Read(s, |before| + |written|))
  {
    hide Block;
    SpreadNone(LinesOf(s));
    EveryTextIsBlock(s, false, n, outer, before, after);
  }

  // --- headers without a digit

  /** The spaces of an indentation, seen as such: as deep as it goes. */
  lemma {:induction false} SpacesSeen(b: seq<char>, p: nat, i: nat, k: nat)
    requires p + k < |b| && ColumnAt(b, p) == 0 && Here(b, p, Spaces(k)) && i <= k
    requires LeadingAt(b, p + k).deepest <= k
    ensures var rest := LeadingAt(b, p + k);
            LeadingAt(b, p + i) == rest.(deepest := if i < k then k else rest.deepest)
    decreases k - i
  {
    hide ColumnAt;
    if i < k {
      SpacesSeen(b, p, i + 1, k);
      HereAt(b, p, Spaces(k), i);
      ColumnOfSpaces(b, p, i + 1, k);
    }
  }

  /** The first line that is not empty does not begin with a space. */
  predicate Unspaced(ls: seq<string>) {
    NextLine(ls) == "" || NextLine(ls)[0] != ' '
  }

  /** Without a digit the indentation is seen from the lines themselves. */
  lemma {:induction false} LeadingSeen(b: seq<char>, p: nat, ls: seq<string>, k: nat)
    requires StandAt(b, p, ls, k) && k > 0 && AreLines(ls) && Unspaced(ls)
    ensures LeadingAt(b, p) == Leading(BlockBreaks(b, p, k).text, if ls == [] then 0 else k, BlockBreaks(b, p, k).next)
    decreases |ls|
  {
    hide *;
    if ls == [] {
      NothingSeen(b, p, k);
    } else {
      FirstLine(b, p, ls, k);
      FirstIsLine(ls);
      if ls[0] == "" {
        EmptyStep(b, p, k);
        NextUnspaced(ls);
        LeadingSeen(b, p + k + 1, ls[1..], k);
        FeedSeen(b, p + k);
      } else {
        LineBegins(b, p + k, ls[0]);
        HereAt(b, p + k, ls[0], 0);
        NextUnspaced(ls);
        TextStepSeen(b, p, k);
      }
      SpacesSeen(b, p, 0, k);
    }
  }

  lemma NothingSeen(b: seq<char>, p: nat, k: nat)
    requires StandAt(b, p, [], k)
    ensures LeadingAt(b, p) == Leading("", 0, p) && BlockBreaks(b, p, k) == Read("", p)
  {
    NothingPassed(b, p, k);
  }

  lemma NextUnspaced(ls: seq<string>)
    requires Unspaced(ls) && ls != []
    ensures if ls[0] == "" then Unspaced(ls[1..]) else ls[0][0] != ' '
  {
  }

  lemma FeedSeen(b: seq<char>, p: nat)
    requires p < |b| && b[p] == '\n'
    ensures var rest := LeadingAt(b, p + 1);
            LeadingAt(b, p) == rest.(text := "\n" + rest.text)
  {
    hide ColumnAt;
  }

  lemma TextStepSeen(b: seq<char>, p: nat, k: nat)
    requires p + k < |b| && ColumnAt(b, p) == 0 && Here(b, p, Spaces(k)) && !Breakz(b[p + k]) && b[p + k] != ' '
    ensures LeadingAt(b, p + k) == Leading("", 0, p + k) && BlockBreaks(b, p, k) == Read("", p + k)
  {
    hide ColumnAt;
    TextStep(b, p, k);
  }

  lemma PlusRead(b: seq<char>, p: nat)
    requires Here(b, p, "+\n")
    ensures HeaderAt(b, p) == Ok(Header(Some(true), None, p + 1)) && RestOfLine(b, p + 1) == Ok(p + 2)
    ensures p + 2 <= |b| && ColumnAt(b, p + 2) == 0
  {
    hide ColumnAt;
    HereAt(b, p, "+\n", 0);
    HereAt(b, p, "+\n", 1);
    AfterFeed(b, p + 1);
  }

  lemma SpreadUnspaced(folded: bool, ls: seq<string>)
    requires Unspaced(ls)
    ensures Unspaced(Spread(folded, ls)) && (Spread(folded, ls) == [] <==> ls == [])
  {
    SpreadEmpty(folded, ls);
    SpreadEmpty(folded, Spread(folded, ls));
    hide Empty;
  }

  /** The body, its indentation seen. */
  lemma BodySeen(b: seq<char>, p: nat, ls: seq<string>, k: nat, outer: int, folded: bool)
    requires StandAt(b, p, Spread(folded, ls), k) && AreLines(ls) && Unspaced(ls) && outer >= -1 && k >= IndentOf(outer, 1)
    requires p <= |b|
    ensures BlockBody(b, p, outer, folded, Some(true), None) == Read(TextOf(ls), p + |Written(Spread(folded, ls), k)|)
  {
    hide BlockBreaks, TextOf, ColumnAt, StandAt, Written, Lines, Spread, AreLines, Unspaced, LeadingAt;
    SpreadLines(folded, ls);
    SpreadUnspaced(folded, ls);
    LeadingSeen(b, p, Spread(folded, ls), k);
    BodyRead(b, p, ls, k, folded);
    if ls == [] {
      NothingSeen(b, p, k);
      EmptyBody(b, p, k, folded);
    }
  }

  /** Of nothing the indentation makes no difference. */
  lemma EmptyBody(b: seq<char>, p: nat, k: nat, folded: bool)
    requires StandAt(b, p, [], k)
    ensures |Written([], k)| == 0 && TextOf([]) == "" && p <= |b|
    ensures forall n: nat :: n > 0 ==> BlockText(b, p, n, folded, Some(true), "") == Read("", p)
  {
    hide Lines;
    forall n: nat | n > 0 ensures BlockText(b, p, n, folded, Some(true), "") == Read("", p) {
      NoLineAhead(b, p, n, folded, "");
    }
  }

  /** Whether the first character of a text that is no break is a space. */
  ghost predicate Spaced(s: string) {
    exists m :: 0 <= m < |s| && s[m] == ' ' && forall i :: 0 <= i < m ==> Break(s[i])
  }

  lemma SpacedBehind(c: char, s: string)
    ensures Break(c) ==> (Spaced([c] + s) <==> Spaced(s))
    ensures !Break(c) ==> (Spaced([c] + s) <==> c == ' ')
  {
    var all := [c] + s;
    if Spaced(s) && Break(c) {
      var m :| 0 <= m < |s| && s[m] == ' ' && forall i :: 0 <= i < m ==> Break(s[i]);
      assert all[m + 1] == ' ' && forall i :: 0 <= i < m + 1 ==> Break(all[i]);
    }
    if Spaced(all) {
      var m :| 0 <= m < |all| && all[m] == ' ' && forall i :: 0 <= i < m ==> Break(all[i]);
      assert m > 0 ==> Break(all[0]);
      if m > 0 {
        assert s[m - 1] == ' ' && forall i :: 0 <= i < m - 1 ==> s[i] == all[i + 1];
      }
    }
    if c == ' ' {
      assert all[0] == ' ';
    }
  }

  /** Of such texts it is the same to say it of the lines. */
  lemma {:induction false} SpacedLines(s: string)
    requires Fed(s)
    ensures Unspaced(LinesOf(s)) <==> !Spaced(s)
  {
    if s != "" {
      SpacedLines(s[1..]);
      SpacedBehind(s[0], s[1..]);
      LinesOfText(s[1..]);
      hide Spaced;
      assert s == [s[0]] + s[1..];
      var rest := LinesOf(s[1..]);
      if s[0] == '\n' {
        assert ([""] + rest)[1..] == rest;
      } else {
        assert LinesOf(s)[0][0] == s[0];
      }
    }
  }

  /** A text whose first line with anything on it does not begin with a space needs
      no digit: indented as deep as the block asks, or deeper, it is read back. */
  lemma NoDigitNeeded(s: string, folded: bool, k: nat, outer: int, before: seq<char>, after: seq<char>)
    requires Fed(s) && !Spaced(s) && outer >= -1 && k >= IndentOf(outer, 1)
    requires CharAt(after, 0) != ' ' && !Break(CharAt(after, 0))
    ensures var written := "+\n" + Written(Spread(folded, LinesOf(s)), k);
            Block(before + written + after, |before|, outer, folded) == Ok(Read(s, |before| + |written|))
  {
    hide ColumnAt, Written, HeaderAt, RestOfLine, BlockBody, LinesOf, TextOf, Spread, Unspaced, Spaced, Fed;
    SpacedLines(s);
    var text := Written(Spread(folded, LinesOf(s)), k);
    var b, p := before + ("+\n" + text) + after, |before|;
    assert Here(b, p, "+\n" + text);
    HereBoth(b, p, "+\n", text);
    PlusRead(b, p);
    assert CharAt(b, p + 2 + |text|) == CharAt(after, 0);
    LinesOfText(s);
    BodySeen(b, p + 2, LinesOf(s), k, outer, folded);
  }

  /** Before the first line there are only breaks, and it does not begin with a space. */
  lemma {:induction false} LeadingStops(b: seq<char>, p: nat)
    ensures var r := LeadingAt(b, p);
            && (forall i :: 0 <= i < |r.text| ==> Break(r.text[i]))
            && (r.next < |b| ==> b[r.next] != ' ' && !Break(b[r.next]))
    decreases |b| - p
  {
    hide ColumnAt;
    if p < |b| {
      if b[p] == ' ' {
        LeadingStops(b, p + 1);
      } else if Break(b[p]) {
        LeadingStops(b, AfterBreak(b, p));
      }
    }
  }

  lemma LinesStart(b: seq<char>, p: nat, k: nat, folded: bool, chomping: Option<bool>, breaks: string)
    requires LineAhead(b, p, k) && !Break(b[p])
    ensures var text := Lines(b, p, k, folded, chomping, breaks).text;
            |text| > |breaks| && text[..|breaks|] == breaks && text[|breaks|] == b[p]
  {
    hide ColumnAt, BlockBreaks, Joint, Chomped;
    assert LineEnd(b, p) > p;
    var line := breaks + b[p..LineEnd(b, p)];
    assert line[|breaks|] == b[p] && line[..|breaks|] == breaks;
  }

  /** A header without a digit gives no text whose first character that is no break
      is a space, whatever is written under it. */
  lemma DigitNeeded(b: seq<char>, p: nat, outer: int, folded: bool)
    requires p <= |b| && outer >= -1 && Block(b, p, outer, folded).Ok? && HeaderAt(b, p).value.increment.None?
    ensures !Spaced(Block(b, p, outer, folded).value.text)
  {
    var header := HeaderAt(b, p).value;
    var start := RestOfLine(b, header.next).value;
    var leading := LeadingAt(b, start);
    var least: nat := if outer + 1 > 1 then outer + 1 else 1;
    var k := if least > leading.deepest then least else leading.deepest;
    LeadingStops(b, start);
    hide ColumnAt, Lines, LeadingAt, HeaderAt, RestOfLine;
    var text := Block(b, p, outer, folded).value.text;
    assert text == BlockText(b, leading.next, k, folded, header.chomping, leading.text).text;
    if LineAhead(b, leading.next, k) {
      LinesStart(b, leading.next, k, folded, header.chomping, leading.text);
      StartsBare(text, leading.text, b[leading.next]);
    } else {
      assert text == Chomped(header.chomping, "", leading.text);
      assert "" + leading.text == leading.text && "" + "" == "";
      OnlyBreaks(text, leading.text);
    }
  }

  lemma StartsBare(text: string, breaks: string, c: char)
    requires |text| > |breaks| && text[..|breaks|] == breaks && text[|breaks|] == c && c != ' ' && !Break(c)
    requires forall i :: 0 <= i < |breaks| ==> Break(breaks[i])
    ensures !Spaced(text)
  {
    assert forall i :: 0 <= i < |breaks| ==> Break(text[..|breaks|][i]);
    assert forall i :: 0 <= i < |breaks| ==> text[i] == text[..|breaks|][i];
    assert !Break(text[|breaks|]) && !Break(' ');
  }

  lemma OnlyBreaks(text: string, breaks: string)
    requires text == breaks || text == ""
    requires forall i :: 0 <= i < |breaks| ==> Break(breaks[i])
    ensures !Spaced(text)
  {
  }
}
