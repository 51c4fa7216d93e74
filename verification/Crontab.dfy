/** A crontab's lines: which are jobs, how a job's line is split, and what the
    jobs are named. */
module Crontab {
  import opened Results
  import opened CronNames
  import Shuffles

  const SHORTCUTS := ["@reboot", "@yearly", "@annually", "@monthly", "@weekly", "@daily", "@midnight", "@hourly"]

  // --- runs of white space

  /** Past the white space that begins at a place. */
  function SpaceEnd(s: string, i: nat): (j: nat)
    requires i <= |s|
    ensures i <= j <= |s| && (forall k :: i <= k < j ==> Space(s[k])) && (j < |s| ==> !Space(s[j]))
    decreases |s| - i
  {
    if i < |s| && Space(s[i]) then SpaceEnd(s, i + 1) else i
  }

  /** Past the word that begins at a place. */
  function WordEnd(s: string, i: nat): (j: nat)
    requires i <= |s|
    ensures i <= j <= |s| && (forall k :: i <= k < j ==> !Space(s[k])) && (j < |s| ==> Space(s[j]))
    decreases |s| - i
  {
    if i < |s| && !Space(s[i]) then WordEnd(s, i + 1) else i
  }

  /** Where the first so many words end, if there are so many. */
  function WordsEnd(s: string, i: nat, n: nat): (r: Option<nat>)
    requires i <= |s|
    ensures r.Some? ==> i <= r.value <= |s|
    decreases n
  {
    if n == 0 then Some(i)
    else
      var start := SpaceEnd(s, i);
      var end := WordEnd(s, start);
      if end == start then None else WordsEnd(s, end, n - 1)
  }

  /** The first fields with what is between them, and what comes after. */
  function Taken(s: string, n: nat): Option<(string, string)> {
    var begin := SpaceEnd(s, 0);
    match WordsEnd(s, begin, n)
    case None => None
    case Some(end) => Some((s[begin..end], s[end..]))
  }

  method PastSpace(s: string, from: nat) returns (i: nat)
    requires from <= |s|
    ensures i == SpaceEnd(s, from)
  {
    i := from;
    while i < |s| && Space(s[i])
      invariant from <= i <= |s| && SpaceEnd(s, i) == SpaceEnd(s, from)
    {
      i := i + 1;
    }
  }

  method TakeFields(s: string, n: nat) returns (r: Option<(string, string)>)
    ensures r == Taken(s, n)
  {
    var begin := PastSpace(s, 0);
    var i, end := begin, begin;
    for k := 0 to n
      invariant begin <= i == end <= |s| && WordsEnd(s, i, n - k) == WordsEnd(s, begin, n)
    {
      var start := PastSpace(s, i);
      i := start;
      while i < |s| && !Space(s[i])
        invariant start <= i <= |s| && WordEnd(s, i) == WordEnd(s, start)
      {
        i := i + 1;
      }
      if i == start {
        return None;
      }
      end := i;
    }
    return Some((s[begin..end], s[i..]));
  }

  // --- fields and spans

  lemma {:induction false} FieldsFromCut(a: string, b: string, field: string)
    requires b == "" || Space(b[0])
    ensures FieldsFrom(a + b, field) == FieldsFrom(a, field) + FieldsFrom(b, "")
    decreases |a|
  {
    if a == "" {
      assert a + b == b;
    } else {
      assert (a + b)[0] == a[0] && (a + b)[1..] == a[1..] + b;
      FieldsFromCut(a[1..], b, if Space(a[0]) then "" else field + [a[0]]);
    }
  }

  /** White space adds no field. */
  lemma {:induction false} FieldsOfSpace(a: string, b: string)
    requires forall c :: c in a ==> Space(c)
    ensures Fields(a + b) == Fields(b) && Fields(a) == []
    decreases |a|
  {
    if a == "" {
      assert a + b == b;
    } else {
      assert a[0] in a && (a + b)[0] == a[0] && (a + b)[1..] == a[1..] + b;
      FieldsOfSpace(a[1..], b);
    }
  }

  lemma FieldsOfWord(a: string)
    requires a != "" && forall c :: c in a ==> !Space(c)
    ensures Fields(a) == [a]
  {
    FieldRun(a, "", "");
    assert a + "" == a && "" + a == a;
  }

  /** A word, the white space before it left out, is the first field. */
  lemma FirstWord(s: string, i: nat)
    requires i <= |s|
    ensures var start := SpaceEnd(s, i);
            var end := WordEnd(s, start);
            && Fields(s[i..]) == Fields(s[i..end]) + Fields(s[end..])
            && Fields(s[i..end]) == (if start == end then [] else [s[start..end]])
            && (start == end ==> end == |s|)
  {
    var start := SpaceEnd(s, i);
    var end := WordEnd(s, start);
    FieldsOfSpace(s[i..start], s[start..end]);
    assert s[i..start] + s[start..end] == s[i..end];
    if start < end {
      FieldsOfWord(s[start..end]);
    } else {
      assert s[start..end] == "";
    }
    FieldsFromCut(s[i..end], s[end..], "");
    assert s[i..end] + s[end..] == s[i..];
  }

  /** So many words are so many fields, and the rest of the fields come after;
      there are none such just when there are fewer. */
  lemma {:induction false} WordsAreFields(s: string, i: nat, n: nat)
    requires i <= |s|
    ensures WordsEnd(s, i, n).Some? <==> |Fields(s[i..])| >= n
    ensures WordsEnd(s, i, n).Some? ==>
              var end := WordsEnd(s, i, n).value;
              && Fields(s[i..end]) + Fields(s[end..]) == Fields(s[i..]) && |Fields(s[i..end])| == n
              && (n > 0 ==> end == |s| || Space(s[end]))
    decreases n
  {
    if n == 0 {
      assert s[i..i] == "" && [] + Fields(s[i..]) == Fields(s[i..]);
    } else {
      var start := SpaceEnd(s, i);
      var mid := WordEnd(s, start);
      FirstWord(s, i);
      if start < mid {
        WordsAreFields(s, mid, n - 1);
        if WordsEnd(s, mid, n - 1).Some? {
          var end := WordsEnd(s, mid, n - 1).value;
          SpanFields(s, i, mid, end);
        }
      } else {
        assert s[mid..] == "";
      }
    }
  }

  lemma SpanFields(s: string, i: nat, mid: nat, end: nat)
    requires i <= mid <= end <= |s| && (mid == |s| || Space(s[mid]))
    requires Fields(s[i..]) == Fields(s[i..mid]) + Fields(s[mid..]) && Fields(s[mid..end]) + Fields(s[end..]) == Fields(s[mid..])
    ensures Fields(s[i..end]) == Fields(s[i..mid]) + Fields(s[mid..end])
    ensures Fields(s[i..end]) + Fields(s[end..]) == Fields(s[i..])
  {
    assert s[i..mid] + s[mid..end] == s[i..end];
    FieldsFromCut(s[i..mid], s[mid..end], "");
    assert Fields(s[i..mid]) + Fields(s[mid..end]) + Fields(s[end..]) == Fields(s[i..mid]) + (Fields(s[mid..end]) + Fields(s[end..]));
  }

  lemma TakenFields(s: string, n: nat)
    ensures Taken(s, n).Some? <==> |Fields(s)| >= n
    ensures Taken(s, n).Some? ==>
              var (front, back) := Taken(s, n).value;
              && Fields(front) + Fields(back) == Fields(s) && |Fields(front)| == n
              && (n > 0 ==> back == "" || Space(back[0])) && Ends(s, back)
  {
    var begin := SpaceEnd(s, 0);
    FieldsOfSpace(s[..begin], s[begin..]);
    assert s[..begin] + s[begin..] == s;
    WordsAreFields(s, begin, n);
  }

  // --- a line

  function Lower(c: char): char {
    if 'A' <= c <= 'Z' then c - 'A' + 'a' else c
  }

  function Lowered(s: string): (r: string)
    ensures |r| == |s| && forall i :: 0 <= i < |s| ==> r[i] == Lower(s[i])
  {
    if s == "" then "" else [Lower(s[0])] + Lowered(s[1..])
  }

  predicate Shortcut(schedule: string) {
    Lowered(schedule) in SHORTCUTS
  }

  /** How many fields a line's schedule has. */
  function ScheduleFields(line: string): nat {
    if line != "" && line[0] == '@' then 1 else 5
  }

  datatype Split = Split(job: Job, user: Option<string>)

  /** A line's schedule, user and command, or that it is no job's. */
  function SplitOf(line: string, system: bool): Option<Split> {
    match Taken(line, ScheduleFields(line))
    case None => None
    case Some((schedule, rest)) =>
      if ScheduleFields(line) == 1 && !Shortcut(schedule) then None else After(schedule, rest, system)
  }

  /** What comes after a schedule: in a system's crontab a user, then a command. */
  function After(schedule: string, rest: string, system: bool): Option<Split> {
    if !system then Commanded(schedule, None, rest)
    else
      match Taken(rest, 1)
      case None => None
      case Some((user, more)) => Commanded(schedule, Some(user), more)
  }

  function Commanded(schedule: string, user: Option<string>, rest: string): Option<Split> {
    var command := rest[SpaceEnd(rest, 0)..];
    if command == "" then None else Some(Split(Job(schedule, command), user))
  }

  method SplitJob(line: string, system: bool) returns (r: Option<Split>)
    ensures r == SplitOf(line, system)
  {
    var taken := TakeFields(line, ScheduleFields(line));
    if taken.None? {
      return None;
    }
    var (schedule, rest) := taken.value;
    if ScheduleFields(line) == 1 && !Shortcut(schedule) {
      return None;
    }
    var user := None;
    if system {
      var named := TakeFields(rest, 1);
      if named.None? {
        return None;
      }
      user, rest := Some(named.value.0), named.value.1;
    }
    var start := PastSpace(rest, 0);
    return if start == |rest| then None else Some(Split(Job(schedule, rest[start..]), user));
  }

  function UserFields(system: bool): nat {
    if system then 1 else 0
  }

  /** Whether a line begins with an `@` that is no shortcut. */
  predicate Stray(line: string) {
    ScheduleFields(line) == 1 && !(Fields(line) != [] && Shortcut(Fields(line)[0]))
  }

  lemma CommandedIs(schedule: string, user: Option<string>, rest: string)
    ensures Commanded(schedule, user, rest).Some? <==> Fields(rest) != []
    ensures Commanded(schedule, user, rest).Some? ==>
              var s := Commanded(schedule, user, rest).value;
              && s.job.schedule == schedule && s.user == user && Fields(s.job.command) == Fields(rest)
              && Bare(s.job.command) && Ends(rest, s.job.command)
  {
    var start := SpaceEnd(rest, 0);
    FirstWord(rest, 0);
    FieldsOfSpace(rest[..start], rest[start..]);
    assert rest[..start] + rest[start..] == rest && rest[0..] == rest;
  }

  lemma UserField(s: string)
    requires Taken(s, 1).Some?
    ensures Fields(Taken(s, 1).value.0) == [Taken(s, 1).value.0]
  {
    var begin := SpaceEnd(s, 0);
    var end := WordEnd(s, begin);
    assert SpaceEnd(s, begin) == begin && WordsEnd(s, begin, 1) == Some(end);
    FieldsOfWord(s[begin..end]);
  }

  predicate Ends(a: string, b: string) {
    |b| <= |a| && b == a[|a| - |b|..]
  }

  lemma EndsEnds(a: string, b: string, c: string)
    requires Ends(a, b) && Ends(b, c)
    ensures Ends(a, c)
  {
    assert b[|b| - |c|..] == a[|a| - |c|..];
  }

  /** A command as a split gives it: some text with no white space before it. */
  predicate Bare(command: string) {
    command != "" && !Space(command[0])
  }

  lemma AfterIs(schedule: string, rest: string, system: bool)
    ensures After(schedule, rest, system).Some? <==> |Fields(rest)| > UserFields(system)
    ensures After(schedule, rest, system).Some? ==>
              var s := After(schedule, rest, system).value;
              && s.job.schedule == schedule && s.user.Some? == system && Bare(s.job.command) && Ends(rest, s.job.command)
              && Fields(rest) == (if system then [s.user.value] else []) + Fields(s.job.command)
  {
    hide Fields, Taken, Commanded;
    if system {
      TakenFields(rest, 1);
      if Taken(rest, 1).Some? {
        var (user, more) := Taken(rest, 1).value;
        UserField(rest);
        CommandedIs(schedule, Some(user), more);
        if Fields(more) != [] {
          EndsEnds(rest, more, Commanded(schedule, Some(user), more).value.job.command);
        }
      }
    } else {
      CommandedIs(schedule, None, rest);
      assert [] + Fields(rest) == Fields(rest);
    }
  }

  /** A line is a job just when it has a field more than its schedule and user
      take, and no stray `@`; its fields are then those of the schedule, the
      user and those of the command, which is the end of the line as it stands. */
  lemma SplitIs(line: string, system: bool)
    ensures SplitOf(line, system).Some? <==> |Fields(line)| > ScheduleFields(line) + UserFields(system) && !Stray(line)
    ensures SplitOf(line, system).Some? ==>
              var s := SplitOf(line, system).value;
              && Fields(line) == Fields(s.job.schedule) + (if system then [s.user.value] else []) + Fields(s.job.command)
              && |Fields(s.job.schedule)| == ScheduleFields(line) && s.user.Some? == system
              && Bare(s.job.command) && Ends(line, s.job.command)
  {
    hide Fields, Taken, After, Shortcut, Bare;
    var n := ScheduleFields(line);
    TakenFields(line, n);
    if Taken(line, n).Some? {
      var (schedule, rest) := Taken(line, n).value;
      if n == 1 {
        UserField(line);
        assert Fields(line)[0] == schedule;
      }
      AfterIs(schedule, rest, system);
      if After(schedule, rest, system).Some? {
        var s := After(schedule, rest, system).value;
        EndsEnds(line, rest, s.job.command);
        var user := if system then [s.user.value] else [];
        assert Fields(schedule) + (user + Fields(s.job.command)) == Fields(schedule) + user + Fields(s.job.command);
      }
    }
  }

  /** The text without the white space around it. */
  function Trimmed(s: string): string
    decreases |s|
  {
    if s == "" then ""
    else if Space(s[0]) then Trimmed(s[1..])
    else if Space(s[|s| - 1]) then Trimmed(s[..|s| - 1])
    else s
  }

  function NameEnd(s: string, i: nat): (j: nat)
    requires i <= |s|
    ensures i <= j <= |s|
    decreases |s| - i
  {
    if i < |s| && !Space(s[i]) && s[i] != '=' then NameEnd(s, i + 1) else i
  }

  /** A line's name and value, if it is an assignment: the name ends at white
      space or at the `=` that must come next. */
  function Assigned(s: string): Option<(string, string)> {
    var i := NameEnd(s, 0);
    var j := SpaceEnd(s, i);
    if i > 0 && j < |s| && s[j] == '=' then Some((s[..i], s[SpaceEnd(s, j + 1)..])) else None
  }

  method Assignment(s: string) returns (r: Option<(string, string)>)
    ensures r == Assigned(s)
  {
    var i := 0;
    while i < |s| && !Space(s[i]) && s[i] != '='
      invariant i <= |s| && NameEnd(s, i) == NameEnd(s, 0)
    {
      i := i + 1;
    }
    if i == 0 {
      return None;
    }
    var j := PastSpace(s, i);
    if j == |s| || s[j] != '=' {
      return None;
    }
    var from := PastSpace(s, j + 1);
    return Some((s[..i], s[from..]));
  }

  // --- a file

  /** The job a line is: a line that is no job, but no blank, comment or
      assignment either, is told of all the same, as a job without a schedule. */
  function JobOf(line: string, system: bool): Option<Job> {
    var t := Trimmed(line);
    if t == "" || t[0] == '#' || Assigned(t).Some? then None
    else
      match SplitOf(t, system)
      case Some(s) => Some(s.job)
      case None => Some(Job("", t))
  }

  function JobsOf(lines: seq<string>, system: bool): seq<Job> {
    if lines == [] then []
    else
      var job := JobOf(lines[|lines| - 1], system);
      JobsOf(lines[..|lines| - 1], system) + if job.Some? then [job.value] else []
  }

  /** As the lines are read: each in turn, with a counter for each name. */
  method NameLines(lines: seq<string>, system: bool, hash: string -> string) returns (names: seq<string>)
    ensures names == Names(JobNames(hash, JobsOf(lines, system)))
  {
    names := [];
    var used: map<string, nat> := map[];
    var i := 0;
    while i < |lines|
      invariant i <= |lines| && names == Names(JobNames(hash, JobsOf(lines[..i], system)))
      invariant Counted(used, JobNames(hash, JobsOf(lines[..i], system)))
    {
      hide JobOf, JobName, Names, Count, Tagged;
      assert lines[..i + 1][..i] == lines[..i];
      ghost var before := JobsOf(lines[..i], system);
      var job := ReadLine(lines[i], system);
      i := i + 1;
      if job.None? {
        assert before + [] == before;
        continue;
      }
      var base := JobName(hash, job.value);
      assert (before + [job.value])[..|before|] == before;
      used, names := Numbered(used, names, JobNames(hash, before), base);
    }
    assert lines[..i] == lines;
  }

  ghost predicate Counted(used: map<string, nat>, bases: seq<string>) {
    forall b :: Count(bases, b) == if b in used then used[b] else 0
  }

  method Numbered(used: map<string, nat>, names: seq<string>, ghost bases: seq<string>, base: string)
    returns (counts: map<string, nat>, more: seq<string>)
    requires Counted(used, bases) && names == Names(bases)
    ensures Counted(counts, bases + [base]) && more == Names(bases + [base])
  {
    assert (bases + [base])[..|bases|] == bases;
    var n := (if base in used then used[base] else 0) + 1;
    counts := used[base := n];
    more := names + [Tagged(base, n)];
  }

  method ReadLine(line: string, system: bool) returns (r: Option<Job>)
    ensures r == JobOf(line, system)
  {
    var t := Trimmed(line);
    if t == "" || t[0] == '#' {
      return None;
    }
    var value := Assignment(t);
    if value.Some? {
      return None;
    }
    var split := SplitJob(t, system);
    return Some(if split.Some? then split.value.job else Job("", t));
  }

  lemma {:induction false} JobsConcat(a: seq<string>, b: seq<string>, system: bool)
    ensures JobsOf(a + b, system) == JobsOf(a, system) + JobsOf(b, system)
    decreases |b|
  {
    hide JobOf;
    if b == [] {
      assert a + b == a;
    } else {
      assert (a + b)[..|a + b| - 1] == a + b[..|b| - 1];
      JobsConcat(a, b[..|b| - 1], system);
    }
  }

  /** A blank, a comment or an assignment put in anywhere changes no name. */
  lemma IgnoredLine(hash: string -> string, front: seq<string>, line: string, back: seq<string>, system: bool)
    requires JobOf(line, system).None?
    ensures Names(JobNames(hash, JobsOf(front + [line] + back, system))) == Names(JobNames(hash, JobsOf(front + back, system)))
  {
    hide JobOf, Names, JobNames;
    JobsConcat(front + [line], back, system);
    JobsConcat(front, [line], system);
    JobsConcat(front, back, system);
    assert [line][..0] == [] && JobsOf([line], system) == [];
    assert JobsOf(front, system) + [] == JobsOf(front, system);
  }

  lemma {:induction false} JobsAnyOrder(a: seq<string>, b: seq<string>, system: bool)
    requires multiset(a) == multiset(b)
    ensures multiset(FactsOf(JobsOf(a, system))) == multiset(FactsOf(JobsOf(b, system)))
    decreases |a|
  {
    hide JobsOf, FactsOf;
    Shuffles.Lengths(a, b);
    if a != [] {
      var init, x := a[..|a| - 1], a[|a| - 1];
      assert a == init + [x];
      var k := Shuffles.Picked(init, x, b);
      JobsAnyOrder(init, b[..k] + b[k + 1..], system);
      LineMoved(init, x, b[..k], b[k + 1..], system);
    }
  }

  lemma LineMoved(init: seq<string>, x: string, front: seq<string>, back: seq<string>, system: bool)
    requires multiset(FactsOf(JobsOf(init, system))) == multiset(FactsOf(JobsOf(front + back, system)))
    ensures multiset(FactsOf(JobsOf(init + [x], system))) == multiset(FactsOf(JobsOf(front + [x] + back, system)))
  {
    hide JobsOf, FactsOf;
    JobsConcat(init, [x], system);
    JobsConcat(front + [x], back, system);
    JobsConcat(front, [x], system);
    JobsConcat(front, back, system);
    var i, f, l, r := JobsOf(init, system), JobsOf(front, system), JobsOf([x], system), JobsOf(back, system);
    FactsConcat(i, l);
    FactsConcat(f + l, r);
    FactsConcat(f, l);
    FactsConcat(f, r);
  }

  lemma {:induction false} FactsConcat(a: seq<Job>, b: seq<Job>)
    ensures FactsOf(a + b) == FactsOf(a) + FactsOf(b)
    decreases |b|
  {
    if b == [] {
      assert a + b == a;
    } else {
      assert (a + b)[..|a + b| - 1] == a + b[..|b| - 1];
      FactsConcat(a, b[..|b| - 1]);
    }
  }

  /** The names of a crontab's lines are pairwise distinct, and as a set the same
      in whatever order the lines stand. */
  lemma LinesAnyOrder(hash: string -> string, a: seq<string>, b: seq<string>, system: bool)
    requires Dashless(hash) && multiset(a) == multiset(b)
    ensures Distinct(Names(JobNames(hash, JobsOf(a, system))))
    ensures forall name :: name in Names(JobNames(hash, JobsOf(a, system))) <==> name in Names(JobNames(hash, JobsOf(b, system)))
  {
    hide JobsOf, Names, JobNames, FactsOf;
    JobsAnyOrder(a, b, system);
    CrontabNames(hash, JobsOf(a, system), JobsOf(b, system));
  }

  lemma {:induction false} TrimmedIs(s: string)
    ensures var t := Trimmed(s); t == "" || (!Space(t[0]) && !Space(t[|t| - 1]))
    decreases |s|
  {
    if s != "" {
      if Space(s[0]) {
        TrimmedIs(s[1..]);
      } else if Space(s[|s| - 1]) {
        TrimmedIs(s[..|s| - 1]);
      }
    }
  }

  lemma FirstChar(s: string)
    requires s != "" && !Space(s[0])
    ensures Fields(s) != [] && Fields(s)[0] != "" && Fields(s)[0][0] == s[0]
  {
    FirstWord(s, 0);
    assert s[0..] == s;
  }

  // --- lines with the same fields

  /** Trimming takes no field away. */
  lemma {:induction false} TrimmedFields(s: string)
    ensures Fields(Trimmed(s)) == Fields(s)
    decreases |s|
  {
    if s != "" {
      if Space(s[0]) {
        TrimmedFields(s[1..]);
      } else if Space(s[|s| - 1]) {
        var init, last := s[..|s| - 1], s[|s| - 1..];
        TrimmedFields(init);
        FieldsFromCut(init, last, "");
        FieldsOfSpace(last, "");
        assert init + last == s;
      }
    }
  }

  /** Whether a line with such fields assigns: a name, and an `=` in the first
      field behind it or at the front of the second. */
  predicate Assigns(fields: seq<string>) {
    && fields != [] && fields[0] != "" && fields[0][0] != '='
    && ('=' in fields[0] || (|fields| > 1 && fields[1] != "" && fields[1][0] == '='))
  }

  lemma {:induction false} NameEndIs(s: string, i: nat, w: nat)
    requires i <= w <= |s| && (forall k :: i <= k < w ==> !Space(s[k])) && (w < |s| ==> Space(s[w]))
    ensures '=' in s[i..w] ==> i <= NameEnd(s, i) < w && s[NameEnd(s, i)] == '='
    ensures '=' !in s[i..w] ==> NameEnd(s, i) == w
    decreases w - i
  {
    if i < w {
      assert s[i..w] == [s[i]] + s[i + 1..w];
      if s[i] != '=' {
        NameEndIs(s, i + 1, w);
      }
    }
  }

  /** The fields alone decide whether a trimmed line is an assignment. */
  lemma AssignedIs(s: string)
    requires s == "" || !Space(s[0])
    ensures Assigned(s).Some? <==> Assigns(Fields(s))
  {
    if s != "" {
      var w := WordEnd(s, 0);
      FirstWord(s, 0);
      assert s[0..] == s && s[0..w] == s[..w];
      NameEndIs(s, 0, w);
      SecondWord(s, w);
      hide Fields;
    }
  }

  /** What stands first after the white space behind a word. */
  lemma SecondWord(s: string, w: nat)
    requires w <= |s| && (w < |s| ==> Space(s[w]))
    ensures var j := SpaceEnd(s, w);
            if j < |s| then Fields(s[w..]) != [] && Fields(s[w..])[0] != "" && Fields(s[w..])[0][0] == s[j] else Fields(s[w..]) == []
  {
    FirstWord(s, w);
    var j := SpaceEnd(s, w);
    if j == |s| {
      assert s[w..] == s[w..WordEnd(s, j)] && s[|s|..] == "";
    }
    hide Fields;
  }

  /** With the same fields, both lines are jobs or neither is, and of the same schedule. */
  lemma SplitsAlike(a: string, b: string, system: bool)
    requires a != "" && b != "" && !Space(a[0]) && !Space(b[0]) && Fields(a) == Fields(b)
    ensures SplitOf(a, system).Some? <==> SplitOf(b, system).Some?
    ensures SplitOf(a, system).Some? ==>
              Fields(SplitOf(a, system).value.job.schedule) == Fields(SplitOf(b, system).value.job.schedule)
  {
    hide *;
    SplitIs(a, system);
    SplitIs(b, system);
    ScheduleAlike(a, b);
    if SplitOf(a, system).Some? {
      var s, t := SplitOf(a, system).value, SplitOf(b, system).value;
      Front(Fields(a), Fields(s.job.schedule), if system then [s.user.value] else [], Fields(s.job.command));
      Front(Fields(b), Fields(t.job.schedule), if system then [t.user.value] else [], Fields(t.job.command));
    }
  }

  lemma ScheduleAlike(a: string, b: string)
    requires a != "" && b != "" && !Space(a[0]) && !Space(b[0]) && Fields(a) == Fields(b)
    ensures ScheduleFields(a) == ScheduleFields(b) && (Stray(a) <==> Stray(b))
  {
    FirstChar(a);
    FirstChar(b);
    hide Fields, Shortcut;
  }

  lemma Front<T>(all: seq<T>, a: seq<T>, b: seq<T>, c: seq<T>)
    requires all == a + b + c
    ensures |a| <= |all| && all[..|a|] == a
  {
  }

  /** Lines with the same fields, whatever white space is around and between
      them, are passed over alike and split alike; and if they are jobs with the
      same command they are the same job. */
  lemma SpacingIsNothing(hash: string -> string, x: string, y: string, system: bool)
    requires Fields(x) == Fields(y)
    ensures JobOf(x, system).Some? <==> JobOf(y, system).Some?
    ensures SplitOf(Trimmed(x), system).Some? <==> SplitOf(Trimmed(y), system).Some?
    ensures JobOf(x, system).Some? && SplitOf(Trimmed(x), system).Some? && JobOf(x, system).value.command == JobOf(y, system).value.command ==>
              && SameJob(JobOf(x, system).value, JobOf(y, system).value)
              && JobName(hash, JobOf(x, system).value) == JobName(hash, JobOf(y, system).value)
  {
    var a, b := Trimmed(x), Trimmed(y);
    TrimmedIs(x);
    TrimmedIs(y);
    TrimmedFields(x);
    TrimmedFields(y);
    AssignedIs(a);
    AssignedIs(b);
    if a != "" {
      FirstChar(a);
    }
    if b != "" {
      FirstChar(b);
    }
    if a != "" && b != "" {
      SplitsAlike(a, b, system);
    }
    hide Trimmed, Assigned, SplitOf, Assigns;
  }
}
