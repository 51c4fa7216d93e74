/** Names of cron jobs, made of what a job is and not of where its line sits. */
module CronNames {
  import opened Framing
  import Shuffles

  predicate Space(c: char) {
    c == ' ' || c == '\t' || c == '\n' || c == '\U{000c}' || c == '\r'
  }

  // --- schedule fields

  /** The fields between runs of white space, the last of them still open. */
  function FieldsFrom(s: string, field: string): seq<string>
    decreases |s|
  {
    if s == "" then (if field == "" then [] else [field])
    else if Space(s[0]) then (if field == "" then [] else [field]) + FieldsFrom(s[1..], "")
    else FieldsFrom(s[1..], field + [s[0]])
  }

  function Fields(s: string): seq<string> {
    FieldsFrom(s, "")
  }

  function Joined(fields: seq<string>): string {
    if fields == [] then ""
    else if |fields| == 1 then fields[0]
    else fields[0] + " " + Joined(fields[1..])
  }

  /** Fields one space apart. */
  function Normal(s: string): string {
    Joined(Fields(s))
  }

  predicate Solid(fields: seq<string>) {
    forall i :: 0 <= i < |fields| ==> fields[i] != "" && forall c :: c in fields[i] ==> !Space(c)
  }

  lemma {:induction false} FieldsSolid(s: string, field: string)
    requires forall c :: c in field ==> !Space(c)
    ensures Solid(FieldsFrom(s, field))
    decreases |s|
  {
    if s != "" {
      if Space(s[0]) {
        FieldsSolid(s[1..], "");
      } else {
        FieldsSolid(s[1..], field + [s[0]]);
      }
    }
  }

  lemma {:induction false} FieldRun(s: string, rest: string, field: string)
    requires forall c :: c in s ==> !Space(c)
    ensures FieldsFrom(s + rest, field) == FieldsFrom(rest, field + s)
    decreases |s|
  {
    if s == "" {
      assert s + rest == rest && field + s == field;
    } else {
      assert (s + rest)[1..] == s[1..] + rest && (s + rest)[0] == s[0];
      assert s[0] in s;
      FieldRun(s[1..], rest, field + [s[0]]);
      assert field + [s[0]] + s[1..] == field + s;
    }
  }

  lemma {:induction false} JoinedFields(fields: seq<string>)
    requires Solid(fields)
    ensures Fields(Joined(fields)) == fields
  {
    if fields != [] {
      var f := fields[0];
      assert "" + f == f;
      if |fields| == 1 {
        FieldRun(f, "", "");
        assert f + "" == f && fields == [f];
      } else {
        var more := Joined(fields[1..]);
        FieldRun(f, " " + more, "");
        assert f + " " + more == f + (" " + more) && (" " + more)[1..] == more;
        assert forall i :: 0 <= i < |fields[1..]| ==> fields[1..][i] == fields[i + 1];
        JoinedFields(fields[1..]);
        assert [f] + fields[1..] == fields;
      }
    }
  }

  /** As the program joins them. */
  method NormaliseWs(s: string) returns (out: string)
    ensures out == Normal(s)
  {
    out := "";
    var done: seq<string> := [];
    var field := "";
    var i := 0;
    assert s[0..] == s;
    while i < |s|
      invariant i <= |s| && done + FieldsFrom(s[i..], field) == Fields(s)
      invariant Solid(done) && (forall c :: c in field ==> !Space(c)) && out == Joined(done)
    {
      assert s[i..][1..] == s[i + 1..];
      if Space(s[i]) {
        if field != "" {
          assert done + ([field] + FieldsFrom(s[i + 1..], "")) == done + [field] + FieldsFrom(s[i + 1..], "");
          out := OneMore(done, out, field);
          done := done + [field];
          field := "";
        }
      } else {
        field := field + [s[i]];
      }
      i := i + 1;
    }
    assert s[i..] == "";
    if field != "" {
      out := OneMore(done, out, field);
      done := done + [field];
    }
    assert done == Fields(s);
  }

  method OneMore(done: seq<string>, out: string, field: string) returns (more: string)
    requires out == Joined(done) && Solid(done)
    ensures more == Joined(done + [field])
  {
    JoinedMore(done, field);
    JoinedEmpty(done);
    return if out != "" then out + " " + field else field;
  }

  lemma JoinedEmpty(fields: seq<string>)
    requires Solid(fields)
    ensures Joined(fields) == "" <==> fields == []
  {
    if fields != [] {
      assert fields[0] != "";
    }
  }

  lemma {:induction false} JoinedMore(fields: seq<string>, field: string)
    ensures Joined(fields + [field]) == if fields == [] then field else Joined(fields) + " " + field
  {
    if fields == [] {
      assert fields + [field] == [field];
    } else {
      assert (fields + [field])[1..] == fields[1..] + [field] && (fields + [field])[0] == fields[0];
      JoinedMore(fields[1..], field);
      if |fields| > 1 {
        assert fields[0] + " " + (Joined(fields[1..]) + " " + field) == fields[0] + " " + Joined(fields[1..]) + " " + field;
      } else {
        assert fields[1..] == [];
      }
    }
  }

  // --- a job's name

  datatype Job = Job(schedule: string, command: string)

  ghost predicate Injective(hash: string -> string) {
    forall a, b :: hash(a) == hash(b) ==> a == b
  }

  /** Hexadecimal digits: no dash in them. */
  ghost predicate Dashless(hash: string -> string) {
    forall a :: '-' !in hash(a)
  }

  function JobName(hash: string -> string, j: Job): string {
    hash(Frame([Normal(j.schedule), j.command]))
  }

  predicate SameJob(a: Job, b: Job) {
    Fields(a.schedule) == Fields(b.schedule) && a.command == b.command
  }

  /** Two jobs have one name just when their schedules have the same fields,
      however they are spaced, and their commands are the same. */
  lemma NameIsTheJob(hash: string -> string, a: Job, b: Job)
    requires Injective(hash)
    requires Sayable([Normal(a.schedule), a.command]) && Sayable([Normal(b.schedule), b.command])
    ensures JobName(hash, a) == JobName(hash, b) <==> SameJob(a, b)
  {
    if JobName(hash, a) == JobName(hash, b) {
      FrameInjective([Normal(a.schedule), a.command], [Normal(b.schedule), b.command]);
      assert [Normal(a.schedule), a.command][0] == [Normal(b.schedule), b.command][0];
      assert [Normal(a.schedule), a.command][1] == [Normal(b.schedule), b.command][1];
      FieldsSolid(a.schedule, "");
      FieldsSolid(b.schedule, "");
      JoinedFields(Fields(a.schedule));
      JoinedFields(Fields(b.schedule));
    }
  }

  // --- the names of a file's jobs

  function Tagged(base: string, n: nat): string {
    if n == 1 then base else base + "-" + Decimal(n)
  }

  /** How many of some names are this one. */
  function Count(bases: seq<string>, base: string): nat {
    if bases == [] then 0 else Count(bases[..|bases| - 1], base) + if bases[|bases| - 1] == base then 1 else 0
  }

  function Names(bases: seq<string>): seq<string> {
    if bases == [] then []
    else Names(bases[..|bases| - 1]) + [Tagged(bases[|bases| - 1], Count(bases, bases[|bases| - 1]))]
  }

  /** As the lines are read: a counter for each name. */
  method UniqueNames(bases: seq<string>) returns (names: seq<string>)
    ensures names == Names(bases)
  {
    names := [];
    var used: map<string, nat> := map[];
    var i := 0;
    while i < |bases|
      invariant i <= |bases| && names == Names(bases[..i])
      invariant forall b :: Count(bases[..i], b) == if b in used then used[b] else 0
    {
      assert bases[..i + 1][..i] == bases[..i];
      var base := bases[i];
      var n := (if base in used then used[base] else 0) + 1;
      used := used[base := n];
      names := names + [Tagged(base, n)];
      i := i + 1;
    }
    assert bases[..i] == bases;
  }

  predicate Plain(bases: seq<string>) {
    forall b :: b in bases ==> '-' !in b
  }

  function FirstDash(s: string): (i: nat)
    ensures i <= |s|
  {
    if s == "" || s[0] == '-' then 0 else 1 + FirstDash(s[1..])
  }

  lemma {:induction false} DashPlace(a: string, rest: string)
    requires '-' !in a && (rest == "" || rest[0] == '-')
    ensures FirstDash(a + rest) == |a|
  {
    if a == "" {
      assert a + rest == rest;
    } else {
      assert (a + rest)[1..] == a[1..] + rest && a[0] in a;
      DashPlace(a[1..], rest);
    }
  }

  lemma TaggedInjective(a: string, m: nat, b: string, n: nat)
    requires '-' !in a && '-' !in b && m >= 1 && n >= 1 && Tagged(a, m) == Tagged(b, n)
    ensures a == b && m == n
  {
    TaggedDash(a, m);
    TaggedDash(b, n);
    var x, y := Tagged(a, m), Tagged(b, n);
    assert a == x[..|a|] && b == y[..|b|];
    if m != 1 {
      assert x[|a| + 1..] == Decimal(m) && y[|b| + 1..] == Decimal(n);
      DecimalInjective(m, n);
    }
  }

  /** A name's job ends at its first dash, and has a number only if it has one. */
  lemma TaggedDash(a: string, n: nat)
    requires '-' !in a
    ensures FirstDash(Tagged(a, n)) == |a| && (n == 1 <==> |Tagged(a, n)| == |a|)
  {
    if n == 1 {
      DashPlace(a, "");
      assert a + "" == a;
    } else {
      DashPlace(a, "-" + Decimal(n));
      assert a + "-" + Decimal(n) == a + ("-" + Decimal(n));
    }
  }

  /** The names of a file are its jobs' names, each with every number up to how
      often the job is there. */
  lemma {:induction false} NamesAre(bases: seq<string>, name: string)
    ensures name in Names(bases) <==> exists b, n: nat :: 1 <= n <= Count(bases, b) && name == Tagged(b, n)
  {
    if bases != [] {
      var init, last := bases[..|bases| - 1], bases[|bases| - 1];
      NamesAre(init, name);
      var k := Count(bases, last);
      if name in Names(bases) {
        if name == Tagged(last, k) {
          assert 1 <= k <= Count(bases, last);
        } else {
          var b, n: nat :| 1 <= n <= Count(init, b) && name == Tagged(b, n);
          assert 1 <= n <= Count(bases, b);
        }
      }
      if exists b, n: nat :: 1 <= n <= Count(bases, b) && name == Tagged(b, n) {
        var b, n: nat :| 1 <= n <= Count(bases, b) && name == Tagged(b, n);
        if b == last && n == k {
          assert name == Tagged(last, k);
        } else {
          assert 1 <= n <= Count(init, b);
        }
      }
    }
  }

  lemma {:induction false} CountIsMultiplicity(bases: seq<string>, b: string)
    ensures Count(bases, b) == multiset(bases)[b]
  {
    if bases != [] {
      var init, last := bases[..|bases| - 1], bases[|bases| - 1];
      assert bases == init + [last];
      assert multiset(bases) == multiset(init) + multiset{last};
      CountIsMultiplicity(init, b);
    }
  }

  predicate Distinct(names: seq<string>) {
    forall i, j :: 0 <= i < j < |names| ==> names[i] != names[j]
  }

  /** No two lines of a file have one name, identical lines included. */
  lemma {:induction false} NamesDistinct(bases: seq<string>)
    requires Plain(bases)
    ensures Distinct(Names(bases))
  {
    if bases != [] {
      var init, last := bases[..|bases| - 1], bases[|bases| - 1];
      assert bases == init + [last];
      assert forall b :: b in init ==> b in bases;
      NamesDistinct(init);
      NewName(init, last);
    }
  }

  /** The name a further line gets is not among those before it. */
  lemma NewName(init: seq<string>, last: string)
    requires Plain(init + [last])
    ensures Tagged(last, Count(init, last) + 1) !in Names(init)
  {
    var name := Tagged(last, Count(init, last) + 1);
    NamesAre(init, name);
    if name in Names(init) {
      var b, n: nat :| 1 <= n <= Count(init, b) && name == Tagged(b, n);
      CountedIsThere(init, b);
      assert last in init + [last] && b in init + [last];
      TaggedInjective(last, Count(init, last) + 1, b, n);
      assert false;
    }
  }

  lemma {:induction false} CountedIsThere(bases: seq<string>, b: string)
    ensures Count(bases, b) > 0 ==> b in bases
  {
    if bases != [] {
      CountedIsThere(bases[..|bases| - 1], b);
      assert bases == bases[..|bases| - 1] + [bases[|bases| - 1]];
    }
  }

  /** As a set the names do not depend on the order of the lines. */
  lemma NamesAnyOrder(a: seq<string>, b: seq<string>)
    requires multiset(a) == multiset(b)
    ensures forall name :: name in Names(a) <==> name in Names(b)
  {
    forall base ensures Count(a, base) == Count(b, base) {
      CountIsMultiplicity(a, base);
      CountIsMultiplicity(b, base);
    }
    forall name ensures name in Names(a) <==> name in Names(b) {
      NamesAre(a, name);
      NamesAre(b, name);
    }
  }

  /** A line added anywhere adds one name and changes none. */
  lemma LineAdded(before: seq<string>, line: string, after: seq<string>)
    requires Plain(before + [line] + after)
    ensures var old_, new_ := Names(before + after), Names(before + [line] + after);
            var name := Tagged(line, Count(before + after, line) + 1);
            && name !in old_
            && forall n :: n in new_ <==> n in old_ || n == name
  {
    var was := before + after;
    var moved := was + [line];
    assert moved[..|was|] == was;
    assert multiset(before + [line] + after) == multiset(moved);
    NamesAnyOrder(before + [line] + after, moved);
    assert forall b :: b in moved ==> b in before + [line] + after;
    NewName(was, line);
  }

  // --- a whole crontab

  /** What a job is: its schedule's fields and its command. */
  datatype Fact = Fact(fields: seq<string>, command: string)

  function FactsOf(jobs: seq<Job>): (facts: seq<Fact>)
    ensures |facts| == |jobs|
  {
    if jobs == [] then [] else FactsOf(jobs[..|jobs| - 1]) + [Fact(Fields(jobs[|jobs| - 1].schedule), jobs[|jobs| - 1].command)]
  }

  function FactName(hash: string -> string, f: Fact): string {
    hash(Frame([Joined(f.fields), f.command]))
  }

  function FactNames(hash: string -> string, facts: seq<Fact>): seq<string> {
    if facts == [] then [] else FactNames(hash, facts[..|facts| - 1]) + [FactName(hash, facts[|facts| - 1])]
  }

  function JobNames(hash: string -> string, jobs: seq<Job>): seq<string> {
    if jobs == [] then [] else JobNames(hash, jobs[..|jobs| - 1]) + [JobName(hash, jobs[|jobs| - 1])]
  }

  lemma {:induction false} NamesOfFacts(hash: string -> string, jobs: seq<Job>)
    ensures JobNames(hash, jobs) == FactNames(hash, FactsOf(jobs))
  {
    if jobs != [] {
      NamesOfFacts(hash, jobs[..|jobs| - 1]);
      var facts := FactsOf(jobs);
      assert facts[..|facts| - 1] == FactsOf(jobs[..|jobs| - 1]);
    }
  }

  lemma {:induction false} FactNamesConcat(hash: string -> string, a: seq<Fact>, b: seq<Fact>)
    ensures FactNames(hash, a + b) == FactNames(hash, a) + FactNames(hash, b)
    decreases |b|
  {
    if b == [] {
      assert a + b == a;
    } else {
      assert (a + b)[..|a + b| - 1] == a + b[..|b| - 1];
      FactNamesConcat(hash, a, b[..|b| - 1]);
    }
  }

  lemma OneFact(hash: string -> string, f: Fact)
    ensures FactNames(hash, [f]) == [FactName(hash, f)]
  {
    assert [f][..0] == [];
  }

  /** The same facts in another order have the same names, each as often. */
  lemma {:induction false} FactNamesAnyOrder(hash: string -> string, a: seq<Fact>, b: seq<Fact>)
    requires multiset(a) == multiset(b)
    ensures multiset(FactNames(hash, a)) == multiset(FactNames(hash, b))
    decreases |a|
  {
    hide FactNames, FactName;
    Shuffles.Lengths(a, b);
    if a != [] {
      var init, x := a[..|a| - 1], a[|a| - 1];
      assert a == init + [x];
      var k := Shuffles.Picked(init, x, b);
      FactNamesAnyOrder(hash, init, b[..k] + b[k + 1..]);
      FactMoved(hash, init, x, b[..k], b[k + 1..]);
    }
  }

  lemma FactMoved(hash: string -> string, init: seq<Fact>, x: Fact, front: seq<Fact>, back: seq<Fact>)
    requires multiset(FactNames(hash, init)) == multiset(FactNames(hash, front + back))
    ensures multiset(FactNames(hash, init + [x])) == multiset(FactNames(hash, front + [x] + back))
  {
    hide FactNames, FactName;
    OneFact(hash, x);
    FactNamesConcat(hash, init, [x]);
    FactNamesConcat(hash, front + [x], back);
    FactNamesConcat(hash, front, [x]);
    FactNamesConcat(hash, front, back);
  }

  lemma {:induction false} FactNamesPlain(hash: string -> string, facts: seq<Fact>)
    requires Dashless(hash)
    ensures Plain(FactNames(hash, facts))
  {
    hide FactName;
    if facts != [] {
      FactNamesPlain(hash, facts[..|facts| - 1]);
      PlainName(hash, facts[|facts| - 1]);
    }
  }

  lemma PlainName(hash: string -> string, f: Fact)
    requires Dashless(hash)
    ensures '-' !in FactName(hash, f)
  {
  }

  /** The names of a crontab's jobs are pairwise distinct, and as a set the same
      for any order of its lines and any spacing of their schedules. */
  lemma CrontabNames(hash: string -> string, a: seq<Job>, b: seq<Job>)
    requires Dashless(hash) && multiset(FactsOf(a)) == multiset(FactsOf(b))
    ensures Distinct(Names(JobNames(hash, a)))
    ensures forall name :: name in Names(JobNames(hash, a)) <==> name in Names(JobNames(hash, b))
  {
    hide Names, FactNames, JobNames;
    NamesOfFacts(hash, a);
    NamesOfFacts(hash, b);
    FactNamesPlain(hash, FactsOf(a));
    NamesDistinct(FactNames(hash, FactsOf(a)));
    FactNamesAnyOrder(hash, FactsOf(a), FactsOf(b));
    NamesAnyOrder(FactNames(hash, FactsOf(a)), FactNames(hash, FactsOf(b)));
  }
}
