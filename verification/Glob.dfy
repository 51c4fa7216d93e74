/** Shell-style matching with `*` and `?` (section 2.13 of POSIX.1-2017, XCU) by
    a loop that remembers only the last star, against the definition. */
module Glob {
  import opened Results

  /** What a pattern matches. */
  predicate Matches(p: string, s: string)
    decreases |p| + |s|
  {
    if p == "" then s == ""
    else if p[0] == '*' then Matches(p[1..], s) || (s != "" && Matches(p, s[1..]))
    else s != "" && (p[0] == '?' || p[0] == s[0]) && Matches(p[1..], s[1..])
  }

  /** A star seen, and where in the string it was last taken to end. */
  datatype Mark = Mark(star: nat, at: nat)

  predicate Steps(pat: string, s: string, p: nat, i: nat) {
    p < |pat| && i < |s| && (pat[p] == '?' || pat[p] == s[i])
  }

  predicate OnStar(pat: string, p: nat) {
    p < |pat| && pat[p] == '*'
  }

  predicate AllStars(pat: string, p: nat)
    requires p <= |pat|
  {
    forall j :: p <= j < |pat| ==> pat[j] == '*'
  }

  predicate MarkOk(pat: string, s: string, p: nat, i: nat, mark: Option<Mark>) {
    && p <= |pat| && i <= |s|
    && (mark.Some? ==> mark.value.star < p && OnStar(pat, mark.value.star) && mark.value.at <= i)
  }

  function MarkAt(mark: Option<Mark>): nat {
    if mark.Some? then mark.value.at else 0
  }

  /** The loop's answer from one of its states. */
  predicate Loop(pat: string, s: string, p: nat, i: nat, mark: Option<Mark>)
    requires MarkOk(pat, s, p, i, mark)
    decreases |s| - MarkAt(mark), |s| - i + |pat| - p
  {
    if i == |s| then AllStars(pat, p)
    else if Steps(pat, s, p, i) then Loop(pat, s, p + 1, i + 1, mark)
    else if OnStar(pat, p) then Loop(pat, s, p + 1, i, Some(Mark(p, i)))
    else if mark.Some? then Loop(pat, s, mark.value.star + 1, mark.value.at + 1, Some(Mark(mark.value.star, mark.value.at + 1)))
    else false
  }

  predicate Globs(pat: string, s: string) {
    Loop(pat, s, 0, 0, None)
  }

  method GlobMatch(pat: string, s: string) returns (r: bool)
    ensures r == Globs(pat, s)
  {
    var p: nat, i: nat := 0, 0;
    var mark: Option<Mark> := None;
    while i < |s|
      invariant MarkOk(pat, s, p, i, mark) && Loop(pat, s, p, i, mark) == Globs(pat, s)
      decreases |s| - MarkAt(mark), |s| - i + |pat| - p
    {
      if p < |pat| && (pat[p] == '?' || pat[p] == s[i]) {
        p, i := p + 1, i + 1;
      } else if p < |pat| && pat[p] == '*' {
        mark := Some(Mark(p, i));
        p := p + 1;
      } else if mark.Some? {
        p, i := mark.value.star + 1, mark.value.at + 1;
        mark := Some(Mark(mark.value.star, i));
      } else {
        return false;
      }
    }
    while p < |pat| && pat[p] == '*'
      invariant p <= |pat| && AllStars(pat, p) == Globs(pat, s)
    {
      p := p + 1;
    }
    return p == |pat|;
  }

  // --- what it says yes to matches

  lemma {:induction false} StarsMatchNothing(pat: string, p: nat)
    requires p <= |pat|
    ensures AllStars(pat, p) <==> Matches(pat[p..], "")
    decreases |pat| - p
  {
    if p < |pat| {
      assert pat[p..][1..] == pat[p + 1..];
      StarsMatchNothing(pat, p + 1);
    }
  }

  lemma Tails(pat: string, s: string, p: nat, i: nat)
    requires p < |pat| && i < |s|
    ensures pat[p..][0] == pat[p] && pat[p..][1..] == pat[p + 1..] && s[i..][0] == s[i] && s[i..][1..] == s[i + 1..]
  {
  }

  lemma {:induction false} LoopSound(pat: string, s: string, p: nat, i: nat, mark: Option<Mark>)
    requires MarkOk(pat, s, p, i, mark) && Loop(pat, s, p, i, mark)
    ensures Matches(pat[p..], s[i..]) || (mark.Some? && mark.value.at < |s| && Matches(pat[mark.value.star..], s[mark.value.at + 1..]))
    decreases |s| - MarkAt(mark), |s| - i + |pat| - p
  {
    hide Matches;
    if i == |s| {
      StarsMatchNothing(pat, p);
      assert s[i..] == "";
    } else if Steps(pat, s, p, i) {
      Tails(pat, s, p, i);
      LoopSound(pat, s, p + 1, i + 1, mark);
      StepMatches(pat[p..], s[i..]);
    } else if OnStar(pat, p) {
      Tails(pat, s, p, i);
      LoopSound(pat, s, p + 1, i, Some(Mark(p, i)));
      StarMatches(pat[p..], s[i..]);
    } else {
      var star, at := mark.value.star, mark.value.at;
      LoopSound(pat, s, star + 1, at + 1, Some(Mark(star, at + 1)));
      assert pat[star..][1..] == pat[star + 1..];
      if at + 1 < |s| {
        assert s[at + 1..][1..] == s[at + 2..];
      }
      StarMatches(pat[star..], s[at + 1..]);
    }
  }

  lemma StepMatches(p: string, s: string)
    requires p != "" && s != "" && (p[0] == '?' || p[0] == s[0])
    ensures Matches(p[1..], s[1..]) ==> Matches(p, s)
    ensures p[0] != '*' ==> (Matches(p, s) <==> Matches(p[1..], s[1..]))
  {
    if p[0] == '*' {
      assert Matches(p[1..], s[1..]) ==> Matches(p, s[1..]);
    }
  }

  lemma StarMatches(p: string, s: string)
    requires p != "" && p[0] == '*'
    ensures Matches(p, s) <==> Matches(p[1..], s) || (s != "" && Matches(p, s[1..]))
  {
  }

  /** Whatever the pattern and the string, a yes is right. */
  lemma GlobSound(pat: string, s: string)
    ensures Globs(pat, s) ==> Matches(pat, s)
  {
    if Globs(pat, s) {
      LoopSound(pat, s, 0, 0, None);
      assert pat[0..] == pat && s[0..] == s;
    }
  }

  // --- and to everything that does, where the string has no star

  predicate StarFree(pat: string, from: nat, to: nat) {
    from <= to <= |pat| && forall j :: from <= j < to ==> pat[j] != '*'
  }

  /** A run of the pattern without a star takes at least its length. */
  lemma {:induction false} RunTakes(pat: string, s: string, p: nat, q: nat)
    requires StarFree(pat, p, q) && Matches(pat[p..], s)
    ensures q - p <= |s| && Matches(pat[q..], s[q - p..])
    decreases q - p
  {
    if p < q {
      assert pat[p..][1..] == pat[p + 1..];
      RunTakes(pat, s[1..], p + 1, q);
      assert s[1..][q - p - 1..] == s[q - p..];
    }
  }

  /** So does a star and the run after it, wherever the star ends. */
  lemma {:induction false} StarRunTakes(pat: string, s: string, star: nat, q: nat) returns (k: nat)
    requires OnStar(pat, star) && StarFree(pat, star + 1, q) && Matches(pat[star..], s)
    ensures q - star - 1 <= k <= |s| && Matches(pat[q..], s[k..])
    decreases |s|
  {
    assert pat[star..][1..] == pat[star + 1..];
    if Matches(pat[star + 1..], s) {
      RunTakes(pat, s, star + 1, q);
      k := q - star - 1;
    } else {
      k := StarRunTakes(pat, s[1..], star, q);
      assert s[1..][k..] == s[k + 1..];
      k := k + 1;
    }
  }

  /** A pattern that begins with a star matches more of the string if it
      matches less. */
  lemma {:induction false} StarAbsorbs(p: string, s: string, k: nat)
    requires p != "" && p[0] == '*' && k <= |s| && Matches(p, s[k..])
    ensures Matches(p, s)
    decreases k
  {
    if k > 0 {
      assert s[1..][k - 1..] == s[k..];
      StarAbsorbs(p, s[1..], k - 1);
    } else {
      assert s[0..] == s;
    }
  }

  /** What is remembered: the last star, and no star since. */
  predicate Aligned(pat: string, p: nat, i: nat, mark: Option<Mark>) {
    mark.Some? ==> StarFree(pat, mark.value.star + 1, p) && p - mark.value.star - 1 == i - mark.value.at
  }

  lemma {:induction false} LoopComplete(pat: string, s: string, p: nat, i: nat, mark: Option<Mark>)
    requires '*' !in s || '*' !in pat
    requires MarkOk(pat, s, p, i, mark) && Aligned(pat, p, i, mark)
    requires Matches(pat[p..], s[i..]) || (mark.Some? && mark.value.at < |s| && Matches(pat[mark.value.star..], s[mark.value.at + 1..]))
    ensures Loop(pat, s, p, i, mark)
    decreases |s| - MarkAt(mark), |s| - i + |pat| - p
  {
    hide Matches;
    if i == |s| {
      if !Matches(pat[p..], s[i..]) {
        var k := StarRunTakes(pat, s[mark.value.at + 1..], mark.value.star, p);
        assert false;
      }
      assert s[i..] == "";
      StarsMatchNothing(pat, p);
    } else if Steps(pat, s, p, i) {
      assert s[i] in s && pat[p] in pat;
      Tails(pat, s, p, i);
      StepMatches(pat[p..], s[i..]);
      LoopComplete(pat, s, p + 1, i + 1, mark);
    } else if OnStar(pat, p) {
      NewStar(pat, s, p, i, mark);
      LoopComplete(pat, s, p + 1, i, Some(Mark(p, i)));
    } else {
      NoStep(pat, s, p, i);
      var star, at := mark.value.star, mark.value.at;
      assert pat[star..][1..] == pat[star + 1..];
      if at + 1 < |s| {
        assert s[at + 1..][1..] == s[at + 2..];
      }
      StarMatches(pat[star..], s[at + 1..]);
      LoopComplete(pat, s, star + 1, at + 1, Some(Mark(star, at + 1)));
    }
  }

  /** At a new star the ones before can be forgotten: wherever they would have
      to end, this one can begin here. */
  lemma NewStar(pat: string, s: string, p: nat, i: nat, mark: Option<Mark>)
    requires MarkOk(pat, s, p, i, mark) && Aligned(pat, p, i, mark) && OnStar(pat, p) && i < |s|
    requires Matches(pat[p..], s[i..]) || (mark.Some? && mark.value.at < |s| && Matches(pat[mark.value.star..], s[mark.value.at + 1..]))
    ensures Matches(pat[p + 1..], s[i..]) || Matches(pat[p..], s[i + 1..])
  {
    hide Matches;
    Tails(pat, s, p, i);
    if !Matches(pat[p..], s[i..]) {
      var at := mark.value.at;
      var k := StarRunTakes(pat, s[at + 1..], mark.value.star, p);
      assert s[at + 1..][k..] == s[i..][at + 1 + k - i..];
      StarAbsorbs(pat[p..], s[i..], at + 1 + k - i);
    }
    StarMatches(pat[p..], s[i..]);
  }

  lemma NoStep(pat: string, s: string, p: nat, i: nat)
    requires p <= |pat| && i < |s| && !Steps(pat, s, p, i) && !OnStar(pat, p)
    ensures !Matches(pat[p..], s[i..])
  {
  }

  /** Unless a star stands in both the pattern and the string, the loop is the
      definition, though it forgets every star but the last. */
  lemma GlobIsMatching(pat: string, s: string)
    requires '*' !in s || '*' !in pat
    ensures Globs(pat, s) <==> Matches(pat, s)
  {
    GlobSound(pat, s);
    if Matches(pat, s) {
      assert pat[0..] == pat && s[0..] == s;
      LoopComplete(pat, s, 0, 0, None);
    }
  }

  // --- just where the loop is not the definition

  /** Equal characters are taken one by one, stars among them. */
  lemma {:induction false} LiteralRun(pat: string, s: string, p: nat, n: nat)
    requires p <= n <= |pat| && n <= |s| && forall j :: p <= j < n ==> pat[j] == s[j]
    ensures Loop(pat, s, p, p, None) == Loop(pat, s, n, n, None)
    decreases n - p
  {
    if p < n {
      LiteralRun(pat, s, p + 1, n);
    }
  }

  /** A pattern matches any text that begins as it does itself, if the rests match. */
  lemma {:induction false} PrefixMatches(pat: string, s: string, k: nat)
    requires k <= |pat| && k <= |s| && pat[..k] == s[..k]
    requires Matches(pat[k..], s[k..])
    ensures Matches(pat, s)
  {
    if k == 0 {
      assert pat[0..] == pat && s[0..] == s;
    } else {
      assert pat[1..][..k - 1] == pat[..k][1..] == s[..k][1..] == s[1..][..k - 1];
      assert pat[1..][k - 1..] == pat[k..] && s[1..][k - 1..] == s[k..];
      PrefixMatches(pat[1..], s[1..], k - 1);
      assert pat[0] == pat[..k][0] == s[..k][0] == s[0];
      if pat[0] == '*' {
        assert Matches(pat, s[1..]);
      }
    }
  }

  /** A pattern with a star in it, then an `x`, then what follows the star: the
      pattern matches that, and the loop refuses it. */
  lemma PatternMissed(pat: string, k: nat) returns (s: string)
    requires k < |pat| && pat[k] == '*'
    ensures Matches(pat, s) && !Globs(pat, s)
  {
    var b := pat[k + 1..];
    s := pat + ("x" + b);
    LiteralRun(pat, s, 0, |pat|);
    assert !Loop(pat, s, |pat|, |pat|, None);
    assert b[|b|..] == "";
    PrefixMatches(b, b, |b|);
    assert pat[k..][1..] == b;
    assert Matches(pat[k..], b);
    assert s[k..][|pat| - k + 1..] == b;
    StarAbsorbs(pat[k..], s[k..], |pat| - k + 1);
    PrefixMatches(pat, s, k);
  }

  /** A string with a star in it: the string up to there, or all of it and a `?`. */
  lemma StringMissed(s: string, k: nat) returns (pat: string)
    requires k < |s| && s[k] == '*'
    ensures Matches(pat, s) && !Globs(pat, s)
  {
    if k + 1 < |s| {
      pat := s[..k + 1];
      LiteralRun(pat, s, 0, k + 1);
      assert !Loop(pat, s, k + 1, k + 1, None);
      assert pat[k..] == "*" && "*"[1..] == "" && s[k..][|s| - k..] == "";
      assert Matches("*", "");
      StarAbsorbs("*", s[k..], |s| - k);
    } else {
      pat := s + "?";
      LiteralRun(pat, s, 0, |s|);
      assert pat[|s|] == '?';
      assert !Loop(pat, s, |s|, |s|, None);
      assert pat[k..] == "*?" && "*?"[1..] == "?" && "?"[1..] == "" && s[k..] == "*" && "*"[1..] == "";
      assert Matches("?", "*");
    }
    PrefixMatches(pat, s, k);
  }

  /** The loop is the definition for all strings just of patterns with no star,
      and for all patterns just of strings with none. */
  lemma GlobMissesStars(t: string)
    ensures (forall s :: Globs(t, s) <==> Matches(t, s)) <==> '*' !in t
    ensures (forall pat :: Globs(pat, t) <==> Matches(pat, t)) <==> '*' !in t
  {
    if '*' in t {
      var k :| 0 <= k < |t| && t[k] == '*';
      var s := PatternMissed(t, k);
      var pat := StringMissed(t, k);
    } else {
      forall x ensures (Globs(t, x) <==> Matches(t, x)) && (Globs(x, t) <==> Matches(x, t)) {
        GlobIsMatching(t, x);
        GlobIsMatching(x, t);
      }
    }
  }

  /** A pattern's own character is tried before its star, so `*` refuses `*a`. */
  lemma StarMissesStar()
    ensures Matches("*", "*a") && !Globs("*", "*a")
  {
    assert "*"[1..] == "" && "*a"[1..] == "a" && "a"[1..] == "";
    assert Matches("*", "");
    assert Matches("*", "a");
    assert Steps("*", "*a", 0, 0);
    assert !Loop("*", "*a", 1, 1, None);
  }
}
