/** A list of words written as one command line, and what a shell makes of its
    quotes and backslashes (sections 2.2.1 and 2.2.2 of POSIX.1-2017, XCU). */
module ShellWords {
  import opened Results

  // --- writing

  /** Each quote leaves the quoted text, is written bare, and goes back in. */
  function Escaped(s: string): string {
    if s == "" then "" else (if s[0] == '\'' then "'\\''" else [s[0]]) + Escaped(s[1..])
  }

  function Quoted(s: string): string {
    "'" + Escaped(s) + "'"
  }

  function Shellified(args: seq<string>): string {
    if args == [] then ""
    else if |args| == 1 then Quoted(args[0])
    else Quoted(args[0]) + " " + Shellified(args[1..])
  }

  /** As the program writes it: replaced, quoted, joined. */
  method Shellify(args: seq<string>) returns (r: string)
    ensures r == Shellified(args)
  {
    r := "";
    var i := |args|;
    while i > 0
      invariant 0 <= i <= |args| && r == Shellified(args[i..])
    {
      i := i - 1;
      assert args[i..][1..] == args[i + 1..] && args[i..][0] == args[i];
      var quoted := Quote(args[i]);
      r := if i + 1 == |args| then quoted else quoted + " " + r;
    }
    assert args[0..] == args;
  }

  method Quote(s: string) returns (r: string)
    ensures r == Quoted(s)
  {
    r := "";
    var i := 0;
    assert s[0..] == s && "" + Escaped(s) == Escaped(s);
    while i < |s|
      invariant i <= |s| && r + Escaped(s[i..]) == Escaped(s)
    {
      var c := if s[i] == '\'' then "'\\''" else [s[i]];
      EscapedFrom(s, i, r, c);
      r := r + c;
      i := i + 1;
    }
    assert s[i..] == "" && r + "" == r;
    r := "'" + r + "'";
  }

  lemma EscapedFrom(s: string, i: nat, r: string, c: string)
    requires i < |s| && c == if s[i] == '\'' then "'\\''" else [s[i]]
    ensures r + Escaped(s[i..]) == r + c + Escaped(s[i + 1..])
  {
    assert s[i..][1..] == s[i + 1..] && s[i..][0] == s[i];
    var rest := Escaped(s[i + 1..]);
    assert Escaped(s[i..]) == c + rest;
    hide Escaped;
    assert r + (c + rest) == r + c + rest;
  }

  // --- reading

  predicate Blank(c: char) {
    c == ' ' || c == '\t' || c == '\n'
  }

  /** Characters that mean something else to the shell when bare. */
  predicate Special(c: char) {
    c in "|&;<>()$`\"*?[#~=%"
  }

  /** The words of a command line, `word` being what the current one has so far,
      if there is one; nothing for what is more than plain, quoted or escaped
      text, or a quote with no end. */
  function Words(s: string, word: Option<string>, inQuotes: bool): Option<seq<string>>
    requires inQuotes ==> word.Some?
    decreases |s|
  {
    if s == "" then (if inQuotes then None else Some(if word.Some? then [word.value] else []))
    else
      var c := s[0];
      var soFar := if word.Some? then word.value else "";
      if inQuotes then
        if c == '\'' then Words(s[1..], word, false) else Words(s[1..], Some(soFar + [c]), true)
      else if c == '\'' then Words(s[1..], Some(soFar), true)
      else if c == '\\' then
        if |s| == 1 then None
        else if s[1] == '\n' then Words(s[2..], word, false)
        else Words(s[2..], Some(soFar + [s[1]]), false)
      else if Blank(c) then
        match Words(s[1..], None, false)
        case None => None
        case Some(rest) => Some((if word.Some? then [word.value] else []) + rest)
      else if Special(c) then None
      else Words(s[1..], Some(soFar + [c]), false)
  }

  // --- what is written is read back

  lemma {:induction false} QuotedRun(s: string, rest: string, before: string)
    ensures Words(Escaped(s) + "'" + rest, Some(before), true) == Words(rest, Some(before + s), false)
    decreases |s|
  {
    var text := Escaped(s) + "'" + rest;
    if s == "" {
      assert text == "'" + rest && text[1..] == rest;
      assert before + s == before;
    } else {
      var more := Escaped(s[1..]) + "'" + rest;
      assert before + [s[0]] + s[1..] == before + s;
      QuotedRun(s[1..], rest, before + [s[0]]);
      if s[0] == '\'' {
        assert text == "'\\''" + more;
        QuoteSteps(more, before);
      } else {
        assert text == [s[0]] + more && text[1..] == more;
      }
    }
  }

  /** Out of the quotes, an escaped quote, and in again. */
  lemma QuoteSteps(more: string, before: string)
    ensures Words("'\\''" + more, Some(before), true) == Words(more, Some(before + "'"), true)
  {
    var text := "'\\''" + more;
    assert text[1..] == "\\''" + more;
    assert ("\\''" + more)[2..] == "'" + more;
    assert ("'" + more)[1..] == more;
    assert Words("'" + more, Some(before + "'"), false) == Words(more, Some(before + "'"), true);
    assert Words("\\''" + more, Some(before), false) == Words("'" + more, Some(before + "'"), false);
  }

  lemma QuotedWord(s: string, rest: string)
    ensures Words(Quoted(s) + rest, None, false) == Words(rest, Some(s), false)
  {
    var text := Quoted(s) + rest;
    assert text[1..] == Escaped(s) + "'" + rest;
    QuotedRun(s, rest, "");
    assert "" + s == s;
  }

  /** A blank ends a word. */
  lemma BlankEnds(word: string, more: string)
    ensures Words(" " + more, Some(word), false) ==
            match Words(more, None, false)
            case None => None
            case Some(rest) => Some([word] + rest)
  {
    assert (" " + more)[1..] == more;
  }

  lemma NothingLeft(word: string)
    ensures Words("", Some(word), false) == Some([word]) && Words("", None, false) == Some([])
  {
  }

  lemma ShellifiedFirst(args: seq<string>)
    requires |args| > 1
    ensures Shellified(args) == Quoted(args[0]) + (" " + Shellified(args[1..]))
  {
    hide Quoted;
    var q, more := Quoted(args[0]), Shellified(args[1..]);
    assert q + " " + more == q + (" " + more);
  }

  /** Any list of words whatever, empty ones and ones with quotes, blanks and
      newlines among them, is read back as it was. */
  lemma {:induction false} ShellifyReadsBack(args: seq<string>)
    ensures Words(Shellified(args), None, false) == Some(args)
    decreases |args|
  {
    hide Words, Quoted;
    NothingLeft("");
    if |args| == 1 {
      assert Quoted(args[0]) + "" == Quoted(args[0]);
      QuotedWord(args[0], "");
      NothingLeft(args[0]);
      assert args == [args[0]];
    } else if |args| > 1 {
      ShellifiedFirst(args);
      hide Shellified;
      var more := Shellified(args[1..]);
      QuotedWord(args[0], " " + more);
      BlankEnds(args[0], more);
      ShellifyReadsBack(args[1..]);
      assert [args[0]] + args[1..] == args;
    }
  }
}
