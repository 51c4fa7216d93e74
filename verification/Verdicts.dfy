/** Verdicts on files, and the words a record stores them as. */
module Verdicts {
  import opened Results

  datatype Integrity = Intact | Modified | ModeModified | ConffileModified | UnknownIntegrity

  datatype Producer = Snapd | SystemdGenerator | SystemdTransient | SystemctlSetProperty | CloudInit | Apk | SystemdPreset | DpkgPostinst

  datatype Verdict =
    | Unpackaged
    | Directory(package: string)
    | Packaged(package: string, integrity: Integrity)
    | Generated(producer: Producer)
    | Reproduced(maker: string)
    | Unknown
    | Unanswered
    | AbsentGuarded(guard: string)
    | Other(text: string)

  function IntegrityText(i: Integrity): string {
    match i
    case Intact => "intact"
    case Modified => "modified"
    case ModeModified => "mode-modified"
    case ConffileModified => "conffile-modified"
    case UnknownIntegrity => "unknown"
  }

  function ParseIntegrity(s: string): Option<Integrity> {
    if s == "intact" then Some(Intact)
    else if s == "modified" then Some(Modified)
    else if s == "mode-modified" then Some(ModeModified)
    else if s == "conffile-modified" then Some(ConffileModified)
    else if s == "unknown" then Some(UnknownIntegrity)
    else None
  }

  function ProducerText(p: Producer): string {
    match p
    case Snapd => "snapd"
    case SystemdGenerator => "systemd-generator"
    case SystemdTransient => "systemd-transient"
    case SystemctlSetProperty => "systemctl-set-property"
    case CloudInit => "cloud-init"
    case Apk => "apk"
    case SystemdPreset => "systemd-preset"
    case DpkgPostinst => "dpkg-postinst"
  }

  function ParseProducer(s: string): Option<Producer> {
    if s == "snapd" then Some(Snapd)
    else if s == "systemd-generator" then Some(SystemdGenerator)
    else if s == "systemd-transient" then Some(SystemdTransient)
    else if s == "systemctl-set-property" then Some(SystemctlSetProperty)
    else if s == "cloud-init" then Some(CloudInit)
    else if s == "apk" then Some(Apk)
    else if s == "systemd-preset" then Some(SystemdPreset)
    else if s == "dpkg-postinst" then Some(DpkgPostinst)
    else None
  }

  /** Fit to be quiet. */
  predicate Verified(v: Verdict) {
    v.Directory? || v.Reproduced? || v.AbsentGuarded? || (v.Packaged? && v.integrity == Intact)
  }

  const ABSENT := "absent, guarded by "
  const GENERATED := "generated by "
  const REPRODUCED := "reproduced by "
  const INTACT_END := " (intact)"
  const OPEN := " ("

  function Words(v: Verdict): string {
    match v
    case Unpackaged => "unpackaged"
    case Directory(p) => p + OPEN + "directory" + ")"
    case Packaged(p, i) => p + OPEN + IntegrityText(i) + ")"
    case Generated(who) => GENERATED + ProducerText(who)
    case Reproduced(who) => REPRODUCED + who + INTACT_END
    case Unknown => "unknown"
    case Unanswered => "unanswered"
    case AbsentGuarded(who) => ABSENT + who
    case Other(words) => words
  }

  predicate EndsWith(s: string, end: string) {
    |end| <= |s| && s[|s| - |end|..] == end
  }

  predicate OpenAt(s: string, i: int) {
    0 <= i < |s| - 1 && s[i] == ' ' && s[i + 1] == '('
  }

  /** The place of the last ` (`, or nothing. */
  function LastOpen(s: string): (i: Option<nat>)
    ensures i.Some? ==> OpenAt(s, i.value) && forall j :: i.value < j ==> !OpenAt(s, j)
    ensures i.None? ==> forall j :: !OpenAt(s, j)
    decreases |s|
  {
    if |s| < 2 then None
    else if OpenAt(s, |s| - 2) then Some(|s| - 2)
    else
      var init := s[..|s| - 1];
      assert forall j {:trigger OpenAt(s, j)} :: OpenAt(s, j) ==> OpenAt(init, j) || j == |s| - 2;
      assert forall j {:trigger OpenAt(init, j)} :: OpenAt(init, j) ==> OpenAt(s, j);
      LastOpen(init)
  }

  /** The verdict of the form `package (integrity)`, if the words have it. */
  function PackageVerdict(words: string): Option<Verdict> {
    match LastOpen(words)
    case None => None
    case Some(i) =>
      var rest := words[i + 2..];
      if !EndsWith(rest, ")") then None
      else
        var inner := rest[..|rest| - 1];
        if inner == "directory" then Some(Directory(words[..i]))
        else match ParseIntegrity(inner)
          case None => None
          case Some(integrity) => Some(Packaged(words[..i], integrity))
  }

  function ReproducedVerdict(words: string): (v: Option<Verdict>)
    ensures v.Some? ==> v.value.Reproduced?
  {
    if REPRODUCED <= words && EndsWith(words[|REPRODUCED|..], INTACT_END) then
      var rest := words[|REPRODUCED|..];
      Some(Reproduced(rest[..|rest| - |INTACT_END|]))
    else None
  }

  function FromWords(words: string): Verdict {
    if words == "unpackaged" then Unpackaged
    else if words == "unknown" then Unknown
    else if words == "unanswered" then Unanswered
    else if ABSENT <= words then AbsentGuarded(words[|ABSENT|..])
    else if GENERATED <= words && ParseProducer(words[|GENERATED|..]).Some? then Generated(ParseProducer(words[|GENERATED|..]).value)
    else if ReproducedVerdict(words).Some? then ReproducedVerdict(words).value
    else if PackageVerdict(words).Some? then PackageVerdict(words).value
    else Other(words)
  }

  // --- words read are words written

  lemma ParsedIntegrity(s: string)
    ensures ParseIntegrity(s).Some? ==> IntegrityText(ParseIntegrity(s).value) == s
  {
  }

  lemma ParsedProducer(s: string)
    ensures ParseProducer(s).Some? ==> ProducerText(ParseProducer(s).value) == s
  {
  }

  lemma PackageWords(words: string)
    ensures PackageVerdict(words).Some? ==> Words(PackageVerdict(words).value) == words
  {
    if PackageVerdict(words).Some? {
      var i := LastOpen(words).value;
      var rest := words[i + 2..];
      var inner := rest[..|rest| - 1];
      ParsedIntegrity(inner);
      assert rest == inner + ")";
      assert words[i..i + 2] == OPEN;
      assert words == words[..i] + words[i..i + 2] + rest;
      assert words[..i] + OPEN + inner + ")" == words[..i] + OPEN + (inner + ")");
    }
  }

  lemma ReproducedWords(words: string)
    ensures ReproducedVerdict(words).Some? ==> Words(ReproducedVerdict(words).value) == words
  {
    if ReproducedVerdict(words).Some? {
      var rest := words[|REPRODUCED|..];
      assert words == REPRODUCED + rest;
      assert rest == rest[..|rest| - |INTACT_END|] + INTACT_END;
      assert REPRODUCED + rest[..|rest| - |INTACT_END|] + INTACT_END == REPRODUCED + (rest[..|rest| - |INTACT_END|] + INTACT_END);
    }
  }

  /** Whatever words a record holds, the verdict read from them is written as
      those words again. */
  lemma WordsKept(words: string)
    ensures Words(FromWords(words)) == words
  {
    hide PackageVerdict, ReproducedVerdict, ParseProducer, ProducerText;
    PackageWords(words);
    ReproducedWords(words);
    if ABSENT <= words {
      assert words == ABSENT + words[|ABSENT|..];
    }
    if GENERATED <= words {
      ParsedProducer(words[|GENERATED|..]);
      assert words == GENERATED + words[|GENERATED|..];
    }
  }

  // --- verdicts written are verdicts read

  /** The words of a package's verdict end as they were put together. */
  lemma PackageRead(p: string, inner: string)
    requires inner == "directory" || ParseIntegrity(inner).Some?
    ensures var words := p + OPEN + inner + ")";
            && PackageVerdict(words).Some?
            && PackageVerdict(words).value == if inner == "directory" then Directory(p) else Packaged(p, ParseIntegrity(inner).value)
  {
    var words := p + OPEN + inner + ")";
    OpenPlace(p, inner);
    assert words[..|p|] == p && words[|p| + 2..] == inner + ")";
    assert (inner + ")")[..|inner + ")"| - 1] == inner;
    hide LastOpen, ParseIntegrity;
  }

  lemma OpenPlace(p: string, inner: string)
    requires inner == "directory" || ParseIntegrity(inner).Some?
    ensures LastOpen(p + OPEN + inner + ")") == Some(|p|)
  {
    NoBlank(inner);
    assert (p + OPEN)[|p|] == ' ' && (p + OPEN)[|p| + 1] == '(' && |p + OPEN| == |p| + 2;
    hide ParseIntegrity;
    NoOpenAfter(p + OPEN, inner + ")");
    assert p + OPEN + inner + ")" == (p + OPEN) + (inner + ")");
    assert OpenAt(p + OPEN, |p|);
  }

  lemma {:induction false} NoOpenAfter(s: string, tail: string)
    requires s != "" && s[|s| - 1] != ' ' && forall i :: 0 <= i < |tail| ==> tail[i] != ' '
    ensures LastOpen(s + tail) == LastOpen(s)
    decreases |tail|
  {
    var all := s + tail;
    if tail == "" {
      assert all == s;
    } else {
      var init := tail[..|tail| - 1];
      assert all[..|all| - 1] == s + init;
      assert init != "" ==> all[|all| - 2] == init[|init| - 1] == tail[|tail| - 2];
      assert init == "" ==> all[|all| - 2] == s[|s| - 1];
      NoOpenAfter(s, init);
    }
  }

  lemma NoBlank(inner: string)
    requires inner == "directory" || ParseIntegrity(inner).Some?
    ensures forall i :: 0 <= i < |inner + ")"| ==> (inner + ")")[i] != ' '
  {
  }

  lemma IntegrityRead(i: Integrity)
    ensures ParseIntegrity(IntegrityText(i)) == Some(i) && IntegrityText(i) != "directory"
  {
  }

  /** Every verdict of a file comes back from its words, but one: a package whose
      name begins like another verdict's words. */
  lemma VerdictRead(v: Verdict)
    requires !v.Other?
    ensures FromWords(Words(v)) == v <==>
              match v
              case Directory(p) => !(ABSENT <= p + OPEN)
              case Packaged(p, i) => !(ABSENT <= p + OPEN) && !(i == Intact && REPRODUCED <= p)
              case _ => true
  {
    match v {
      case Directory(p) =>
        DirectoryRead(p);
        hide FromWords, Words;
      case Packaged(p, i) =>
        PackagedRead(p, i);
        hide FromWords, Words;
      case Reproduced(who) =>
        ReproducedRead(who);
        hide FromWords, Words;
      case Generated(who) =>
        GeneratedRead(who);
        hide FromWords, Words;
      case AbsentGuarded(who) =>
        var words := ABSENT + who;
        assert words[|ABSENT|..] == who && words[0] == 'a';
        hide PackageVerdict, ReproducedVerdict, ParseProducer;
      case _ => hide PackageVerdict, ReproducedVerdict, ParseProducer;
    }
  }

  lemma GeneratedRead(who: Producer)
    ensures FromWords(Words(Generated(who))) == Generated(who)
  {
    hide PackageVerdict, ReproducedVerdict;
    var words := GENERATED + ProducerText(who);
    assert words[|GENERATED|..] == ProducerText(who) && words[0] == 'g';
  }

  lemma ReproducedRead(who: string)
    ensures FromWords(Words(Reproduced(who))) == Reproduced(who)
  {
    var words := Words(Reproduced(who));
    assert words[|REPRODUCED|..] == who + INTACT_END;
    assert words[0] == 'r';
    assert (who + INTACT_END)[..|who|] == who;
  }

  /** The front of a package's words, up to where they open a bracket. */
  lemma PackageFront(p: string, inner: string, front: string)
    requires '(' !in front
    ensures front <= p + OPEN + inner + ")" <==> front <= p + OPEN
  {
    var words := p + OPEN + inner + ")";
    assert words == (p + OPEN) + (inner + ")");
    assert words[|p| + 1] == '(' == (p + OPEN)[|p| + 1];
    if |front| > |p| + 1 {
      assert front[|p| + 1] in front;
    } else {
      assert words[..|front|] == (p + OPEN)[..|front|];
    }
  }

  lemma PlainWords(p: string, inner: string)
    ensures var words := p + OPEN + inner + ")";
            && words != "unpackaged" && words != "unknown" && words != "unanswered"
            && (GENERATED <= words ==> ParseProducer(words[|GENERATED|..]).None?)
  {
    var words := p + OPEN + inner + ")";
    assert words[|words| - 1] == ')';
    if GENERATED <= words {
      assert words[|GENERATED| - 1] == ' ' && |words| > |GENERATED|;
      var rest := words[|GENERATED|..];
      assert rest[|rest| - 1] == words[|words| - 1] == ')';
    }
  }

  lemma DirectoryRead(p: string)
    ensures FromWords(Words(Directory(p))) == Directory(p) <==> !(ABSENT <= p + OPEN)
  {
    hide PackageVerdict, ParseProducer;
    var words := Words(Directory(p));
    PlainWords(p, "directory");
    PackageFront(p, "directory", ABSENT);
    PackageRead(p, "directory");
    assert words[|words| - 2] == 'y' && INTACT_END[|INTACT_END| - 2] == 't';
    NotReproduced(words);
  }

  lemma NotReproduced(words: string)
    requires |words| >= 2 && words[|words| - 2] != 't'
    ensures ReproducedVerdict(words).None?
  {
    if REPRODUCED <= words && |words| >= |REPRODUCED| + |INTACT_END| {
      var rest := words[|REPRODUCED|..];
      assert rest[|rest| - |INTACT_END|..][|INTACT_END| - 2] == words[|words| - 2];
    }
  }

  lemma PackagedRead(p: string, i: Integrity)
    ensures FromWords(Words(Packaged(p, i))) == Packaged(p, i) <==>
              !(ABSENT <= p + OPEN) && !(i == Intact && REPRODUCED <= p)
  {
    hide PackageVerdict, ParseProducer, ParseIntegrity, ReproducedVerdict;
    var words := Words(Packaged(p, i));
    PlainWords(p, IntegrityText(i));
    PackageFront(p, IntegrityText(i), ABSENT);
    IntegrityRead(i);
    PackageRead(p, IntegrityText(i));
    IntactRead(p, i);
  }

  /** Only a package said to be intact can read as reproduced. */
  lemma IntactRead(p: string, i: Integrity)
    ensures ReproducedVerdict(Words(Packaged(p, i))).Some? <==> i == Intact && REPRODUCED <= p
  {
    var words := Words(Packaged(p, i));
    if i == Intact {
      assert words == p + INTACT_END;
      if |words| >= |REPRODUCED| + |INTACT_END| {
        var rest := words[|REPRODUCED|..];
        assert rest[|rest| - |INTACT_END|..] == INTACT_END;
        assert words[..|REPRODUCED|] == p[..|REPRODUCED|];
      }
    } else {
      assert words == p + OPEN + IntegrityText(i) + ")";
      assert words[|words| - 2] == IntegrityText(i)[|IntegrityText(i)| - 1];
      NotReproduced(words);
    }
  }

  /** Without a space in a package's name nothing that needs looking at is ever
      read back as fit to be quiet, or the other way round. */
  lemma VerifiedKept(v: Verdict)
    requires v.Packaged? || v.Directory? ==> ' ' !in v.package
    requires !v.Other?
    ensures FromWords(Words(v)) == v
  {
    VerdictRead(v);
    if v.Packaged? || v.Directory? {
      NoSpaceNoFront(v.package);
    }
  }

  lemma NoSpaceNoFront(p: string)
    requires ' ' !in p
    ensures !(ABSENT <= p + OPEN) && !(REPRODUCED <= p)
  {
    if |p| > 10 {
      assert p[7] in p && p[10] in p;
      assert (p + OPEN)[7] == p[7];
    } else if |p| > 7 {
      assert p[7] in p;
      assert (p + OPEN)[7] == p[7];
    } else if |p| == 7 {
      assert (p + OPEN)[8] == '(';
    }
  }

  /** With one, a package that is modified can read as absent behind a guard. */
  lemma NameThatHides()
    ensures !Verified(Packaged("absent, guarded by x", Modified))
    ensures Verified(FromWords(Words(Packaged("absent, guarded by x", Modified))))
  {
    var words := Words(Packaged("absent, guarded by x", Modified));
    assert words[..|ABSENT|] == ABSENT;
    assert words[0] == 'a' && |words| > 20;
  }
}
