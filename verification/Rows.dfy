/** Which rows are hidden: the verdicts enrichment puts on an entry, and the
    rule that reads them. */
module Rows {
  import opened Results
  import V = Verdicts

  datatype Kind = SystemdUnit | SystemdTimer | NssModule | Plugin | PkgSource | Inittab | OtherKind(kind: string)

  datatype Flag =
    | Unpackaged | PackagedModified | ConffileModified | TargetMissing | TargetUnresolvable | DegradedEnablement
    | OtherFlag(flag: string)

  datatype Provenance =
    | Packaged(package: string, integrity: V.Integrity)
    | GeneratedBy(producer: V.Producer)
    | Reproduced(maker: string)
    | Unowned
    | Unknown

  /** An entry, in paths inside the scan root. */
  datatype Row = Row(kind: Kind, source: string, name: string, command: Option<string>, targetPath: Option<string>,
                     enabled: string, provenance: Provenance, flags: seq<Flag>, raw: map<string, string>)

  const TARGET_PROVENANCE := "target_provenance"
  const TARGET_UNVERIFIABLE := "target_unverifiable"
  const GUARDED_BY_TEST := "guarded_by_test"
  const GUARDED_BY_CONDITION := "guarded_by_condition"
  const EMPTY_FILE := "empty_file"
  const AFTER_HASH := "after_hash"
  const REGISTRY_GENERATED := "registry_generated"
  const VOUCHED := "vouched"
  const CHANGED_AFTER_INSTALL := "changed_after_install"
  const READ_FROM := "read_from"
  const DIGEST_UNAVAILABLE := "digest_unavailable"
  const DECLARED_BY_ENTRY := "declared_by_entry"

  // --- the rule

  predicate IntactProvenance(p: Provenance) {
    p.Reproduced? || (p.Packaged? && p.integrity == V.Intact)
  }

  function TargetVerdict(r: Row): Option<V.Verdict> {
    if TARGET_PROVENANCE in r.raw then Some(V.FromWords(r.raw[TARGET_PROVENANCE])) else None
  }

  predicate FromPackageDatabase(r: Row) {
    && (READ_FROM in r.raw || DIGEST_UNAVAILABLE in r.raw) && CHANGED_AFTER_INSTALL !in r.raw
    && (r.provenance.Packaged? || r.provenance.GeneratedBy?)
  }

  predicate Derives(p: V.Producer) {
    p.SystemdGenerator? || p.Snapd? || p.SystemdPreset? || p.DpkgPostinst?
  }

  /** Every flag is one of some, or says only that the enablement was inferred. */
  predicate Only(flags: seq<Flag>, some: set<Flag>) {
    forall i :: 0 <= i < |flags| ==> flags[i] == DegradedEnablement || flags[i] in some
  }

  predicate TargetQuiet(r: Row) {
    TargetVerdict(r).None? || V.Verified(TargetVerdict(r).value)
  }

  predicate Suppressed(r: Row) {
    var vendorText := IntactProvenance(r.provenance) || FromPackageDatabase(r);
    var quiet := Only(r.flags, if vendorText then {TargetUnresolvable} else {});
    if EMPTY_FILE in r.raw && Only(r.flags, {Unpackaged}) then true
    else if r.kind == NssModule && !IntactProvenance(r.provenance) then
      Only(r.flags, {Unpackaged}) && TargetQuiet(r) && AFTER_HASH !in r.raw
    else if r.kind == Plugin then
      && (IntactProvenance(r.provenance) || REGISTRY_GENERATED in r.raw)
      && (TargetQuiet(r) || TargetMissing in r.flags)
      && Only(r.flags, {Unpackaged, TargetMissing})
    else if r.kind == PkgSource && VOUCHED in r.raw then Only(r.flags, {Unpackaged, ConffileModified})
    else if r.kind == Inittab && VOUCHED in r.raw then TargetQuiet(r) && Only(r.flags, {Unpackaged})
    else
      var derived := r.provenance.GeneratedBy? && Derives(r.provenance.producer);
      && quiet && TargetQuiet(r) && CHANGED_AFTER_INSTALL !in r.raw
      && (IntactProvenance(r.provenance) || FromPackageDatabase(r) || derived)
  }

  // --- what enrichment knows

  /** The disk as enrichment asks about it: what is there, where a link that is
      not its own end leads, and what the paths lead to. */
  datatype Disk = Disk(present: set<string>, ends: map<string, string>, files: set<string>, directories: set<string>,
                       empty: set<string>, kernel: set<string>)

  type Answers = map<string, Provenance>

  predicate Alphabetic(c: char) {
    'a' <= c <= 'z' || 'A' <= c <= 'Z'
  }

  /** Whether a systemd specifier stands in a path; `%%` is a percent. */
  predicate Specifier(t: string)
    decreases |t|
  {
    if |t| < 2 then false
    else if t[0] != '%' then Specifier(t[1..])
    else if t[1] == '%' then Specifier(t[2..])
    else Alphabetic(t[1]) || Specifier(t[1..])
  }

  function Unverifiable(t: string): Option<string> {
    if Specifier(t) then Some("unexpanded specifier")
    else if '*' in t || '?' in t || ('[' in t && ']' in t) then Some("glob pattern")
    else None
  }

  // --- changes to a row

  function Flagged(r: Row, f: Flag): Row {
    if f in r.flags then r else r.(flags := r.flags + [f])
  }

  function Noted(r: Row, key: string, value: string): Row {
    r.(raw := r.raw[key := value])
  }

  function WithVerdict(r: Row, v: V.Verdict): Row {
    Noted(r, TARGET_PROVENANCE, V.Words(v))
  }

  function GuardOf(r: Row): Option<string> {
    if GUARDED_BY_TEST in r.raw then Some(r.raw[GUARDED_BY_TEST])
    else if GUARDED_BY_CONDITION in r.raw then Some(r.raw[GUARDED_BY_CONDITION])
    else None
  }

  /** What the row runs, as far as it is on the disk. */
  function TargetLooked(disk: Disk, r: Row): Row {
    match r.targetPath
    case None => if r.command.Some? && TARGET_UNVERIFIABLE !in r.raw then Flagged(r, TargetUnresolvable) else r
    case Some(t) =>
      if t in disk.present then r
      else match GuardOf(r)
        case Some(how) => WithVerdict(r, V.AbsentGuarded(how))
        case None => Flagged(r, TargetMissing)
  }

  function AfterTarget(disk: Disk, r: Row): Row {
    if r.targetPath.Some? && Unverifiable(r.targetPath.value).Some? then
      Noted(r, TARGET_UNVERIFIABLE, Unverifiable(r.targetPath.value).value)
    else
      var looked := TargetLooked(disk, r);
      var hashed := if r.targetPath.Some? then r.targetPath.value else r.source;
      if (r.targetPath.None? || r.targetPath.value == r.source) && hashed in disk.empty then Noted(looked, EMPTY_FILE, "true") else looked
  }

  predicate Changed(p: Provenance) {
    p.Packaged? && (p.integrity == V.Modified || p.integrity == V.ModeModified || p.integrity == V.ConffileModified)
  }

  /** A link's verdict is that of the regular file it leads to, unless the link
      itself was changed or there is no answer for its end. */
  function LinkVerdict(disk: Disk, answers: Answers, path: string, verdict: Provenance): Provenance {
    if !Changed(verdict) && path in disk.ends && disk.ends[path] in disk.files && disk.ends[path] in answers
    then answers[disk.ends[path]] else verdict
  }

  function LinkNoted(disk: Disk, answers: Answers, r: Row, path: string, verdict: Provenance, note: string): Row {
    if !Changed(verdict) && path in disk.ends && disk.ends[path] in disk.files && disk.ends[path] in answers
    then Noted(r, note, disk.ends[path]) else r
  }

  predicate Guarded(r: Row) {
    TargetVerdict(r).Some? && TargetVerdict(r).value.AbsentGuarded?
  }

  predicate AboutTarget(disk: Disk, r: Row) {
    DECLARED_BY_ENTRY in r.raw || r.source in disk.kernel
  }

  function Subject(disk: Disk, r: Row): Option<string> {
    if AboutTarget(disk, r) && !Guarded(r) then r.targetPath else None
  }

  /** The path whose verdict is the row's own. */
  function SubjectPath(disk: Disk, r: Row): string {
    if Subject(disk, r).Some? then Subject(disk, r).value else r.source
  }

  function OwnFlag(r: Row, p: Provenance): Row {
    match p
    case Unowned => Flagged(r, Unpackaged)
    case Packaged(_, i) =>
      if i == V.Modified || i == V.ModeModified then Flagged(r, PackagedModified)
      else if i == V.ConffileModified then Flagged(r, ConffileModified)
      else r
    case _ => r
  }

  /** The row's own verdict, where there is an answer for it. */
  function OwnVerdict(disk: Disk, answers: Answers, r: Row, path: string): Row {
    if path !in answers then r
    else
      var about := AboutTarget(disk, r);
      var noted := if about then LinkNoted(disk, answers, r, path, answers[path], "resolves_to") else r;
      var verdict := if about then LinkVerdict(disk, answers, path, answers[path]) else answers[path];
      OwnFlag(noted, verdict).(provenance := verdict)
  }

  function ChainNoted(answers: Answers, r: Row): Row {
    if "chain_from" !in r.raw then r
    else
      var from := r.raw["chain_from"];
      Noted(r, "chain_from_provenance", if from in answers && IntactProvenance(answers[from]) then "intact" else "unverified")
  }

  /** The verdict on a separate target, where there is an answer for it. */
  function Answered(disk: Disk, r: Row, target: string, p: Provenance): Row {
    match p
    case Unowned => Flagged(WithVerdict(r, V.Unpackaged), Unpackaged)
    case Packaged(package, integrity) =>
      if target in disk.directories then WithVerdict(r, V.Directory(package))
      else
        var told := WithVerdict(r, V.Packaged(package, integrity));
        if integrity == V.Modified || integrity == V.ModeModified then Flagged(told, PackagedModified) else told
    case GeneratedBy(who) => WithVerdict(r, V.Generated(who))
    case Reproduced(who) => WithVerdict(r, V.Reproduced(who))
    case Unknown => WithVerdict(r, V.Unknown)
  }

  function SeparateVerdict(disk: Disk, answers: Answers, r: Row, target: string): Row {
    if target in answers then
      var verdict := LinkVerdict(disk, answers, target, answers[target]);
      Answered(disk, LinkNoted(disk, answers, r, target, answers[target], "target_resolves_to"), target, verdict)
    else if TargetVerdict(r).None? then WithVerdict(r, V.Unanswered)
    else r
  }

  function AfterProvenance(disk: Disk, answers: Answers, r: Row): Row {
    var guarded := Guarded(r);
    var subject := Subject(disk, r);
    var path := SubjectPath(disk, r);
    var told := if subject.Some? then Noted(r, "provenance_of", subject.value) else r;
    if path in disk.kernel then Noted(told, "provenance_caveat", "read from a kernel interface, not a file a package can own")
    else
      var chained := ChainNoted(answers, OwnVerdict(disk, answers, told, path));
      if r.targetPath.Some? && r.targetPath.value != path && !guarded then SeparateVerdict(disk, answers, chained, r.targetPath.value)
      else chained
  }

  // --- silence is never read as verified

  /** A target fit to be quiet by the answers, through its link if it is one. */
  predicate GoodTarget(disk: Disk, answers: Answers, target: string) {
    && target in answers
    && var p := LinkVerdict(disk, answers, target, answers[target]);
       p.Reproduced? || (p.Packaged? && (target in disk.directories || p.integrity == V.Intact))
  }

  predicate AbsentByDesign(disk: Disk, r: Row) {
    r.targetPath.Some? && r.targetPath.value !in disk.present && GuardOf(r).Some? && Unverifiable(r.targetPath.value).None?
  }

  predicate SpacelessNames(answers: Answers) {
    forall path :: path in answers && answers[path].Packaged? ==> ' ' !in answers[path].package
  }

  lemma WrittenVerdict(r: Row, v: V.Verdict)
    requires v.Packaged? || v.Directory? ==> ' ' !in v.package
    requires !v.Other?
    ensures TargetVerdict(WithVerdict(r, v)) == Some(v)
  {
    hide V.FromWords, V.Words;
    V.VerifiedKept(v);
  }

  /** The first pass writes a verdict on the target for one reason only. */
  lemma LookedVerdict(disk: Disk, r: Row)
    requires TARGET_PROVENANCE !in r.raw
    ensures var e := AfterTarget(disk, r);
            && (AbsentByDesign(disk, r) ==> TargetVerdict(e) == Some(V.AbsentGuarded(GuardOf(r).value)))
            && (!AbsentByDesign(disk, r) ==> TARGET_PROVENANCE !in e.raw)
            && (Guarded(e) <==> AbsentByDesign(disk, r))
            && e.targetPath == r.targetPath && e.source == r.source && e.kind == r.kind
  {
    hide V.FromWords, V.Words, Unverifiable;
    if AbsentByDesign(disk, r) {
      WrittenVerdict(r, V.AbsentGuarded(GuardOf(r).value));
      assert TargetVerdict(AfterTarget(disk, r)) == TargetVerdict(TargetLooked(disk, r));
    }
  }

  /** The second pass, on a separate target not guarded: the verdict it leaves
      is quiet just where the answers make it so. */
  lemma SeparateIsGood(disk: Disk, answers: Answers, r: Row, target: string)
    requires TARGET_PROVENANCE !in r.raw && SpacelessNames(answers)
    ensures TargetVerdict(SeparateVerdict(disk, answers, r, target)).Some?
    ensures TargetQuiet(SeparateVerdict(disk, answers, r, target)) <==> GoodTarget(disk, answers, target)
  {
    hide V.FromWords, V.Words;
    if target in answers {
      var verdict := LinkVerdict(disk, answers, target, answers[target]);
      AnsweredIsGood(disk, LinkNoted(disk, answers, r, target, answers[target], "target_resolves_to"), target, verdict);
    } else {
      WrittenVerdict(r, V.Unanswered);
    }
  }

  lemma AnsweredIsGood(disk: Disk, r: Row, target: string, p: Provenance)
    requires p.Packaged? ==> ' ' !in p.package
    ensures var e := Answered(disk, r, target, p);
            && TargetVerdict(e).Some?
            && (TargetQuiet(e) <==> p.Reproduced? || (p.Packaged? && (target in disk.directories || p.integrity == V.Intact)))
  {
    hide V.FromWords, V.Words;
    match p {
      case Unowned => WrittenVerdict(r, V.Unpackaged);
      case Packaged(package, integrity) =>
        WrittenVerdict(r, if target in disk.directories then V.Directory(package) else V.Packaged(package, integrity));
      case GeneratedBy(who) => WrittenVerdict(r, V.Generated(who));
      case Reproduced(who) => WrittenVerdict(r, V.Reproduced(who));
      case Unknown => WrittenVerdict(r, V.Unknown);
    }
  }

  /** Both passes: a separate target is quiet if and only if it is good by the
      answers, or is absent behind a guard. */
  lemma TargetJudged(disk: Disk, answers: Answers, r: Row)
    requires TARGET_PROVENANCE !in r.raw && SpacelessNames(answers)
    requires r.targetPath.Some? && r.targetPath.value != SubjectPath(disk, AfterTarget(disk, r))
    ensures var e := AfterProvenance(disk, answers, AfterTarget(disk, r));
            TargetQuiet(e) <==> AbsentByDesign(disk, r) || GoodTarget(disk, answers, r.targetPath.value)
  {
    hide V.FromWords, V.Words, GoodTarget, AbsentByDesign, AfterTarget, SeparateVerdict, OwnFlag, LinkNoted, LinkVerdict, V.Verified;
    var looked := AfterTarget(disk, r);
    LookedVerdict(disk, r);
    var path := SubjectPath(disk, looked);
    assert Subject(disk, looked).None?;
    OwnKeeps(disk, answers, looked, path);
    var chained := ChainNoted(answers, OwnVerdict(disk, answers, looked, path));
    if Guarded(looked) {
      GuardedQuiet(disk, answers, looked);
    } else {
      assert path !in disk.kernel;
      SeparateIsGood(disk, answers, chained, r.targetPath.value);
    }
  }

  /** The row's own verdict leaves the one on its target alone. */
  lemma OwnKeeps(disk: Disk, answers: Answers, r: Row, path: string)
    ensures var e := ChainNoted(answers, OwnVerdict(disk, answers, r, path));
            && (TARGET_PROVENANCE in e.raw <==> TARGET_PROVENANCE in r.raw)
            && TargetVerdict(e) == TargetVerdict(r)
  {
    hide V.FromWords, LinkVerdict;
  }

  lemma GuardedQuiet(disk: Disk, answers: Answers, r: Row)
    requires Guarded(r)
    ensures TargetQuiet(AfterProvenance(disk, answers, r))
  {
    hide V.FromWords, SeparateVerdict;
    var path := SubjectPath(disk, r);
    OwnKeeps(disk, answers, r, path);
  }

  /** An entry enrichment found with no verdict on its target is hidden only if
      that target, where it is another file, is good by the answers or absent
      behind a guard. */
  lemma HiddenOnlyIfGood(disk: Disk, answers: Answers, r: Row)
    requires TARGET_PROVENANCE !in r.raw && SpacelessNames(answers)
    requires r.kind != NssModule && r.kind != Plugin && r.kind != PkgSource && r.kind != Inittab
    requires r.targetPath.Some? && r.targetPath.value != SubjectPath(disk, AfterTarget(disk, r))
    ensures var e := AfterProvenance(disk, answers, AfterTarget(disk, r));
            && (EMPTY_FILE !in e.raw && Suppressed(e) ==> AbsentByDesign(disk, r) || GoodTarget(disk, answers, r.targetPath.value))
            && (EMPTY_FILE !in e.raw && r.targetPath.value !in answers && !AbsentByDesign(disk, r) ==> !Suppressed(e))
  {
    TargetJudged(disk, answers, r);
    KindKept(disk, answers, r);
    hide AfterProvenance, AfterTarget, AbsentByDesign, TargetQuiet, FromPackageDatabase, Only;
  }

  lemma KindKept(disk: Disk, answers: Answers, r: Row)
    ensures AfterProvenance(disk, answers, AfterTarget(disk, r)).kind == r.kind
  {
    hide V.FromWords, V.Words, Unverifiable, LinkVerdict, OwnVerdict, ChainNoted, SeparateVerdict, TargetVerdict, AfterTarget;
    LookedKind(disk, r);
    var looked := AfterTarget(disk, r);
    forall s: Row, path ensures OwnVerdict(disk, answers, s, path).kind == s.kind {
      OwnKind(disk, answers, s, path);
    }
    forall s: Row ensures ChainNoted(answers, s).kind == s.kind {
      ChainKind(answers, s);
    }
    forall s: Row, target ensures SeparateVerdict(disk, answers, s, target).kind == s.kind {
      SeparateKind(disk, answers, s, target);
    }
  }

  lemma LookedKind(disk: Disk, r: Row)
    ensures AfterTarget(disk, r).kind == r.kind
  {
    hide V.Words, Unverifiable;
  }

  lemma OwnKind(disk: Disk, answers: Answers, r: Row, path: string)
    ensures OwnVerdict(disk, answers, r, path).kind == r.kind
  {
  }

  lemma ChainKind(answers: Answers, r: Row)
    ensures ChainNoted(answers, r).kind == r.kind
  {
  }

  lemma SeparateKind(disk: Disk, answers: Answers, r: Row, target: string)
    ensures SeparateVerdict(disk, answers, r, target).kind == r.kind
  {
    hide V.Words, V.FromWords;
  }

  // --- what the rule reads

  const DECIDING := {TARGET_PROVENANCE, EMPTY_FILE, AFTER_HASH, REGISTRY_GENERATED, VOUCHED, CHANGED_AFTER_INSTALL, READ_FROM, DIGEST_UNAVAILABLE}

  /** Rows that differ only in enablement, in the caveat about it, and in notes
      the rule does not read. */
  predicate SameToTheRule(a: Row, b: Row) {
    && a.kind == b.kind && a.provenance == b.provenance
    && (forall f :: f in a.flags + b.flags && f != DegradedEnablement ==> (f in a.flags <==> f in b.flags))
    && (forall k :: k in DECIDING ==> (k in a.raw <==> k in b.raw) && (k in a.raw ==> a.raw[k] == b.raw[k]))
  }

  lemma SameOnly(a: Row, b: Row, some: set<Flag>)
    requires SameToTheRule(a, b)
    ensures Only(a.flags, some) <==> Only(b.flags, some)
  {
    if Only(a.flags, some) {
      forall i | 0 <= i < |b.flags| ensures b.flags[i] == DegradedEnablement || b.flags[i] in some {
        assert b.flags[i] in b.flags;
        if b.flags[i] != DegradedEnablement {
          var j :| 0 <= j < |a.flags| && a.flags[j] == b.flags[i];
        }
      }
    }
    if Only(b.flags, some) {
      forall i | 0 <= i < |a.flags| ensures a.flags[i] == DegradedEnablement || a.flags[i] in some {
        assert a.flags[i] in a.flags;
        if a.flags[i] != DegradedEnablement {
          var j :| 0 <= j < |b.flags| && b.flags[j] == a.flags[i];
        }
      }
    }
  }

  lemma RuleReadsNothingElse(a: Row, b: Row)
    requires SameToTheRule(a, b)
    ensures Suppressed(a) <==> Suppressed(b)
  {
    hide Only, V.FromWords, V.Verified;
    SameOnly(a, b, {});
    SameOnly(a, b, {Unpackaged});
    SameOnly(a, b, {TargetUnresolvable});
    SameOnly(a, b, {Unpackaged, TargetMissing});
    SameOnly(a, b, {Unpackaged, ConffileModified});
  }
}
