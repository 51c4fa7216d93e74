/** Enrichment as it runs: passes that edit an entry in place, each leaving it as
    the specification in `Rows` says. */
module Enrichment {
  import opened Results
  import opened Rows
  import V = Verdicts

  class Entry {
    const kind: Kind
    const source: string
    const name: string
    const command: Option<string>
    const targetPath: Option<string>
    var enabled: string
    var provenance: Provenance
    var flags: seq<Flag>
    var raw: map<string, string>

    constructor (row: Row)
      ensures Now() == row
    {
      kind, source, name, command, targetPath := row.kind, row.source, row.name, row.command, row.targetPath;
      enabled, provenance, flags, raw := row.enabled, row.provenance, row.flags, row.raw;
    }

    function Now(): Row
      reads this
    {
      Row(kind, source, name, command, targetPath, enabled, provenance, flags, raw)
    }

    method AddFlag(f: Flag)
      modifies this`flags
      ensures Now() == Flagged(old(Now()), f)
    {
      if f !in flags {
        flags := flags + [f];
      }
    }

    method Note(key: string, value: string)
      modifies this`raw
      ensures Now() == Noted(old(Now()), key, value)
    {
      raw := raw[key := value];
    }

    method SetTargetVerdict(v: V.Verdict)
      modifies this`raw
      ensures Now() == WithVerdict(old(Now()), v)
    {
      Note(TARGET_PROVENANCE, V.Words(v));
    }

    /** Whether what the entry runs is there, and whether there is anything in it. */
    method ApplyTarget(disk: Disk)
      modifies this`flags, this`raw
      ensures Now() == AfterTarget(disk, old(Now()))
    {
      hide V.Words, Unverifiable;
      var hashed := source;
      match targetPath {
        case Some(target) =>
          var why := Unverifiable(target);
          if why.Some? {
            Note(TARGET_UNVERIFIABLE, why.value);
            return;
          }
          if target !in disk.present {
            var guard := GuardOf(Now());
            match guard {
              case Some(how) => SetTargetVerdict(V.AbsentGuarded(how));
              case None => AddFlag(TargetMissing);
            }
          }
          hashed := target;
        case None =>
          if command.Some? && TARGET_UNVERIFIABLE !in raw {
            AddFlag(TargetUnresolvable);
          }
      }
      assert Now() == TargetLooked(disk, old(Now()));
      var aboutItself := targetPath.None? || targetPath.value == source;
      if aboutItself && hashed in disk.empty {
        Note(EMPTY_FILE, "true");
      }
    }

    /** The verdict on a link is its target's, and the entry notes which. */
    method ThroughLink(disk: Disk, rel: string, verdict: Provenance, answers: Answers, note: string) returns (r: Provenance)
      modifies this`raw
      ensures r == LinkVerdict(disk, answers, rel, verdict)
      ensures Now() == LinkNoted(disk, answers, old(Now()), rel, verdict, note)
    {
      if Changed(verdict) || rel !in disk.ends {
        return verdict;
      }
      var end := disk.ends[rel];
      if end !in disk.files || end !in answers {
        return verdict;
      }
      Note(note, end);
      return answers[end];
    }

    /** The entry's own verdict, taken where there is an answer for its subject. */
    method TakeVerdict(disk: Disk, answers: Answers, subject: string)
      modifies this`raw, this`flags, this`provenance
      ensures Now() == OwnVerdict(disk, answers, old(Now()), subject)
    {
      if subject !in answers {
        return;
      }
      var verdict := answers[subject];
      if DECLARED_BY_ENTRY in raw || source in disk.kernel {
        verdict := ThroughLink(disk, subject, verdict, answers, "resolves_to");
      }
      match verdict {
        case Unowned => AddFlag(Unpackaged);
        case Packaged(_, integrity) =>
          if integrity == V.Modified || integrity == V.ModeModified {
            AddFlag(PackagedModified);
          } else if integrity == V.ConffileModified {
            AddFlag(ConffileModified);
          }
        case _ =>
      }
      provenance := verdict;
    }

    /** The verdict on a separate target, or that there was none. */
    method JudgeTarget(disk: Disk, answers: Answers, target: string)
      modifies this`raw, this`flags
      ensures Now() == SeparateVerdict(disk, answers, old(Now()), target)
    {
      hide V.Words, V.FromWords;
      if target !in answers {
        if TARGET_PROVENANCE !in raw {
          SetTargetVerdict(V.Unanswered);
        }
        return;
      }
      var verdict := ThroughLink(disk, target, answers[target], answers, "target_resolves_to");
      match verdict {
        case Unowned =>
          SetTargetVerdict(V.Unpackaged);
          AddFlag(Unpackaged);
        case Packaged(package, integrity) =>
          if target in disk.directories {
            SetTargetVerdict(V.Directory(package));
          } else {
            SetTargetVerdict(V.Packaged(package, integrity));
            if integrity == V.Modified || integrity == V.ModeModified {
              AddFlag(PackagedModified);
            }
          }
        case GeneratedBy(who) => SetTargetVerdict(V.Generated(who));
        case Reproduced(who) => SetTargetVerdict(V.Reproduced(who));
        case Unknown => SetTargetVerdict(V.Unknown);
      }
    }

    method ApplyProvenance(disk: Disk, answers: Answers)
      modifies this`raw, this`flags, this`provenance
      ensures Now() == AfterProvenance(disk, answers, old(Now()))
    {
      hide V.Words, V.FromWords, OwnVerdict, SeparateVerdict;
      var aboutTarget := DECLARED_BY_ENTRY in raw || source in disk.kernel;
      var guarded := Guarded(Now());
      var subject := if aboutTarget && !guarded then targetPath else None;
      var path := if subject.Some? then subject.value else source;
      if subject.Some? {
        Note("provenance_of", subject.value);
      }
      if path in disk.kernel {
        Note("provenance_caveat", "read from a kernel interface, not a file a package can own");
        return;
      }
      TakeVerdict(disk, answers, path);
      if "chain_from" in raw {
        var from := raw["chain_from"];
        var verified := from in answers && IntactProvenance(answers[from]);
        Note("chain_from_provenance", if verified then "intact" else "unverified");
      }
      if targetPath.Some? && targetPath.value != path && !guarded {
        JudgeTarget(disk, answers, targetPath.value);
      }
    }
  }
}
