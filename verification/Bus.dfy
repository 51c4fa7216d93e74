/** Enablement as service managers tell it: which of them are heard about which
    unit, and what no answer of theirs can change. */
module Bus {
  import opened Results
  import opened Rows

  const SYSTEM := "system"
  const USER := "user:"
  const SCOPE := "scope"
  const SCOPE_UID := "scope_uid"
  const SYMLINK_TARGET := "symlink_target"
  const TEMPLATE_UNIT := "template_unit"
  const INFERRED_ENABLEMENT := "inferred_enablement"
  const ENABLEMENT_MANAGERS := "enablement_managers"

  /** What every manager said of one unit file, by manager. */
  type UnitFile = map<string, string>

  datatype Manager = Manager(byPath: map<string, UnitFile>, active: map<(string, string), (string, string)>)

  /** How lists of managers are spelled in notes. */
  datatype Spelling = Spelling(names: set<string> -> string, breakdown: UnitFile -> string)

  datatype Agreed = Agreed(state: string, from: set<string>)

  // --- whose unit it is

  datatype Scope = SystemScope | UserScope | HomeScope(who: string)

  function FromLabel(text: string): Option<Scope> {
    if text == "system" then Some(SystemScope)
    else if text == "user" then Some(UserScope)
    else if USER <= text then Some(HomeScope(text[|USER|..]))
    else None
  }

  function ScopeOf(r: Row): Scope {
    if SCOPE in r.raw && FromLabel(r.raw[SCOPE]).Some? then FromLabel(r.raw[SCOPE]).value else SystemScope
  }

  predicate MayAnswer(r: Row, m: string) {
    match ScopeOf(r)
    case UserScope => USER <= m
    case HomeScope(_) => SCOPE_UID in r.raw && m == USER + r.raw[SCOPE_UID]
    case SystemScope => m == SYSTEM
  }

  function Admitted(r: Row, file: UnitFile): UnitFile {
    map m | m in file && MayAnswer(r, m) :: file[m]
  }

  ghost predicate Unanimous(heard: UnitFile, state: string) {
    heard != map[] && forall m :: m in heard ==> heard[m] == state
  }

  /** The system manager's word where it is heard; else what all that are heard agree on. */
  ghost function Agreement(heard: UnitFile): Option<Agreed> {
    if SYSTEM in heard then Some(Agreed(heard[SYSTEM], {SYSTEM}))
    else if exists state :: Unanimous(heard, state) then
      var state :| Unanimous(heard, state);
      Some(Agreed(state, heard.Keys))
    else None
  }

  lemma SomeoneHeard(heard: UnitFile)
    requires heard != map[]
    ensures exists m :: m in heard
  {
    assert (forall m :: m !in heard) ==> heard == map[];
  }

  method AgreedBy(r: Row, file: UnitFile) returns (a: Option<Agreed>)
    ensures a == Agreement(Admitted(r, file))
  {
    var heard := Admitted(r, file);
    if SYSTEM in heard {
      return Some(Agreed(heard[SYSTEM], {SYSTEM}));
    }
    if heard == map[] {
      return None;
    }
    SomeoneHeard(heard);
    var first :| first in heard;
    var state := heard[first];
    if exists m :: m in heard && heard[m] != state {
      return None;
    }
    assert Unanimous(heard, state);
    return Some(Agreed(state, heard.Keys));
  }

  // --- what an answer does to a row

  function EnablementOf(state: string): string {
    if state == "enabled" || state == "enabled-runtime" then "enabled"
    else if state == "disabled" then "disabled"
    else if state == "masked" || state == "masked-runtime" then "masked"
    else if state in {"static", "indirect", "generated", "transient", "alias", "linked", "linked-runtime"} then "static"
    else "unknown"
  }

  function LastName(path: string): string {
    if '/' !in path then path
    else if path[|path| - 1] == '/' then LastName(path[..|path| - 1])
    else LastName(path[..|path| - 1]) + [path[|path| - 1]]
  }

  /** Whether the row is an instance: its link is named as its template. */
  predicate Instance(r: Row) {
    SYMLINK_TARGET in r.raw && TEMPLATE_UNIT in r.raw && LastName(r.raw[SYMLINK_TARGET]) == r.raw[TEMPLATE_UNIT]
  }

  predicate ViaTemplate(m: Manager, r: Row) {
    Instance(r) && r.source !in m.byPath
  }

  function KeyOf(m: Manager, r: Row): string {
    if ViaTemplate(m, r) then r.raw[SYMLINK_TARGET] else r.source
  }

  function Certain(flags: seq<Flag>): (out: seq<Flag>)
    ensures forall f :: f in out <==> f in flags && f != DegradedEnablement
  {
    if flags == [] then []
    else Certain(flags[..|flags| - 1]) + if flags[|flags| - 1] == DegradedEnablement then [] else [flags[|flags| - 1]]
  }

  function Listed(sp: Spelling, r: Row, file: UnitFile): Row {
    if |file| > 1 then Noted(r, ENABLEMENT_MANAGERS, sp.breakdown(file)) else r
  }

  function Inferred(r: Row): Row {
    if r.enabled != "unknown" then Noted(r, INFERRED_ENABLEMENT, r.enabled) else r
  }

  /** A template's answer stands in for its instance's, and says so. */
  function Stood(sp: Spelling, r: Row, key: string, a: Agreed): Row {
    var noted := Noted(Noted(r, "unit_file_state", a.state + " (template " + LastName(key) + ")"),
                       "enablement_from", sp.names(a.from) + " (template)");
    if EnablementOf(a.state) == "enabled" || EnablementOf(a.state) == "static" then noted.(flags := Certain(noted.flags)) else noted
  }

  /** Whether a unit runs, noted only where one manager alone answered. */
  ghost function Running(m: Manager, r: Row, a: Agreed): Row {
    if !(exists only :: a.from == {only}) then r
    else
      var only :| a.from == {only};
      if (only, r.name) in m.active then
        Noted(Noted(r, "active_state", m.active[(only, r.name)].0), "sub_state", m.active[(only, r.name)].1)
      else r
  }

  ghost function Told(m: Manager, sp: Spelling, r: Row, a: Agreed): Row {
    var settled := r.(enabled := EnablementOf(a.state), flags := Certain(r.flags));
    var noted := Noted(Noted(settled, "unit_file_state", a.state), "enablement_from", sp.names(a.from));
    var run := Running(m, noted, a);
    if a.state == "generated" then Noted(run, "generated", "true") else run
  }

  ghost function Applied(m: Manager, sp: Spelling, r: Row): Row {
    if r.kind != SystemdUnit && r.kind != SystemdTimer then r
    else
      var key := KeyOf(m, r);
      if key !in m.byPath then r
      else
        var file := m.byPath[key];
        var listed := Listed(sp, r, file);
        match Agreement(Admitted(r, file))
        case None => listed
        case Some(a) =>
          if ViaTemplate(m, r) then Stood(sp, Inferred(listed), key, a) else Told(m, sp, Inferred(listed), a)
  }

  // --- the pass over the entries

  lemma OneName(from: set<string>)
    ensures |from| == 1 <==> exists only :: from == {only}
  {
    if |from| == 1 {
      var x :| x in from;
      assert |from - {x}| == 0;
      assert from == {x} + (from - {x});
    }
  }

  lemma OnlyName(a: Agreed, only: string, m: Manager, r: Row)
    requires a.from == {only}
    ensures Running(m, r, a) ==
            if (only, r.name) in m.active then
              Noted(Noted(r, "active_state", m.active[(only, r.name)].0), "sub_state", m.active[(only, r.name)].1)
            else r
  {
    var other :| a.from == {other};
    assert only in a.from && other in a.from;
  }

  /** Every entry some manager knows about, edited in place; the rest as they were. */
  method Apply(m: Manager, sp: Spelling, entries: array<Row>)
    modifies entries
    ensures forall i :: 0 <= i < entries.Length ==> entries[i] == Applied(m, sp, old(entries[i]))
  {
    for i := 0 to entries.Length
      invariant forall j :: 0 <= j < i ==> entries[j] == Applied(m, sp, old(entries[j]))
      invariant forall j :: i <= j < entries.Length ==> entries[j] == old(entries[j])
    {
      var r := ApplyTo(m, sp, entries[i]);
      entries[i] := r;
    }
  }

  method ApplyTo(m: Manager, sp: Spelling, row: Row) returns (r: Row)
    ensures r == Applied(m, sp, row)
  {
    r := row;
    if r.kind != SystemdUnit && r.kind != SystemdTimer {
      return;
    }
    var viaTemplate := ViaTemplate(m, r);
    var key := KeyOf(m, r);
    if key !in m.byPath {
      return;
    }
    var file := m.byPath[key];
    var a := AgreedBy(row, file);
    if |file| > 1 {
      r := Noted(r, ENABLEMENT_MANAGERS, sp.breakdown(file));
    }
    if a.None? {
      return;
    }
    var state, from := a.value.state, a.value.from;
    if r.enabled != "unknown" {
      r := Noted(r, INFERRED_ENABLEMENT, r.enabled);
    }
    if viaTemplate {
      r := Stood(sp, r, key, a.value);
      return;
    }
    r := r.(enabled := EnablementOf(state), flags := Certain(r.flags));
    r := Noted(Noted(r, "unit_file_state", state), "enablement_from", sp.names(from));
    OneName(from);
    if |from| == 1 {
      var only :| only in from;
      OnlyName(a.value, only, m, r);
      if (only, r.name) in m.active {
        var (active, sub) := m.active[(only, r.name)];
        r := Noted(Noted(r, "active_state", active), "sub_state", sub);
      }
    }
    if state == "generated" {
      r := Noted(r, "generated", "true");
    }
  }

  // --- no answer decides visibility

  /** The notes an answer can leave. */
  const TELLING := {ENABLEMENT_MANAGERS, INFERRED_ENABLEMENT, "unit_file_state", "enablement_from", "active_state", "sub_state", "generated"}

  /** An answer touches enablement, the caveat about it, and those notes. */
  ghost predicate ToldOnly(a: Row, b: Row) {
    && a.kind == b.kind && a.provenance == b.provenance && a.source == b.source && a.name == b.name
    && a.command == b.command && a.targetPath == b.targetPath
    && (b.flags == a.flags || b.flags == Certain(a.flags))
    && (forall k :: k !in TELLING ==> (k in a.raw <==> k in b.raw) && (k in a.raw ==> a.raw[k] == b.raw[k]))
  }

  lemma RunningTells(m: Manager, r: Row, a: Agreed)
    ensures ToldOnly(r, Running(m, r, a)) && Running(m, r, a).flags == r.flags
  {
  }

  lemma ToldTells(m: Manager, sp: Spelling, r: Row, a: Agreed)
    ensures ToldOnly(r, Told(m, sp, r, a))
  {
    var settled := r.(enabled := EnablementOf(a.state), flags := Certain(r.flags));
    var noted := Noted(Noted(settled, "unit_file_state", a.state), "enablement_from", sp.names(a.from));
    RunningTells(m, noted, a);
    hide Running, EnablementOf;
  }

  lemma AppliedTells(m: Manager, sp: Spelling, r: Row)
    ensures ToldOnly(r, Applied(m, sp, r))
  {
    hide Agreement, Told, EnablementOf, LastName, Certain;
    if (r.kind == SystemdUnit || r.kind == SystemdTimer) && KeyOf(m, r) in m.byPath {
      var file := m.byPath[KeyOf(m, r)];
      var a := Agreement(Admitted(r, file));
      if a.Some? && !ViaTemplate(m, r) {
        ToldTells(m, sp, Inferred(Listed(sp, r, file)), a.value);
      }
    }
  }

  /** Whatever any manager answers, a row is hidden or shown as it was. */
  lemma NoAnswerHides(m: Manager, sp: Spelling, r: Row)
    ensures Suppressed(Applied(m, sp, r)) <==> Suppressed(r)
  {
    hide Applied, Suppressed, Certain;
    AppliedTells(m, sp, r);
    var e := Applied(m, sp, r);
    assert SameToTheRule(r, e) by {
      assert forall k :: k in DECIDING ==> k !in TELLING;
    }
    RuleReadsNothingElse(r, e);
  }

  // --- users do not speak for the system

  function SystemSays(m: Manager, path: string): Option<string> {
    if path in m.byPath && SYSTEM in m.byPath[path] then Some(m.byPath[path][SYSTEM]) else None
  }

  ghost predicate SameSystem(m: Manager, n: Manager) {
    && (forall path :: SystemSays(m, path) == SystemSays(n, path))
    && (forall name :: ((SYSTEM, name) in m.active <==> (SYSTEM, name) in n.active)
                       && ((SYSTEM, name) in m.active ==> m.active[(SYSTEM, name)] == n.active[(SYSTEM, name)]))
  }

  function Unlisted(r: Row): Row {
    r.(raw := r.raw - {ENABLEMENT_MANAGERS})
  }

  lemma SystemHeard(r: Row, file: UnitFile)
    requires ScopeOf(r) == SystemScope
    ensures Agreement(Admitted(r, file)) == if SYSTEM in file then Some(Agreed(file[SYSTEM], {SYSTEM})) else None
  {
    var heard := Admitted(r, file);
    if SYSTEM !in file {
      assert heard == map[];
    }
  }

  /** A system unit takes the same enablement, flags and notes, but for the list
      of who answered, from any two sets of answers that differ in what user
      managers say: any unit but a template's instance, and an instance unless a
      user manager lists its own path where none does in the other set. */
  lemma UsersDoNotSpeak(m: Manager, n: Manager, sp: Spelling, r: Row)
    requires SameSystem(m, n) && ScopeOf(r) == SystemScope
    requires Instance(r) ==> (r.source in m.byPath <==> r.source in n.byPath)
    ensures Unlisted(Applied(m, sp, r)) == Unlisted(Applied(n, sp, r))
  {
    hide Told, Stood, Agreement, ScopeOf, EnablementOf, LastName;
    if ViaTemplate(m, r) {
      TemplateAlone(m, sp, r);
      TemplateAlone(n, sp, r);
    } else {
      ListedAlone(m, sp, r);
      ListedAlone(n, sp, r);
      if (r.kind == SystemdUnit || r.kind == SystemdTimer) && SystemSays(m, r.source).Some? {
        var a := Agreed(SystemSays(m, r.source).value, {SYSTEM});
        ToldAlike(m, n, sp, Inferred(r), a);
      }
    }
  }

  /** What an instance takes from its template, list aside. */
  lemma TemplateAlone(m: Manager, sp: Spelling, r: Row)
    requires ScopeOf(r) == SystemScope && ViaTemplate(m, r)
    ensures var key := r.raw[SYMLINK_TARGET];
            Unlisted(Applied(m, sp, r)) ==
            if (r.kind == SystemdUnit || r.kind == SystemdTimer) && SystemSays(m, key).Some?
            then Unlisted(Stood(sp, Inferred(r), key, Agreed(SystemSays(m, key).value, {SYSTEM})))
            else Unlisted(r)
  {
    hide Told, Stood, Agreement, ScopeOf, EnablementOf, LastName;
    var key := r.raw[SYMLINK_TARGET];
    if (r.kind == SystemdUnit || r.kind == SystemdTimer) && key in m.byPath {
      var file := m.byPath[key];
      SystemHeard(r, file);
      assert Unlisted(Listed(sp, r, file)) == Unlisted(r);
      if SYSTEM in file {
        StoodUnlisted(sp, r, file, key, Agreed(file[SYSTEM], {SYSTEM}));
      }
    }
  }

  lemma StoodUnlisted(sp: Spelling, r: Row, file: UnitFile, key: string, a: Agreed)
    ensures Unlisted(Stood(sp, Inferred(Listed(sp, r, file)), key, a)) == Unlisted(Stood(sp, Inferred(r), key, a))
  {
    UnlistedStood(sp, Inferred(Listed(sp, r, file)), key, a);
    UnlistedStood(sp, Inferred(r), key, a);
    InferredUnlisted(sp, r, file);
    hide Stood, Inferred, Listed, Unlisted;
  }

  lemma InferredUnlisted(sp: Spelling, r: Row, file: UnitFile)
    ensures Unlisted(Inferred(Listed(sp, r, file))) == Unlisted(Inferred(r))
  {
    assert Unlisted(Inferred(Listed(sp, r, file))).raw == Unlisted(Inferred(r)).raw;
  }

  lemma UnlistedStood(sp: Spelling, r: Row, key: string, a: Agreed)
    ensures Unlisted(Stood(sp, r, key, a)) == Stood(sp, Unlisted(r), key, a)
  {
    hide Noted, Unlisted, EnablementOf, Certain, LastName;
    var state := a.state + " (template " + LastName(key) + ")";
    var s1 := Noted(r, "unit_file_state", state);
    UnlistedNoted(r, "unit_file_state", state);
    UnlistedNoted(s1, "enablement_from", sp.names(a.from) + " (template)");
    var s2 := Noted(s1, "enablement_from", sp.names(a.from) + " (template)");
    Settles(s2, s2.enabled, Certain(s2.flags));
  }

  const TEMPLATE_PATH := "t@.service"
  const INSTANCE_PATH := "t@x.service"
  const TEMPLATE_ALONE: map<string, UnitFile> := map[TEMPLATE_PATH := map[SYSTEM := "enabled"]]
  const WITHOUT_USER := Manager(TEMPLATE_ALONE, map[])
  const WITH_USER := Manager(TEMPLATE_ALONE[INSTANCE_PATH := map["user:1000" := "enabled"]], map[])

  /** A user manager that lists an instance's own path takes the template's
      answer away from it. */
  lemma InstanceBlocked(sp: Spelling, r: Row)
    requires r.kind == SystemdUnit && ScopeOf(r) == SystemScope && r.source == INSTANCE_PATH
    requires Instance(r) && r.raw[SYMLINK_TARGET] == TEMPLATE_PATH && "unit_file_state" !in r.raw
    ensures SameSystem(WITHOUT_USER, WITH_USER)
    ensures "unit_file_state" in Applied(WITHOUT_USER, sp, r).raw && "unit_file_state" !in Applied(WITH_USER, sp, r).raw
  {
    hide LastName, ScopeOf, Instance, Applied, Stood, Inferred;
    UserAnswers();
    BlockedAlone(WITH_USER, sp, r, map["user:1000" := "enabled"]);
    TemplateAlone(WITHOUT_USER, sp, r);
    StoodSays(sp, Inferred(r), TEMPLATE_PATH, Agreed("enabled", {SYSTEM}));
  }

  lemma UserAnswers()
    ensures TEMPLATE_PATH != INSTANCE_PATH && SYSTEM != "user:1000"
    ensures SameSystem(WITHOUT_USER, WITH_USER) && SystemSays(WITHOUT_USER, TEMPLATE_PATH) == Some("enabled")
    ensures INSTANCE_PATH !in WITHOUT_USER.byPath && INSTANCE_PATH in WITH_USER.byPath
    ensures WITH_USER.byPath[INSTANCE_PATH] == map["user:1000" := "enabled"]
  {
    assert TEMPLATE_PATH[2] != INSTANCE_PATH[2] && SYSTEM[0] != "user:1000"[0];
  }

  lemma BlockedAlone(m: Manager, sp: Spelling, r: Row, file: UnitFile)
    requires ScopeOf(r) == SystemScope && r.source in m.byPath && m.byPath[r.source] == file && SYSTEM !in file && |file| == 1
    ensures Applied(m, sp, r) == r
  {
    hide ScopeOf, Agreement, LastName;
    SystemHeard(r, file);
  }

  lemma StoodSays(sp: Spelling, r: Row, key: string, a: Agreed)
    ensures "unit_file_state" in Unlisted(Stood(sp, r, key, a)).raw
  {
    hide LastName, Certain, EnablementOf;
  }

  /** What a system unit takes, list aside. */
  lemma ListedAlone(m: Manager, sp: Spelling, r: Row)
    requires ScopeOf(r) == SystemScope && !ViaTemplate(m, r)
    ensures Unlisted(Applied(m, sp, r)) ==
            if (r.kind == SystemdUnit || r.kind == SystemdTimer) && SystemSays(m, r.source).Some?
            then Unlisted(Told(m, sp, Inferred(r), Agreed(SystemSays(m, r.source).value, {SYSTEM})))
            else Unlisted(r)
  {
    hide Told, Agreement, ScopeOf, EnablementOf, LastName;
    if (r.kind == SystemdUnit || r.kind == SystemdTimer) && r.source in m.byPath {
      var file := m.byPath[r.source];
      SystemHeard(r, file);
      var listed := Listed(sp, r, file);
      assert Unlisted(listed) == Unlisted(r);
      if SYSTEM in file {
        ToldUnlisted(m, sp, r, file, Agreed(file[SYSTEM], {SYSTEM}));
      }
    }
  }

  lemma UnlistedNoted(r: Row, key: string, value: string)
    requires key != ENABLEMENT_MANAGERS
    ensures Unlisted(Noted(r, key, value)) == Noted(Unlisted(r), key, value)
  {
    assert Unlisted(Noted(r, key, value)).raw == Noted(Unlisted(r), key, value).raw;
  }

  /** The system manager's word, and the list of who answered, do not meet. */
  lemma UnlistedTold(m: Manager, sp: Spelling, r: Row, a: Agreed)
    requires a.from == {SYSTEM}
    ensures Unlisted(Told(m, sp, r, a)) == Told(m, sp, Unlisted(r), a)
  {
    hide Noted, Unlisted, EnablementOf, Certain, Running;
    var settled := r.(enabled := EnablementOf(a.state), flags := Certain(r.flags));
    var plain := Unlisted(r).(enabled := EnablementOf(a.state), flags := Certain(Unlisted(r).flags));
    Settles(r, EnablementOf(a.state), Certain(r.flags));
    var s1, p1 := Noted(settled, "unit_file_state", a.state), Noted(plain, "unit_file_state", a.state);
    UnlistedNoted(settled, "unit_file_state", a.state);
    var s2, p2 := Noted(s1, "enablement_from", sp.names(a.from)), Noted(p1, "enablement_from", sp.names(a.from));
    UnlistedNoted(s1, "enablement_from", sp.names(a.from));
    UnlistedRunning(m, s2, a);
    UnlistedNoted(Running(m, s2, a), "generated", "true");
  }

  lemma Settles(r: Row, enabled: string, flags: seq<Flag>)
    ensures Unlisted(r.(enabled := enabled, flags := flags)) == Unlisted(r).(enabled := enabled, flags := flags)
    ensures Unlisted(r).flags == r.flags && Unlisted(r).name == r.name && Unlisted(r).enabled == r.enabled
  {
  }

  lemma UnlistedRunning(m: Manager, r: Row, a: Agreed)
    requires a.from == {SYSTEM}
    ensures Unlisted(Running(m, r, a)) == Running(m, Unlisted(r), a)
  {
    OnlyName(a, SYSTEM, m, r);
    OnlyName(a, SYSTEM, m, Unlisted(r));
    Settles(r, r.enabled, r.flags);
    hide Noted, Unlisted, Running;
    if (SYSTEM, r.name) in m.active {
      var x, y := m.active[(SYSTEM, r.name)].0, m.active[(SYSTEM, r.name)].1;
      UnlistedNoted(r, "active_state", x);
      UnlistedNoted(Noted(r, "active_state", x), "sub_state", y);
    }
  }

  lemma ToldUnlisted(m: Manager, sp: Spelling, r: Row, file: UnitFile, a: Agreed)
    requires a.from == {SYSTEM}
    ensures Unlisted(Told(m, sp, Inferred(Listed(sp, r, file)), a)) == Unlisted(Told(m, sp, Inferred(r), a))
  {
    hide Told;
    UnlistedTold(m, sp, Inferred(Listed(sp, r, file)), a);
    UnlistedTold(m, sp, Inferred(r), a);
    InferredUnlisted(sp, r, file);
  }

  lemma ToldAlike(m: Manager, n: Manager, sp: Spelling, r: Row, a: Agreed)
    requires SameSystem(m, n) && a.from == {SYSTEM}
    ensures Told(m, sp, r, a) == Told(n, sp, r, a)
  {
    var settled := r.(enabled := EnablementOf(a.state), flags := Certain(r.flags));
    var noted := Noted(Noted(settled, "unit_file_state", a.state), "enablement_from", sp.names(a.from));
    assert noted.name == r.name;
    OnlyName(a, SYSTEM, m, noted);
    OnlyName(a, SYSTEM, n, noted);
    hide Running, Noted, Certain, EnablementOf;
  }
}
