/** The user phase: managers asked in turn by one thread, which adds each answer
    to a slot another thread may empty at any time; the order is of no consequence. */
module Merging {
  import opened Results
  import opened Bus
  import Shuffles

  function FileAt(m: Manager, path: string): UnitFile {
    if path in m.byPath then m.byPath[path] else map[]
  }

  /** Another manager's answers folded in, both kept where they cover one path. */
  function Merged(a: Manager, b: Manager): Manager {
    Manager(map path | path in a.byPath.Keys + b.byPath.Keys :: FileAt(a, path) + FileAt(b, path), a.active + b.active)
  }

  /** As the program folds: path by path. */
  method Merge(a: Manager, b: Manager) returns (m: Manager)
    ensures m == Merged(a, b)
  {
    var byPath := a.byPath;
    var paths := b.byPath.Keys;
    while paths != {}
      invariant paths <= b.byPath.Keys
      invariant forall path :: path in byPath <==> path in a.byPath || (path in b.byPath && path !in paths)
      invariant forall path :: path in byPath ==>
                  byPath[path] == if path in paths then FileAt(a, path) else FileAt(a, path) + FileAt(b, path)
      decreases paths
    {
      var path :| path in paths;
      paths := paths - {path};
      var file := if path in byPath then byPath[path] else map[];
      byPath := byPath[path := file + b.byPath[path]];
    }
    assert byPath == Merged(a, b).byPath;
    return Manager(byPath, a.active + b.active);
  }

  /** One more answer in the slot. */
  function Joined(slot: Option<Manager>, answer: Manager): Option<Manager> {
    match slot
    case None => Some(answer)
    case Some(before) => Some(Merged(before, answer))
  }

  /** All of some answers, if there are any. */
  function All(answers: seq<Manager>): Option<Manager> {
    if answers == [] then None else Joined(All(answers[..|answers| - 1]), answers[|answers| - 1])
  }

  /** The buses that answered before the budget was spent. */
  function Answering(replies: seq<Option<Manager>>): seq<Manager> {
    if replies == [] then []
    else
      var last := replies[|replies| - 1];
      Answering(replies[..|replies| - 1]) + if last.Some? then [last.value] else []
  }

  /** Asks each bus in turn until the budget is spent, at `late`. Whenever the
      slot is taken it holds the answers of those asked so far, and no other. */
  method QueryUsers(replies: seq<Option<Manager>>, late: nat) returns (slot: Option<Manager>)
    ensures slot == All(Answering(if late <= |replies| then replies[..late] else replies))
  {
    slot := None;
    var i := 0;
    while i < |replies| && i < late
      invariant i <= |replies| && i <= late && slot == All(Answering(replies[..i]))
    {
      assert replies[..i + 1][..i] == replies[..i];
      var reply := replies[i];
      AllSnoc(Answering(replies[..i]), if reply.Some? then reply.value else Manager(map[], map[]));
      i := i + 1;
      if reply.None? {
        continue;
      }
      match slot {
        case None => slot := Some(reply.value);
        case Some(acc) =>
          var merged := Merge(acc, reply.value);
          slot := Some(merged);
      }
    }
    assert i == |replies| ==> replies[..i] == replies;
  }

  lemma AllSnoc(answers: seq<Manager>, last: Manager)
    ensures All(answers + [last]) == Joined(All(answers), last)
    ensures answers + [] == answers
  {
    assert (answers + [last])[..|answers|] == answers;
  }

  // --- the asking thread and the one that waits

  /** Where the asking thread is: before a bus, with a query in flight, with its
      answer in hand, holding the lock with it, or done. */
  datatype Asker = Ready(next: nat) | InFlight(next: nat) | Heard(next: nat) | Adding(next: nat) | Over(next: nat)

  /** Where the waiting thread is: until the signal or the deadline, about to
      lock, holding the lock, or away with what it took. */
  datatype Taker = Waiting | Locking | Taking | Took(answer: Option<Manager>, asked: nat)

  datatype Phase = Phase(asker: Asker, taker: Taker, slot: Option<Manager>)

  const BEGUN := Phase(Ready(0), Waiting, None)

  predicate Locked(p: Phase) {
    p.asker.Adding? || p.taker.Taking?
  }

  /** One step of the asking thread; it may stop before any bus, its budget being
      spent, and a query in flight may never come back. */
  predicate AskerSteps(replies: seq<Option<Manager>>, p: Phase, q: Phase) {
    var i := p.asker.next;
    && q.taker == p.taker
    && match p.asker
       case Ready(_) => q.slot == p.slot && (q.asker == Over(i) || (i < |replies| && q.asker == InFlight(i)))
       case InFlight(_) => i < |replies| && q.slot == p.slot && q.asker == if replies[i].Some? then Heard(i) else Ready(i + 1)
       case Heard(_) => !Locked(p) && q.slot == p.slot && q.asker == Adding(i)
       case Adding(_) => i < |replies| && replies[i].Some? && q.slot == Some(if p.slot.Some? then Merged(p.slot.value, replies[i].value) else replies[i].value) && q.asker == Ready(i + 1)
       case Over(_) => false
  }

  /** One step of the waiting thread, whose deadline may pass at any time. */
  predicate TakerSteps(p: Phase, q: Phase) {
    && q.asker == p.asker
    && match p.taker
       case Waiting => q.slot == p.slot && q.taker == Locking
       case Locking => !Locked(p) && q.slot == p.slot && q.taker == Taking
       case Taking => q.slot == None && q.taker == Took(p.slot, p.asker.next)
       case Took(_, _) => false
  }

  predicate Steps(replies: seq<Option<Manager>>, p: Phase, q: Phase) {
    AskerSteps(replies, p, q) || TakerSteps(p, q)
  }

  predicate Runs(replies: seq<Option<Manager>>, ps: seq<Phase>) {
    ps != [] && ps[0] == BEGUN && forall i :: 0 <= i < |ps| - 1 ==> Steps(replies, ps[i], ps[i + 1])
  }

  /** Never both with the lock; all the answers so far in the slot, or in the
      hands of who took it, as many as there were then. */
  predicate PhaseOk(replies: seq<Option<Manager>>, p: Phase) {
    && p.asker.next <= |replies|
    && (p.asker.InFlight? || p.asker.Heard? || p.asker.Adding? ==> p.asker.next < |replies|)
    && (p.asker.Heard? || p.asker.Adding? ==> replies[p.asker.next].Some?)
    && !(p.asker.Adding? && p.taker.Taking?)
    && match p.taker
       case Took(answer, asked) => asked <= p.asker.next && answer == All(Answering(replies[..asked]))
       case _ => p.slot == All(Answering(replies[..p.asker.next]))
  }

  lemma AnsweringSnoc(replies: seq<Option<Manager>>, i: nat)
    requires i < |replies|
    ensures All(Answering(replies[..i + 1])) == if replies[i].Some? then Joined(All(Answering(replies[..i])), replies[i].value) else All(Answering(replies[..i]))
  {
    assert replies[..i + 1][..i] == replies[..i];
    AllSnoc(Answering(replies[..i]), if replies[i].Some? then replies[i].value else Manager(map[], map[]));
  }

  lemma StepKeepsPhase(replies: seq<Option<Manager>>, p: Phase, q: Phase)
    requires PhaseOk(replies, p) && Steps(replies, p, q)
    ensures PhaseOk(replies, q)
  {
    hide Answering, All, Merged;
    if p.asker.next < |replies| {
      AnsweringSnoc(replies, p.asker.next);
    }
  }

  /** However the two threads' steps interleave, and whenever the deadline
      passes: what is taken is all the answers of the buses asked until then,
      merged, and no other; what comes later is in nobody's hands. */
  lemma {:induction false} SlotIsAnswers(replies: seq<Option<Manager>>, ps: seq<Phase>)
    requires Runs(replies, ps)
    ensures PhaseOk(replies, ps[|ps| - 1])
    decreases |ps|
  {
    if |ps| == 1 {
      assert replies[..0] == [];
    } else {
      var init := ps[..|ps| - 1];
      assert forall i :: 0 <= i < |init| ==> init[i] == ps[i];
      SlotIsAnswers(replies, init);
      assert Steps(replies, ps[|ps| - 2], ps[|ps| - 1]);
      hide PhaseOk, Steps;
      StepKeepsPhase(replies, ps[|ps| - 2], ps[|ps| - 1]);
    }
  }

  /** A bus that stalls holds nobody up: wherever the asking thread stands still,
      the waiting one gets away in three steps of its own, and one that ends an
      addition to the slot. */
  lemma TakerGetsAway(replies: seq<Option<Manager>>, p: Phase) returns (qs: seq<Phase>)
    requires PhaseOk(replies, p)
    ensures 1 <= |qs| <= 5 && qs[0] == p && qs[|qs| - 1].taker.Took?
    ensures forall i :: 0 <= i < |qs| - 1 ==> TakerSteps(qs[i], qs[i + 1]) || (qs[i].asker.Adding? && AskerSteps(replies, qs[i], qs[i + 1]))
  {
    hide Merged, All, Answering;
    var q := p;
    qs := [p];
    if q.asker.Adding? {
      var value := replies[q.asker.next].value;
      q := q.(asker := Ready(q.asker.next + 1), slot := Some(if q.slot.Some? then Merged(q.slot.value, value) else value));
      qs := qs + [q];
    }
    if q.taker.Waiting? {
      q := q.(taker := Locking);
      qs := qs + [q];
    }
    if q.taker.Locking? {
      q := q.(taker := Taking);
      qs := qs + [q];
    }
    if q.taker.Taking? {
      q := q.(taker := Took(q.slot, q.asker.next), slot := None);
      qs := qs + [q];
    }
  }

  // --- the order does not matter

  /** Two answers of different managers. */
  ghost predicate Apart(a: Manager, b: Manager) {
    && (forall path :: FileAt(a, path).Keys !! FileAt(b, path).Keys)
    && a.active.Keys !! b.active.Keys
  }

  ghost predicate OwnIds(answers: seq<Manager>) {
    forall i, j :: 0 <= i < j < |answers| ==> Apart(answers[i], answers[j])
  }

  lemma SameFiles(a: Manager, b: Manager)
    requires a.byPath.Keys == b.byPath.Keys && a.active == b.active
    requires forall path :: path in a.byPath ==> FileAt(a, path) == FileAt(b, path)
    ensures a == b
  {
    assert a.byPath == b.byPath;
  }

  lemma SwapFiles(m: UnitFile, x: UnitFile, y: UnitFile)
    requires x.Keys !! y.Keys
    ensures m + x + y == m + y + x
  {
  }

  lemma MergedAt(a: Manager, b: Manager, path: string)
    ensures FileAt(Merged(a, b), path) == FileAt(a, path) + FileAt(b, path)
  {
    assert FileAt(a, path) == map[] && FileAt(b, path) == map[] ==> FileAt(a, path) + FileAt(b, path) == map[];
  }

  /** Two answers in a row may change places. */
  lemma SwapMerged(m: Manager, x: Manager, y: Manager)
    requires Apart(x, y)
    ensures Merged(Merged(m, x), y) == Merged(Merged(m, y), x)
  {
    var a, b := Merged(Merged(m, x), y), Merged(Merged(m, y), x);
    forall path ensures FileAt(a, path) == FileAt(b, path) {
      MergedAt(m, x, path);
      MergedAt(m, y, path);
      MergedAt(Merged(m, x), y, path);
      MergedAt(Merged(m, y), x, path);
      SwapFiles(FileAt(m, path), FileAt(x, path), FileAt(y, path));
    }
    SwapMaps(m.active, x.active, y.active);
    assert a.byPath.Keys == b.byPath.Keys && a.active == b.active;
    hide FileAt, Merged, Apart;
    SameFiles(a, b);
  }

  lemma SwapMaps(m: map<(string, string), (string, string)>, x: map<(string, string), (string, string)>, y: map<(string, string), (string, string)>)
    requires x.Keys !! y.Keys
    ensures m + x + y == m + y + x
    ensures x + y == y + x
  {
  }

  lemma SwapFirst(x: Manager, y: Manager)
    requires Apart(x, y)
    ensures Merged(x, y) == Merged(y, x)
  {
    forall path ensures FileAt(Merged(x, y), path) == FileAt(Merged(y, x), path) {
      MergedAt(x, y, path);
      MergedAt(y, x, path);
      assert FileAt(x, path) + FileAt(y, path) == FileAt(y, path) + FileAt(x, path);
    }
    SwapMaps(map[], x.active, y.active);
    hide FileAt;
    SameFiles(Merged(x, y), Merged(y, x));
  }

  lemma SwapJoined(slot: Option<Manager>, x: Manager, y: Manager)
    requires Apart(x, y)
    ensures Joined(Joined(slot, x), y) == Joined(Joined(slot, y), x)
  {
    hide Merged, Apart;
    if slot.Some? {
      SwapMerged(slot.value, x, y);
    } else {
      SwapFirst(x, y);
    }
  }

  /** One answer may be moved to the end. */
  lemma {:induction false} MoveLast(a: seq<Manager>, x: Manager, b: seq<Manager>)
    requires forall i :: 0 <= i < |b| ==> Apart(x, b[i])
    ensures All(a + [x] + b) == Joined(All(a + b), x)
    decreases |b|
  {
    hide Apart, Joined;
    if b == [] {
      assert a + [x] + b == a + [x] && a + b == a;
      AllSnoc(a, x);
    } else {
      var init, y := b[..|b| - 1], b[|b| - 1];
      assert forall i :: 0 <= i < |init| ==> init[i] == b[i];
      MoveLast(a, x, init);
      assert a + [x] + b == (a + [x] + init) + [y] && a + b == (a + init) + [y];
      AllSnoc(a + [x] + init, y);
      AllSnoc(a + init, y);
      SwapJoined(All(a + init), x, y);
    }
  }

  /** Answers of different managers merge to one result, in whatever order they came. */
  lemma {:induction false} MergeAnyOrder(a: seq<Manager>, b: seq<Manager>)
    requires OwnIds(b) && multiset(a) == multiset(b)
    ensures All(a) == All(b)
    decreases |a|
  {
    hide Apart, Joined, All, OwnIds;
    if a == [] {
      Shuffles.Lengths(a, b);
    } else {
      var init, x := a[..|a| - 1], a[|a| - 1];
      assert a == init + [x];
      var k := Shuffles.Picked(init, x, b);
      var front, back := b[..k], b[k + 1..];
      OwnWithout(b, k);
      assert forall i :: 0 <= i < |back| ==> back[i] == b[k + 1 + i];
      MergeAnyOrder(init, front + back);
      MoveLast(front, x, back);
      AllSnoc(init, x);
    }
  }

  lemma OwnWithout(b: seq<Manager>, k: nat)
    requires OwnIds(b) && k < |b|
    ensures OwnIds(b[..k] + b[k + 1..])
    ensures forall i :: k < i < |b| ==> Apart(b[k], b[i])
  {
    hide Apart;
    var c := b[..k] + b[k + 1..];
    forall i, j | 0 <= i < j < |c| ensures Apart(c[i], c[j]) {
      assert c[i] == b[if i < k then i else i + 1] && c[j] == b[if j < k then j else j + 1];
    }
  }
}
