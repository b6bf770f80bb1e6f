/** Outward permissions: the closed vocabulary, nested scopes, and the ledger of suppressed actions. */
module Outward {
  import opened Core

  const OUTWARD_ACTIONS: set<string> := {
    "git_push", "forge_pr", "forge_merge", "forge_issue", "forge_release", "notify", "vault_write", "external_api"
  }

  const LEDGER_MAX: nat := 512

  // ---------------------------------------------------------------- permissions

  datatype Permission = Permission(allowed: set<string>, restricted: bool, tag: string) {
    predicate Allows(action: string) {
      action in OUTWARD_ACTIONS && (!restricted || action in allowed)
    }

    function Narrow(other: Option<Permission>): Permission {
      match other
      case None => this
      case Some(o) =>
        if !restricted then o
        else if !o.restricted then this
        else Permission(allowed * o.allowed, true, if o.tag != "" then o.tag else tag)
    }
  }

  const UNRESTRICTED := Permission(OUTWARD_ACTIONS, false, "")

  function RestrictedTo(actions: set<string>, tag: string): (p: Permission)
    ensures forall a :: p.Allows(a) <==> a in actions && a in OUTWARD_ACTIONS
  {
    Permission(actions * OUTWARD_ACTIONS, true, tag)
  }

  /** Everything `p` allows, `q` allows. */
  ghost predicate AtMost(p: Permission, q: Permission) {
    forall a :: p.Allows(a) ==> q.Allows(a)
  }

  /** Narrowing is the meet: below both operands, and above whatever is below both. */
  lemma NarrowIsTheMeet(p: Permission, q: Permission, r: Permission)
    ensures AtMost(p.Narrow(Some(q)), p) && AtMost(p.Narrow(Some(q)), q)
    ensures AtMost(r, p.Narrow(Some(q))) <==> AtMost(r, p) && AtMost(r, q)
    ensures AtMost(p.Narrow(Some(q)), q.Narrow(Some(p))) && AtMost(p, p.Narrow(Some(p)))
  {
    if AtMost(r, p) && AtMost(r, q) {
      forall a | r.Allows(a) ensures p.Narrow(Some(q)).Allows(a) {
        assert p.Allows(a) && q.Allows(a);
      }
    }
    if AtMost(r, p.Narrow(Some(q))) {
      forall a | r.Allows(a) ensures p.Allows(a) && q.Allows(a) {
        assert p.Narrow(Some(q)).Allows(a);
      }
    }
  }

  /** Associative to the letter, labels included; commutative only up to the label. */
  lemma NarrowAssociates(p: Permission, q: Permission, r: Permission)
    ensures p.Narrow(Some(q)).Narrow(Some(r)) == p.Narrow(Some(q.Narrow(Some(r))))
  {
    assert p.allowed * q.allowed * r.allowed == p.allowed * (q.allowed * r.allowed);
  }

  // ---------------------------------------------------------------- what scopes mean

  /** Code that opens scopes, asks, raises, and hands work to threads. */
  datatype Program =
    | Permits(action: string, surface: string)          // ask; a denial is recorded
    | Enforce(action: string, surface: string)          // ask; a denial is recorded and raised
    | Raise
    | Then(first: Program, second: Program)
    | Catch(body: Program)                              // try / except
    | Scoped(permission: Option<Permission>, body: Program)
    | Worker(body: Program)                             // a thread that adopts the captured permission
    | Both(left: Program, right: Program)               // two such threads at once, both waited for
    | Detached(body: Program)                           // a thread that does not

  /** One answer of `permits` or `enforce`. */
  datatype Answer = Answer(action: string, surface: string, allowed: bool, tag: string)

  datatype Outcome = Outcome(raised: bool, answers: seq<Answer>)

  /** In the vocabulary, and allowed by every enclosing scope that names a permission. */
  predicate AllAllow(enclosing: seq<Option<Permission>>, action: string) {
    action in OUTWARD_ACTIONS && forall i :: 0 <= i < |enclosing| && enclosing[i].Some? ==>
      enclosing[i].value.Allows(action)
  }

  /** The permission in force inside the enclosing scopes, outermost first. */
  function Effective(enclosing: seq<Option<Permission>>): Permission {
    if enclosing == [] then UNRESTRICTED
    else Effective(enclosing[..|enclosing| - 1]).Narrow(enclosing[|enclosing| - 1])
  }

  lemma EffectiveInside(enclosing: seq<Option<Permission>>, permission: Option<Permission>)
    ensures Effective(enclosing + [permission]) == Effective(enclosing).Narrow(permission)
    ensures Effective([]) == UNRESTRICTED
  {
    assert (enclosing + [permission])[..|enclosing|] == enclosing;
  }

  /** An action is allowed exactly when it is known and every enclosing permission allows it. */
  lemma {:induction false} AllowedIffAllAllow(enclosing: seq<Option<Permission>>, action: string)
    ensures Effective(enclosing).Allows(action) <==> AllAllow(enclosing, action)
  {
    if enclosing != [] {
      var outer, inner := enclosing[..|enclosing| - 1], enclosing[|enclosing| - 1];
      AllowedIffAllAllow(outer, action);
      assert enclosing == outer + [inner];
      assert AllAllow(enclosing, action) <==> AllAllow(outer, action) && (inner.Some? ==> inner.value.Allows(action));
    }
  }

  /** The label of the innermost restriction that has one. */
  function InnermostLabel(enclosing: seq<Option<Permission>>): string {
    if enclosing == [] then ""
    else
      var inner := enclosing[|enclosing| - 1];
      if inner.Some? && inner.value.restricted && inner.value.tag != "" then inner.value.tag
      else InnermostLabel(enclosing[..|enclosing| - 1])
  }

  /** A denial is labelled by the innermost restriction around it that has a label; permissions that
      restrict nothing lend no label. */
  lemma {:induction false} LabelIsTheInnermost(enclosing: seq<Option<Permission>>)
    requires forall p :: Some(p) in enclosing && !p.restricted ==> p.tag == ""
    ensures Effective(enclosing).tag == InnermostLabel(enclosing)
    ensures Effective(enclosing).restricted <==> exists p :: Some(p) in enclosing && p.restricted
    ensures !Effective(enclosing).restricted ==> InnermostLabel(enclosing) == ""
  {
    if enclosing != [] {
      var outer, inner := enclosing[..|enclosing| - 1], enclosing[|enclosing| - 1];
      LabelIsTheInnermost(outer);
      assert enclosing == outer + [inner];
    }
  }

  function Asked(action: string, surface: string, enclosing: seq<Option<Permission>>): Answer {
    Answer(action, surface, AllAllow(enclosing, action), Effective(enclosing).tag)
  }

  /** What a program does, told from the scopes around it and without an ambient variable. */
  function Meaning(p: Program, enclosing: seq<Option<Permission>>): Outcome {
    match p
    case Permits(action, surface) => Outcome(false, [Asked(action, surface, enclosing)])
    case Enforce(action, surface) => Outcome(!AllAllow(enclosing, action), [Asked(action, surface, enclosing)])
    case Raise => Outcome(true, [])
    case Then(first, second) =>
      var o := Meaning(first, enclosing);
      if o.raised then o
      else
        var o' := Meaning(second, enclosing);
        Outcome(o'.raised, o.answers + o'.answers)
    case Catch(body) => Outcome(false, Meaning(body, enclosing).answers)
    case Scoped(permission, body) => Meaning(body, enclosing + [permission])
    case Worker(body) => Meaning(body, enclosing)
    case Both(left, right) =>
      var l, r := Meaning(left, enclosing), Meaning(right, enclosing);
      Outcome(l.raised || r.raised, l.answers + r.answers)
    case Detached(body) => Outcome(false, Meaning(body, []).answers)
  }

  predicate NoDetached(p: Program) {
    match p
    case Then(first, second) => NoDetached(first) && NoDetached(second)
    case Catch(body) => NoDetached(body)
    case Scoped(_, body) => NoDetached(body)
    case Worker(body) => NoDetached(body)
    case Both(left, right) => NoDetached(left) && NoDetached(right)
    case Detached(_) => false
    case _ => true
  }

  /** Nothing that runs inside scopes, at any depth and on any adopting thread, is allowed more
      than the scopes around it allow. */
  lemma {:induction false} NothingEscapes(p: Program, enclosing: seq<Option<Permission>>, i: nat)
    requires NoDetached(p) && i < |Meaning(p, enclosing).answers|
    ensures var a := Meaning(p, enclosing).answers[i]; a.allowed ==> AllAllow(enclosing, a.action)
    decreases p
  {
    match p
    case Then(first, second) =>
      var n := |Meaning(first, enclosing).answers|;
      if i < n {
        NothingEscapes(first, enclosing, i);
      } else {
        NothingEscapes(second, enclosing, i - n);
      }
    case Catch(body) => NothingEscapes(body, enclosing, i);
    case Scoped(permission, body) =>
      NothingEscapes(body, enclosing + [permission], i);
      var a := Meaning(p, enclosing).answers[i];
      if a.allowed {
        assert forall k :: 0 <= k < |enclosing| ==> (enclosing + [permission])[k] == enclosing[k];
      }
    case Worker(body) => NothingEscapes(body, enclosing, i);
    case Both(left, right) =>
      var n := |Meaning(left, enclosing).answers|;
      if i < n {
        NothingEscapes(left, enclosing, i);
      } else {
        NothingEscapes(right, enclosing, i - n);
      }
    case _ =>
  }

  /** A thread that forgets to adopt is not restricted at all. */
  lemma DetachedEscapes(action: string, surface: string)
    requires action in OUTWARD_ACTIONS
    ensures var nothing := Some(RestrictedTo({}, ""));
      && Meaning(Scoped(nothing, Worker(Permits(action, surface))), []).answers == [Answer(action, surface, false, "")]
      && Meaning(Scoped(nothing, Detached(Permits(action, surface))), []).answers == [Answer(action, surface, true, "")]
  {
    var nothing := Some(RestrictedTo({}, ""));
    assert [] + [nothing] == [nothing];
    assert !nothing.value.Allows(action);
    assert [nothing][0] == nothing;
    assert Effective([nothing]) == UNRESTRICTED.Narrow(nothing);
    assert !AllAllow([nothing], action);
    assert Meaning(Permits(action, surface), [nothing]).answers == [Asked(action, surface, [nothing])];
    assert AllAllow([], action) && Effective([]) == UNRESTRICTED;
    assert Meaning(Permits(action, surface), []).answers == [Asked(action, surface, [])];
    assert Meaning(Detached(Permits(action, surface)), [nothing]).answers == [Asked(action, surface, [])];
  }

  // ---------------------------------------------------------------- the ledger

  datatype Event = Event(number: nat, action: string, surface: string, tag: string)

  function Last<T>(s: seq<T>, n: nat): (r: seq<T>)
    ensures |r| == if |s| <= n then |s| else n
    ensures r == s[|s| - |r|..]
  {
    if |s| <= n then s else s[|s| - n..]
  }

  /** A task whose threads share the process-wide ledger with those of other tasks. */
  type TaskId = nat

  /** The denials among the answers. */
  function Denied(answers: seq<Answer>): seq<Answer> {
    if answers == [] then []
    else
      var last := answers[|answers| - 1];
      Denied(answers[..|answers| - 1]) + if last.allowed then [] else [last]
  }

  lemma {:induction false} DeniedAppend(a: seq<Answer>, b: seq<Answer>)
    ensures Denied(a + b) == Denied(a) + Denied(b)
  {
    if b == [] {
      assert a + b == a;
    } else {
      assert (a + b)[..|a + b| - 1] == a + b[..|b| - 1];
      DeniedAppend(a, b[..|b| - 1]);
    }
  }

  /** What one task has put into the ledger. */
  function Recorded(history: seq<Event>, owners: seq<TaskId>, task: TaskId): seq<Answer>
    requires |history| == |owners|
  {
    if history == [] then []
    else
      var n := |history| - 1;
      var e := history[n];
      Recorded(history[..n], owners[..n], task) + if owners[n] == task then [Answer(e.action, e.surface, false, e.tag)]
        else []
  }

  lemma RecordedNext(history: seq<Event>, owners: seq<TaskId>, e: Event, owner: TaskId, task: TaskId)
    requires |history| == |owners|
    ensures Recorded(history + [e], owners + [owner], task) ==
      Recorded(history, owners, task) + if owner == task then [Answer(e.action, e.surface, false, e.tag)] else []
  {
    assert (history + [e])[..|history|] == history && (owners + [owner])[..|owners|] == owners;
  }

  lemma {:induction false} RecordedAppend(h: seq<Event>, o: seq<TaskId>, h': seq<Event>, o': seq<TaskId>, task: TaskId)
    requires |h| == |o| && |h'| == |o'|
    ensures Recorded(h + h', o + o', task) == Recorded(h, o, task) + Recorded(h', o', task)
  {
    if h' == [] {
      assert h + h' == h && o + o' == o;
    } else {
      var n := |h'| - 1;
      RecordedAppend(h, o, h'[..n], o'[..n], task);
      assert h + h' == (h + h'[..n]) + [h'[n]] && o + o' == (o + o'[..n]) + [o'[n]];
      RecordedNext(h + h'[..n], o + o'[..n], h'[n], o'[n], task);
    }
  }

  /** How many of the answers are about this action. */
  function CountOf(answers: seq<Answer>, action: string): nat {
    if answers == [] then 0
    else CountOf(answers[..|answers| - 1], action) + if answers[|answers| - 1].action == action then 1 else 0
  }

  lemma CountOfNext(answers: seq<Answer>, a: Answer, action: string)
    ensures CountOf(answers + [a], action) == CountOf(answers, action) + if a.action == action then 1 else 0
  {
    assert (answers + [a])[..|answers|] == answers;
  }

  /** How many events of other tasks are about this action. */
  function CountOthers(history: seq<Event>, owners: seq<TaskId>, task: TaskId, action: string): nat
    requires |history| == |owners|
  {
    if history == [] then 0
    else
      var n := |history| - 1;
      CountOthers(history[..n], owners[..n], task, action) + if owners[n] != task && history[n].action == action then 1
        else 0
  }

  /** A count is the task's own part plus everybody else's. */
  lemma {:induction false} CountsSplit(history: seq<Event>, owners: seq<TaskId>, task: TaskId, action: string)
    requires |history| == |owners|
    ensures CountIn(history, action) ==
      CountOf(Recorded(history, owners, task), action) + CountOthers(history, owners, task, action)
  {
    if history != [] {
      var n := |history| - 1;
      var e := history[n];
      CountsSplit(history[..n], owners[..n], task, action);
      var earlier := Recorded(history[..n], owners[..n], task);
      CountOfNext(earlier, Answer(e.action, e.surface, false, e.tag), action);
      assert earlier + [] == earlier;
    }
  }

  lemma {:induction false} OthersAreCounted(history: seq<Event>, owners: seq<TaskId>, task: TaskId, i: nat)
    requires i < |history| == |owners| && owners[i] != task
    ensures CountOthers(history, owners, task, history[i].action) > 0
  {
    var n := |history| - 1;
    if i < n {
      OthersAreCounted(history[..n], owners[..n], task, i);
    }
  }

  lemma {:induction false} NoOthersToCount(history: seq<Event>, owners: seq<TaskId>, task: TaskId, action: string)
    requires |history| == |owners| && forall i :: 0 <= i < |owners| ==> owners[i] == task
    ensures CountOthers(history, owners, task, action) == 0
  {
    if history != [] {
      NoOthersToCount(history[..|history| - 1], owners[..|owners| - 1], task, action);
    }
  }

  /** The counts of a stretch of the ledger are the task's own denials in it exactly when nobody
      else recorded in it. */
  lemma CountsAreOwnIff(history: seq<Event>, owners: seq<TaskId>, task: TaskId)
    requires |history| == |owners|
    ensures (forall a :: CountIn(history, a) == CountOf(Recorded(history, owners, task), a))
      <==> forall i :: 0 <= i < |owners| ==> owners[i] == task
  {
    if forall i :: 0 <= i < |owners| ==> owners[i] == task {
      forall a ensures CountIn(history, a) == CountOf(Recorded(history, owners, task), a) {
        CountsSplit(history, owners, task, a);
        NoOthersToCount(history, owners, task, a);
      }
    } else {
      var i :| 0 <= i < |owners| && owners[i] != task;
      OthersAreCounted(history, owners, task, i);
      CountsSplit(history, owners, task, history[i].action);
      assert CountIn(history, history[i].action) != CountOf(Recorded(history, owners, task), history[i].action);
    }
  }

  /** Of the events from `first` up to `n`, those with a number above the mark. */
  function After(history: seq<Event>, first: nat, n: nat, mark: nat): seq<Event>
    requires first <= n <= |history|
  {
    if n == first then []
    else After(history, first, n - 1, mark) + if history[n - 1].number > mark then [history[n - 1]] else []
  }

  ghost predicate Numbered(history: seq<Event>) {
    forall i :: 0 <= i < |history| ==> history[i].number == i + 1
  }

  function Max(a: nat, b: nat): nat { if a < b then b else a }

  lemma SliceNext(history: seq<Event>, lo: nat, n: nat)
    requires lo <= n < |history|
    ensures history[lo..n + 1] == history[lo..n] + [history[n]]
  {
  }

  /** Of consecutively numbered events, those above the mark are a suffix. */
  lemma {:induction false} AfterIs(history: seq<Event>, first: nat, n: nat, mark: nat)
    requires first <= n <= |history| && Numbered(history)
    ensures After(history, first, n, mark) == if n <= mark then [] else history[Max(mark, first)..n]
  {
    if first < n {
      AfterIs(history, first, n - 1, mark);
      if n > mark {
        SliceNext(history, Max(mark, first), n - 1);
      }
    }
  }

  lemma AfterIsASuffix(history: seq<Event>, first: nat, mark: nat)
    requires Numbered(history) && first == |history| - |Last(history, LEDGER_MAX)|
    ensures mark <= |history| ==> After(history, first, |history|, mark) == Last(history[mark..], LEDGER_MAX)
    ensures mark > |history| ==> After(history, first, |history|, mark) == []
  {
    hide After;
    AfterIs(history, first, |history|, mark);
    if mark <= |history| {
      LastOfSuffix(history, mark);
    }
  }

  lemma LastOfSuffix(history: seq<Event>, mark: nat)
    requires mark <= |history|
    ensures Last(history[mark..], LEDGER_MAX) == history[Max(mark, |history| - |Last(history, LEDGER_MAX)|)..]
  {
  }

  /** How many of the events suppressed this action. */
  function CountIn(events: seq<Event>, action: string): nat {
    if events == [] then 0
    else CountIn(events[..|events| - 1], action) + if events[|events| - 1].action == action then 1 else 0
  }

  /** The sum of all counts. */
  ghost function Total(counts: map<string, nat>): nat {
    if counts == map[] then 0
    else
      var k :| k in counts;
      counts[k] + Total(counts - {k})
  }

  lemma {:induction false} TotalWithout(counts: map<string, nat>, k: string)
    requires k in counts
    ensures Total(counts) == counts[k] + Total(counts - {k})
    decreases |counts|
  {
    var j :| j in counts && Total(counts) == counts[j] + Total(counts - {j});
    if j != k {
      TotalWithout(counts - {j}, k);
      TotalWithout(counts - {k}, j);
      assert counts - {j} - {k} == counts - {k} - {j};
    }
  }

  /** Adding one to one count adds one to the sum. */
  lemma TotalPlusOne(counts: map<string, nat>, k: string)
    ensures Total(counts[k := (if k in counts then counts[k] else 0) + 1]) == Total(counts) + 1
  {
    var more := counts[k := (if k in counts then counts[k] else 0) + 1];
    TotalWithout(more, k);
    if k in counts {
      TotalWithout(counts, k);
      assert more - {k} == counts - {k};
    } else {
      assert more - {k} == counts;
    }
  }

  /** The counts of the events, without zero entries. */
  ghost predicate Counted(counts: map<string, nat>, events: seq<Event>) {
    && (forall a :: (if a in counts then counts[a] else 0) == CountIn(events, a))
    && (forall a :: a in counts ==> counts[a] > 0)
  }

  lemma CountedNothing()
    ensures Counted(map[], []) && Total(map[]) == 0
  {
  }

  lemma CountedNext(counts: map<string, nat>, events: seq<Event>, i: nat)
    requires i < |events| && Counted(counts, events[..i])
    ensures var action := events[i].action;
      Counted(counts[action := (if action in counts then counts[action] else 0) + 1], events[..i + 1])
  {
    assert events[..i + 1][..i] == events[..i];
  }

  /** The bounded log of denials. `history` is what has ever been recorded. */
  class Ledger {
    var events: seq<Event>
    var last: nat
    ghost var history: seq<Event>
    ghost var owners: seq<TaskId>               // the task that recorded each event

    /** Numbers run from 1 without a gap, and the log holds the last 512 events. */
    ghost predicate Valid()
      reads this
    {
      && last == |history| == |owners|
      && Numbered(history)
      && events == Last(history, LEDGER_MAX)
    }

    constructor ()
      ensures Valid() && history == []
    {
      events, last, history, owners := [], 0, [], [];
    }

    method Record(action: string, surface: string, permission: Permission, ghost task: TaskId)
      requires Valid()
      modifies this
      ensures Valid() && history == old(history) + [Event(|old(history)| + 1, action, surface, permission.tag)]
      ensures owners == old(owners) + [task]
    {
      last := last + 1;
      ghost var before := events;
      events := events + [Event(last, action, surface, permission.tag)];
      history, owners := history + [Event(last, action, surface, permission.tag)], owners + [task];
      if |events| > LEDGER_MAX {
        events := events[1..];
      }
    }

    method Mark() returns (m: nat)
      requires Valid()
      ensures m == |history|
    {
      return last;
    }

    /** Everything recorded after the mark, as far as the log still holds it. */
    method SuppressionsSince(mark: nat) returns (r: seq<Event>)
      requires Valid()
      ensures mark <= |history| ==> r == Last(history[mark..], LEDGER_MAX)
      ensures mark > |history| ==> r == []
    {
      hide Numbered, Last;
      r := [];
      var i := 0;
      ghost var first := |history| - |events|;
      while i < |events|
        invariant 0 <= i <= |events|
        invariant r == After(history, first, first + i, mark)
      {
        assert events[i] == history[first + i];
        if events[i].number > mark {
          r := r + [events[i]];
        }
        i := i + 1;
      }
      AfterIsASuffix(history, first, mark);
    }

    /** Counts per action since the mark; together they are as many as the events still held. */
    method SummariseSuppressions(mark: nat) returns (counts: map<string, nat>)
      requires Valid()
      ensures mark <= |history| ==> Counted(counts, Last(history[mark..], LEDGER_MAX))
      ensures mark <= |history| ==>
        Total(counts) == if |history| - mark <= LEDGER_MAX then |history| - mark else LEDGER_MAX
      ensures mark > |history| ==> counts == map[]
    {
      hide Counted, Total;
      var since := SuppressionsSince(mark);
      CountedNothing();
      assert since[..0] == [];
      counts := map[];
      var i := 0;
      while i < |since|
        invariant 0 <= i <= |since|
        invariant Counted(counts, since[..i])
        invariant Total(counts) == i
        invariant i == 0 ==> counts == map[]
      {
        var action := since[i].action;
        TotalPlusOne(counts, action);
        CountedNext(counts, since, i);
        counts := counts[action := (if action in counts then counts[action] else 0) + 1];
        i := i + 1;
      }
      assert since[..|since|] == since;
    }
  }

  // ---------------------------------------------------------------- the ambient variable

  /** A thread: its own value of the context variable. */
  class Thread {
    var current: Option<Permission>

    constructor ()
      ensures current == None
    {
      current := None;
    }

    function Current(): Permission
      reads this
    {
      if current.Some? then current.value else UNRESTRICTED
    }
  }

  /** Between two of this task's records, other tasks may record any number of denials. */
  method OthersRecord(ledger: Ledger, ghost task: TaskId)
    requires ledger.Valid()
    modifies ledger
    ensures ledger.Valid() && old(ledger.history) <= ledger.history && old(ledger.owners) <= ledger.owners
    ensures Recorded(ledger.history, ledger.owners, task) == old(Recorded(ledger.history, ledger.owners, task))
  {
    var n: int := *;
    for i := 0 to if n < 0 then 0 else n
      invariant ledger.Valid() && old(ledger.history) <= ledger.history && old(ledger.owners) <= ledger.owners
      invariant Recorded(ledger.history, ledger.owners, task) == old(Recorded(ledger.history, ledger.owners, task))
    {
      var action: string, surface: string, permission: Permission := *, *, *;
      ghost var other: int := *;
      ghost var owner := if other < 0 || other == task then task + 1 else other;
      ghost var h, o := ledger.history, ledger.owners;
      ledger.Record(action, surface, permission, owner);
      RecordedNext(h, o, ledger.history[|h|], owner, task);
    }
  }

  /** `permits`: the answer, with every denial in the ledger, whoever else records meanwhile. */
  method AskPermits(t: Thread, ledger: Ledger, action: string, surface: string,
                    ghost enclosing: seq<Option<Permission>>, ghost task: TaskId)
    returns (allowed: bool)
    requires ledger.Valid() && t.Current() == Effective(enclosing)
    modifies ledger
    ensures ledger.Valid() && allowed == AllAllow(enclosing, action)
    ensures old(ledger.history) <= ledger.history && old(ledger.owners) <= ledger.owners
    ensures Recorded(ledger.history, ledger.owners, task) ==
      old(Recorded(ledger.history, ledger.owners, task)) + Denied([Asked(action, surface, enclosing)])
    ensures Recorded(ledger.history, ledger.owners, task) ==
      old(Recorded(ledger.history, ledger.owners, task)) +
      if AllAllow(enclosing, action) then [] else [Answer(action, surface, false, Effective(enclosing).tag)]
  {
    AllowedIffAllAllow(enclosing, action);
    OthersRecord(ledger, task);
    var permission := t.Current();
    if permission.Allows(action) {
      return true;
    }
    ghost var h, o := ledger.history, ledger.owners;
    ledger.Record(action, surface, permission, task);
    RecordedNext(h, o, ledger.history[|h|], task, task);
    return false;
  }

  /** Running a program with the ambient variable and the ledger gives its meaning, and leaves the
      variable as it was, whether or not the program raises. The task's records are its denials,
      whatever other tasks record in between. */
  method Run(t: Thread, ledger: Ledger, p: Program, ghost enclosing: seq<Option<Permission>>, ghost task: TaskId)
    returns (raised: bool, ghost answers: seq<Answer>)
    requires ledger.Valid() && t.Current() == Effective(enclosing)
    modifies t, ledger
    ensures t.current == old(t.current)
    ensures Outcome(raised, answers) == Meaning(p, enclosing)
    ensures ledger.Valid() && old(ledger.history) <= ledger.history && old(ledger.owners) <= ledger.owners
    ensures Recorded(ledger.history, ledger.owners, task) ==
      old(Recorded(ledger.history, ledger.owners, task)) + Denied(answers)
    decreases p, 0
  {
    hide Recorded, Denied, Effective, AllAllow;
    match p
    case Permits(action, surface) =>
      var allowed := AskPermits(t, ledger, action, surface, enclosing, task);
      return false, [Asked(action, surface, enclosing)];
    case Enforce(action, surface) =>
      var allowed := AskPermits(t, ledger, action, surface, enclosing, task);
      return !allowed, [Asked(action, surface, enclosing)];
    case Raise =>
      DeniedNothing();
      return true, [];
    case Then(first, second) =>
      raised, answers := Run(t, ledger, first, enclosing, task);
      if !raised {
        ghost var more;
        raised, more := Run(t, ledger, second, enclosing, task);
        DeniedAppend(answers, more);
        answers := answers + more;
      }
    case Catch(body) =>
      raised, answers := Run(t, ledger, body, enclosing, task);
      raised := false;
    case Scoped(permission, body) =>
      var effective := t.Current().Narrow(permission);
      var token := t.current;
      t.current := Some(effective);
      EffectiveInside(enclosing, permission);
      raised, answers := Run(t, ledger, body, enclosing + [permission], task);
      t.current := token;
    case Worker(body) =>
      raised, answers := RunWorker(t, ledger, body, enclosing, task);
    case Both(left, right) =>
      raised, answers := RunWorker(t, ledger, left, enclosing, task);
      ghost var more;
      var other;
      other, more := RunWorker(t, ledger, right, enclosing, task);
      DeniedAppend(answers, more);
      raised, answers := raised || other, answers + more;
    case Detached(body) =>
      var worker := new Thread();
      EffectiveInside([], None);
      raised, answers := Run(worker, ledger, body, [], task);
      raised := false;
  }

  /** A worker thread that adopts what its parent captured. */
  method RunWorker(t: Thread, ledger: Ledger, body: Program, ghost enclosing: seq<Option<Permission>>,
                   ghost task: TaskId)
    returns (raised: bool, ghost answers: seq<Answer>)
    requires ledger.Valid() && t.Current() == Effective(enclosing)
    modifies ledger
    ensures Outcome(raised, answers) == Meaning(body, enclosing)
    ensures ledger.Valid() && old(ledger.history) <= ledger.history && old(ledger.owners) <= ledger.owners
    ensures Recorded(ledger.history, ledger.owners, task) ==
      old(Recorded(ledger.history, ledger.owners, task)) + Denied(answers)
    decreases body, 1
  {
    hide Recorded, Denied, Effective, AllAllow;
    var captured := t.Current();
    var worker := new Thread();
    worker.current := Some(captured);
    raised, answers := Run(worker, ledger, body, enclosing, task);
  }

  lemma DeniedNothing()
    ensures Denied([]) == []
  {
  }

  /** Nobody but `task` recorded in this stretch. */
  ghost predicate OnlyBy(owners: seq<TaskId>, task: TaskId) {
    forall i :: 0 <= i < |owners| ==> owners[i] == task
  }

  /** A task dispatch: mark the ledger, run, and summarise what was suppressed since. The ledger is
      shared by all tasks, so the counts are those of everything recorded in between, up to the last
      512 events; they are this task's own denials exactly when nobody else recorded in between. */
  method Dispatch(t: Thread, ledger: Ledger, p: Program, ghost enclosing: seq<Option<Permission>>, ghost task: TaskId)
    returns (raised: bool, counts: map<string, nat>)
    requires ledger.Valid() && t.Current() == Effective(enclosing)
    modifies t, ledger
    ensures t.current == old(t.current) && ledger.Valid()
    ensures raised == Meaning(p, enclosing).raised
    ensures old(ledger.history) <= ledger.history && old(ledger.owners) <= ledger.owners
    ensures var window, whose := ledger.history[|old(ledger.history)|..], ledger.owners[|old(ledger.history)|..];
      && Counted(counts, Last(window, LEDGER_MAX))
      && Total(counts) == (if |window| <= LEDGER_MAX then |window| else LEDGER_MAX)
      && Recorded(window, whose, task) == Denied(Meaning(p, enclosing).answers)
      && (|window| <= LEDGER_MAX ==> (Counts(counts, Denied(Meaning(p, enclosing).answers)) <==> OnlyBy(whose, task)))
      && (Counts(counts, Recorded(Last(window, LEDGER_MAX), Last(whose, LEDGER_MAX), task)) <==>
          OnlyBy(Last(whose, LEDGER_MAX), task))
  {
    hide Recorded, Denied, Effective, AllAllow, Counted, Total, CountOf;
    var mark := ledger.Mark();
    ghost var answers;
    raised, answers := Run(t, ledger, p, enclosing, task);
    ghost var h0, o0, h1, o1 := old(ledger.history), old(ledger.owners), ledger.history, ledger.owners;
    OthersRecord(ledger, task);
    ghost var window, whose := ledger.history[mark..], ledger.owners[mark..];
    assert ledger.history == h0 + window && ledger.owners == o0 + whose;
    RecordedAppend(h0, o0, window, whose, task);
    Cancel(Recorded(h0, o0, task), Recorded(window, whose, task), Denied(answers));
    counts := ledger.SummariseSuppressions(mark);
    CountsOfWindow(counts, Last(window, LEDGER_MAX), Last(whose, LEDGER_MAX), task);
  }

  lemma Cancel(a: seq<Answer>, b: seq<Answer>, c: seq<Answer>)
    requires a + b == a + c
    ensures b == c
  {
    assert b == (a + b)[|a|..] == (a + c)[|a|..] == c;
  }

  /** The counts are those of these answers. */
  ghost predicate Counts(counts: map<string, nat>, answers: seq<Answer>) {
    forall a :: (if a in counts then counts[a] else 0) == CountOf(answers, a)
  }

  lemma CountsOfWindow(counts: map<string, nat>, held: seq<Event>, whose: seq<TaskId>, task: TaskId)
    requires |held| == |whose| && Counted(counts, held)
    ensures Counts(counts, Recorded(held, whose, task)) <==> OnlyBy(whose, task)
  {
    CountsAreOwnIff(held, whose, task);
    var own := Recorded(held, whose, task);
    if Counts(counts, own) {
      forall a ensures CountIn(held, a) == CountOf(own, a) {
        assert (if a in counts then counts[a] else 0) == CountOf(own, a);
      }
    }
    if OnlyBy(whose, task) {
      forall a ensures (if a in counts then counts[a] else 0) == CountOf(own, a) {
        assert CountIn(held, a) == CountOf(own, a);
      }
    }
  }
}
