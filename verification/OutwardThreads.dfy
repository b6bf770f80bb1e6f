/** All tasks and all their threads at once: any interleaving of their steps, one shared ledger. */
module OutwardThreads {
  import opened Core
  import opened Outward

  /** Code in the middle of its execution. A scope remembers the token that its exit puts back; a
      parent waits for its two worker threads, each with a context variable of its own. */
  datatype Code =
    | Ready(program: Program)
    | Ended(raised: bool)
    | InThen(first: Code, second: Program)
    | InCatch(body: Code)
    | InScope(token: Option<Permission>, body: Code)
    | Waiting(left: Fiber, right: Fiber)

  /** One thread: its value of the context variable and its code. */
  datatype Fiber = Fiber(current: Option<Permission>, code: Code)

  function InForce(current: Option<Permission>): Permission {
    if current.Some? then current.value else UNRESTRICTED
  }

  /** What one step does: the new thread, and the answer if it asked for one. */
  datatype Moved = Moved(fiber: Fiber, answer: Option<Answer>)

  function AnswerOf(current: Option<Permission>, action: string, surface: string): Answer {
    Answer(action, surface, InForce(current).Allows(action), InForce(current).tag)
  }

  const IDLE := Fiber(None, Ended(false))

  function Begin(current: Option<Permission>, p: Program): Moved {
    match p
    case Permits(action, surface) => Moved(Fiber(current, Ended(false)), Some(AnswerOf(current, action, surface)))
    case Enforce(action, surface) =>
      var a := AnswerOf(current, action, surface);
      Moved(Fiber(current, Ended(!a.allowed)), Some(a))
    case Raise => Moved(Fiber(current, Ended(true)), None)
    case Then(first, second) => Moved(Fiber(current, InThen(Ready(first), second)), None)
    case Catch(body) => Moved(Fiber(current, InCatch(Ready(body))), None)
    case Scoped(permission, body) =>
      Moved(Fiber(Some(InForce(current).Narrow(permission)), InScope(current, Ready(body))), None)
    case Worker(body) =>
      Moved(Fiber(current, Waiting(Fiber(Some(InForce(current)), Ready(body)), IDLE)), None)
    case Both(left, right) =>
      var captured := Some(InForce(current));
      Moved(Fiber(current, Waiting(Fiber(captured, Ready(left)), Fiber(captured, Ready(right)))), None)
    case Detached(body) => Moved(Fiber(current, InCatch(Waiting(Fiber(None, Ready(body)), IDLE))), None)
  }

  /** One step of a thread or of one of its workers, which `path` picks; None when that one cannot
      move. */
  function Step(current: Option<Permission>, code: Code, path: seq<bool>): Option<Moved>
    decreases code
  {
    match code
    case Ready(p) => Some(Begin(current, p))
    case Ended(_) => None
    case InThen(first, second) =>
      if first.Ended? then Some(Moved(Fiber(current, if first.raised then first else Ready(second)), None))
      else Inside(Step(current, first, path), c => InThen(c, second))
    case InCatch(body) =>
      if body.Ended? then Some(Moved(Fiber(current, Ended(false)), None))
      else Inside(Step(current, body, path), c => InCatch(c))
    case InScope(token, body) =>
      if body.Ended? then Some(Moved(Fiber(token, body), None))
      else Inside(Step(current, body, path), c => InScope(token, c))
    case Waiting(left, right) =>
      if left.code.Ended? && right.code.Ended? then
        Some(Moved(Fiber(current, Ended(left.code.raised || right.code.raised)), None))
      else if path == [] then None
      else
        var moved := if path[0] then Step(left.current, left.code, path[1..])
          else Step(right.current, right.code, path[1..]);
        if moved.None? then None
        else
          var next := if path[0] then Waiting(moved.value.fiber, right) else Waiting(left, moved.value.fiber);
          Some(Moved(Fiber(current, next), moved.value.answer))
  }

  function Inside(m: Option<Moved>, wrap: Code -> Code): Option<Moved> {
    if m.None? then None
    else Some(Moved(Fiber(m.value.fiber.current, wrap(m.value.fiber.code)), m.value.answer))
  }

  // ---------------------------------------------------------------- what a thread still has to do

  /** The context variable once all open scopes have been left. */
  function Outer(current: Option<Permission>, code: Code): Option<Permission> {
    match code
    case InThen(first, _) => Outer(current, first)
    case InCatch(body) => Outer(current, body)
    case InScope(token, _) => token
    case _ => current
  }

  function Remaining(current: Option<Permission>, code: Code): Outcome
    decreases code
  {
    match code
    case Ready(p) => Meaning(p, [Some(InForce(current))])
    case Ended(raised) => Outcome(raised, [])
    case InThen(first, second) =>
      var o := Remaining(current, first);
      if o.raised then o
      else
        var o' := Meaning(second, [Some(InForce(Outer(current, first)))]);
        Outcome(o'.raised, o.answers + o'.answers)
    case InCatch(body) => Outcome(false, Remaining(current, body).answers)
    case InScope(_, body) => Remaining(current, body)
    case Waiting(left, right) =>
      var l, r := Remaining(left.current, left.code), Remaining(right.current, right.code);
      Outcome(l.raised || r.raised, l.answers + r.answers)
  }

  /** The meaning depends on the enclosing scopes only through the permission they amount to. */
  lemma {:induction false} MeaningByEffect(p: Program, e: seq<Option<Permission>>, e': seq<Option<Permission>>)
    requires Effective(e) == Effective(e')
    ensures Meaning(p, e) == Meaning(p, e')
    decreases p
  {
    match p
    case Permits(action, _) =>
      AllowedIffAllAllow(e, action);
      AllowedIffAllAllow(e', action);
    case Enforce(action, _) =>
      AllowedIffAllAllow(e, action);
      AllowedIffAllAllow(e', action);
    case Raise =>
    case Then(first, second) =>
      MeaningByEffect(first, e, e');
      MeaningByEffect(second, e, e');
    case Catch(body) => MeaningByEffect(body, e, e');
    case Scoped(permission, body) =>
      EffectiveInside(e, permission);
      EffectiveInside(e', permission);
      MeaningByEffect(body, e + [permission], e' + [permission]);
    case Worker(body) => MeaningByEffect(body, e, e');
    case Both(left, right) =>
      MeaningByEffect(left, e, e');
      MeaningByEffect(right, e, e');
    case Detached(_) =>
  }

  lemma EffectiveOne(p: Permission)
    ensures Effective([Some(p)]) == p && Effective([]) == UNRESTRICTED
  {
    assert [Some(p)][..0] == [];
  }

  lemma AnswerIsAsked(current: Option<Permission>, action: string, surface: string)
    ensures AnswerOf(current, action, surface) == Asked(action, surface, [Some(InForce(current))])
  {
    EffectiveOne(InForce(current));
    AllowedIffAllAllow([Some(InForce(current))], action);
  }

  function Given(answer: Option<Answer>): seq<Answer> {
    if answer.Some? then [answer.value] else []
  }

  /** The answer given and what remains are what remained before; the outcome and the value that
      the open scopes will restore stay the same. */
  ghost predicate Keeps(current: Option<Permission>, code: Code, m: Moved) {
    var before, after := Remaining(current, code), Remaining(m.fiber.current, m.fiber.code);
    && Outer(m.fiber.current, m.fiber.code) == Outer(current, code)
    && after.raised == before.raised
    && multiset(Given(m.answer)) + multiset(after.answers) == multiset(before.answers)
  }

  lemma BeginKeeps(current: Option<Permission>, p: Program)
    ensures Keeps(current, Ready(p), Begin(current, p))
  {
    if p.Permits? || p.Enforce? {
      QuestionBegins(current, p);
    } else if p.Worker? || p.Both? || p.Detached? {
      ThreadsBegin(current, p);
    } else if p.Scoped? {
      ScopeBegins(current, p);
    }
  }

  lemma ScopeBegins(current: Option<Permission>, p: Program)
    requires p.Scoped?
    ensures Keeps(current, Ready(p), Begin(current, p))
  {
    var here := InForce(current);
    var narrowed := here.Narrow(p.permission);
    EffectiveOne(here);
    EffectiveInside([Some(here)], p.permission);
    EffectiveOne(narrowed);
    MeaningByEffect(p.body, [Some(here)] + [p.permission], [Some(narrowed)]);
    assert Remaining(Some(narrowed), Ready(p.body)) == Meaning(p.body, [Some(narrowed)]);
  }

  lemma QuestionBegins(current: Option<Permission>, p: Program)
    requires p.Permits? || p.Enforce?
    ensures Keeps(current, Ready(p), Begin(current, p))
  {
    hide Effective;
    var here := InForce(current);
    EffectiveOne(here);
    AnswerIsAsked(current, p.action, p.surface);
    AllowedIffAllAllow([Some(here)], p.action);
  }

  lemma ThreadsBegin(current: Option<Permission>, p: Program)
    requires p.Worker? || p.Both? || p.Detached?
    ensures Keeps(current, Ready(p), Begin(current, p))
  {
    hide Permission.Narrow;
    var here := InForce(current);
    match p
    case Worker(body) =>
      var o := Meaning(body, [Some(here)]);
      var started := Fiber(Some(here), Ready(body));
      assert Remaining(Some(here), Ready(body)) == o && Remaining(None, Ended(false)).answers == [];
      assert Remaining(current, Waiting(started, IDLE)).answers == o.answers + [] == o.answers;
      assert Given(None) == [];
    case Both(left, right) =>
      assert Remaining(Some(here), Ready(left)) == Meaning(left, [Some(here)]);
      assert Remaining(Some(here), Ready(right)) == Meaning(right, [Some(here)]);
    case Detached(body) =>
      EffectiveOne(UNRESTRICTED);
      MeaningByEffect(body, [], [Some(UNRESTRICTED)]);
      var o := Meaning(body, [Some(UNRESTRICTED)]);
      var started := Fiber(None, Ready(body));
      assert Remaining(None, Ready(body)) == o && Remaining(None, Ended(false)).answers == [];
      assert Remaining(current, Waiting(started, IDLE)).answers == o.answers + [] == o.answers;
      assert Remaining(current, InCatch(Waiting(started, IDLE))) == Outcome(false, o.answers);
      assert Outer(current, Waiting(started, IDLE)) == current && Given(None) == [];
  }

  /** The body of a sequence, a handler or a scope makes a step. */
  lemma InsideKeeps(current: Option<Permission>, code: Code, body: Code, m: Moved)
    requires Keeps(current, body, m)
    requires match code
      case InThen(first, _) => first == body
      case InCatch(inner) => inner == body
      case InScope(_, inner) => inner == body
      case _ => false
    ensures var fiber := m.fiber;
      var wrapped := match code
        case InThen(_, second) => InThen(fiber.code, second)
        case InCatch(_) => InCatch(fiber.code)
        case InScope(token, _) => InScope(token, fiber.code)
        case _ => code;
      Keeps(current, code, Moved(Fiber(fiber.current, wrapped), m.answer))
  {
    hide Meaning;
  }

  /** One of two workers makes a step. */
  lemma WorkerKeeps(current: Option<Permission>, left: Fiber, right: Fiber, m: Moved)
    ensures Keeps(left.current, left.code, m) ==>
      Keeps(current, Waiting(left, right), Moved(Fiber(current, Waiting(m.fiber, right)), m.answer))
    ensures Keeps(right.current, right.code, m) ==>
      Keeps(current, Waiting(left, right), Moved(Fiber(current, Waiting(left, m.fiber)), m.answer))
  {
    hide Meaning;
  }

  /** A body that has ended hands over. */
  lemma EndedKeeps(current: Option<Permission>, code: Code, path: seq<bool>)
    requires match code
      case InThen(first, _) => first.Ended?
      case InCatch(body) => body.Ended?
      case InScope(_, body) => body.Ended?
      case Waiting(left, right) => left.code.Ended? && right.code.Ended?
      case _ => false
    ensures Step(current, code, path).Some? && Keeps(current, code, Step(current, code, path).value)
  {
    if code.InThen? && !code.first.raised {
      var o := Meaning(code.second, [Some(InForce(current))]);
      assert [] + o.answers == o.answers;
    }
  }

  lemma {:induction false} StepKeeps(current: Option<Permission>, code: Code, path: seq<bool>)
    requires Step(current, code, path).Some?
    ensures Keeps(current, code, Step(current, code, path).value)
    decreases code
  {
    hide Begin, Keeps;
    match code
    case Ready(p) => BeginKeeps(current, p);
    case Waiting(left, right) =>
      if left.code.Ended? && right.code.Ended? {
        EndedKeeps(current, code, path);
      } else if path[0] {
        StepKeeps(left.current, left.code, path[1..]);
        WorkerKeeps(current, left, right, Step(left.current, left.code, path[1..]).value);
      } else {
        StepKeeps(right.current, right.code, path[1..]);
        WorkerKeeps(current, left, right, Step(right.current, right.code, path[1..]).value);
      }
    case InThen(body, _) =>
      if body.Ended? {
        EndedKeeps(current, code, path);
      } else {
        StepKeeps(current, body, path);
        InsideKeeps(current, code, body, Step(current, body, path).value);
      }
    case InCatch(body) =>
      if body.Ended? {
        EndedKeeps(current, code, path);
      } else {
        StepKeeps(current, body, path);
        InsideKeeps(current, code, body, Step(current, body, path).value);
      }
    case InScope(_, body) =>
      if body.Ended? {
        EndedKeeps(current, code, path);
      } else {
        StepKeeps(current, body, path);
        InsideKeeps(current, code, body, Step(current, body, path).value);
      }
  }

  // ---------------------------------------------------------------- all tasks

  /** Every task's main thread, the answers given so far, and everything recorded in the ledger. */
  datatype System = System(tasks: map<TaskId, Fiber>, answers: seq<(TaskId, Answer)>,
                           history: seq<Event>, owners: seq<TaskId>)

  datatype Happening = Start(task: TaskId, fiber: Fiber) | Move(task: TaskId, path: seq<bool>)

  predicate Possible(s: System, h: Happening) {
    match h
    case Start(task, fiber) => task !in s.tasks && fiber.code.Ready?
    case Move(task, path) => task in s.tasks && Step(s.tasks[task].current, s.tasks[task].code, path).Some?
  }

  function Happen(s: System, h: Happening): System
    requires Possible(s, h)
  {
    match h
    case Start(task, fiber) => s.(tasks := s.tasks[task := fiber])
    case Move(task, path) =>
      var m := Step(s.tasks[task].current, s.tasks[task].code, path).value;
      var s' := s.(tasks := s.tasks[task := m.fiber]);
      if m.answer.None? then s'
      else
        var a := m.answer.value;
        var s'' := s'.(answers := s.answers + [(task, a)]);
        if a.allowed then s''
        else
          var e := Event(|s.history| + 1, a.action, a.surface, a.tag);
          s''.(history := s.history + [e], owners := s.owners + [task])
  }

  ghost predicate Follows(s: System, s': System) {
    exists h :: Possible(s, h) && s' == Happen(s, h)
  }

  ghost predicate FollowsAt(tr: seq<System>, i: int) {
    0 <= i < |tr| - 1 ==> Follows(tr[i], tr[i + 1])
  }

  ghost predicate Execution(tr: seq<System>) {
    tr != [] && tr[0] == System(map[], [], [], []) && forall i :: FollowsAt(tr, i)
  }

  /** The answers one task has been given. */
  function AnswersOf(answers: seq<(TaskId, Answer)>, task: TaskId): seq<Answer> {
    if answers == [] then []
    else
      var last := answers[|answers| - 1];
      AnswersOf(answers[..|answers| - 1], task) + if last.0 == task then [last.1] else []
  }

  lemma AnswersNext(answers: seq<(TaskId, Answer)>, owner: TaskId, a: Answer, task: TaskId)
    ensures AnswersOf(answers + [(owner, a)], task) == AnswersOf(answers, task) + if owner == task then [a] else []
  {
    assert (answers + [(owner, a)])[..|answers|] == answers;
  }

  /** What a task has recorded is what it was denied, in the order in which it was denied. */
  ghost predicate Books(s: System, task: TaskId) {
    && |s.history| == |s.owners|
    && Recorded(s.history, s.owners, task) == Denied(AnswersOf(s.answers, task))
    && (task !in s.tasks ==> AnswersOf(s.answers, task) == [])
  }

  lemma BooksKept(s: System, s': System, task: TaskId)
    requires Follows(s, s') && Books(s, task) && Numbered(s.history)
    ensures Books(s', task) && Numbered(s'.history)
  {
    var h :| Possible(s, h) && s' == Happen(s, h);
    if h.Move? {
      var m := Step(s.tasks[h.task].current, s.tasks[h.task].code, h.path).value;
      if m.answer.Some? {
        var a := m.answer.value;
        AnswersNext(s.answers, h.task, a, task);
        AnswersNothing(s, h.task, a, task);
      }
    }
  }

  lemma AnswersNothing(s: System, owner: TaskId, a: Answer, task: TaskId)
    requires Books(s, task)
    ensures var more := if owner == task then [a] else [];
      && Denied(AnswersOf(s.answers, task) + more) ==
         Denied(AnswersOf(s.answers, task)) + (if owner == task && !a.allowed then [a] else [])
      && (!a.allowed ==>
            Recorded(s.history + [Event(|s.history| + 1, a.action, a.surface, a.tag)], s.owners + [owner], task) ==
            Recorded(s.history, s.owners, task) + (if owner == task then [a] else []))
  {
    var given := AnswersOf(s.answers, task);
    if owner == task {
      assert (given + [a])[..|given|] == given;
    } else {
      assert given + [] == given;
    }
    assert Denied(given) + [] == Denied(given);
    if !a.allowed {
      RecordedNext(s.history, s.owners, Event(|s.history| + 1, a.action, a.surface, a.tag), owner, task);
    }
  }

  lemma {:induction false} BooksAlways(tr: seq<System>, i: nat, task: TaskId)
    requires Execution(tr) && i < |tr|
    ensures Books(tr[i], task) && Numbered(tr[i].history)
  {
    if i > 0 {
      BooksAlways(tr, i - 1, task);
      assert FollowsAt(tr, i - 1);
      BooksKept(tr[i - 1], tr[i], task);
    }
  }

  /** The ledger only grows. */
  lemma {:induction false} LedgerGrows(tr: seq<System>, i: nat, j: nat)
    requires Execution(tr) && i <= j < |tr|
    ensures tr[i].history <= tr[j].history && tr[i].owners <= tr[j].owners
  {
    if i < j {
      LedgerGrows(tr, i, j - 1);
      assert FollowsAt(tr, j - 1);
    }
  }

  /** What the task `t` was given since it started in state `fiber`, and what remains. */
  ghost predicate Progress(s: System, task: TaskId, fiber: Fiber) {
    && task in s.tasks
    && (var now := s.tasks[task];
        var start, rest := Remaining(fiber.current, fiber.code), Remaining(now.current, now.code);
        && Outer(now.current, now.code) == Outer(fiber.current, fiber.code)
        && rest.raised == start.raised
        && multiset(AnswersOf(s.answers, task)) + multiset(rest.answers) == multiset(start.answers))
  }

  lemma ProgressKept(s: System, s': System, task: TaskId, fiber: Fiber)
    requires Follows(s, s') && Progress(s, task, fiber)
    ensures Progress(s', task, fiber)
  {
    hide Remaining, Outer, Step, AnswersOf;
    var h :| Possible(s, h) && s' == Happen(s, h);
    if h.Move? {
      var now := s.tasks[h.task];
      var m := Step(now.current, now.code, h.path).value;
      StepKeeps(now.current, now.code, h.path);
      if m.answer.Some? {
        AnswersNext(s.answers, h.task, m.answer.value, task);
        assert AnswersOf(s.answers, task) + [] == AnswersOf(s.answers, task);
      }
    }
  }

  lemma {:induction false} ProgressAlways(tr: seq<System>, i: nat, j: nat, task: TaskId, fiber: Fiber)
    requires Execution(tr) && i <= j < |tr|
    requires task in tr[i].tasks && tr[i].tasks[task] == fiber && AnswersOf(tr[i].answers, task) == []
    ensures Progress(tr[j], task, fiber)
  {
    if i < j {
      ProgressAlways(tr, i, j - 1, task, fiber);
      assert FollowsAt(tr, j - 1);
      ProgressKept(tr[j - 1], tr[j], task, fiber);
    }
  }

  /** Whatever the interleaving of all tasks and all their threads: a task that ran a program to
      its end has its context variable back, raised as the program means, and was given exactly the
      answers that the scopes around each question mean. */
  lemma EveryTaskMeansWhatItSays(tr: seq<System>, i: nat, j: nat, task: TaskId, current: Option<Permission>, p: Program)
    requires Execution(tr) && i <= j < |tr|
    requires task in tr[i].tasks && tr[i].tasks[task] == Fiber(current, Ready(p))
    requires AnswersOf(tr[i].answers, task) == []
    requires task in tr[j].tasks && tr[j].tasks[task].code.Ended?
    ensures var o := Meaning(p, [Some(InForce(current))]);
      && tr[j].tasks[task] == Fiber(current, Ended(o.raised))
      && multiset(AnswersOf(tr[j].answers, task)) == multiset(o.answers)
      && |tr[j].history| == |tr[j].owners|
      && Recorded(tr[j].history, tr[j].owners, task) == Denied(AnswersOf(tr[j].answers, task))
  {
    ProgressAlways(tr, i, j, task, Fiber(current, Ready(p)));
    BooksAlways(tr, j, task);
  }

  lemma {:induction false} DeniedCount(answers: seq<Answer>, a: Answer)
    ensures multiset(Denied(answers))[a] == if a.allowed then 0 else multiset(answers)[a]
  {
    if answers != [] {
      var n := |answers| - 1;
      assert answers == answers[..n] + [answers[n]];
      DeniedCount(answers[..n], a);
    }
  }

  lemma SameDenied(a: seq<Answer>, b: seq<Answer>)
    requires multiset(a) == multiset(b)
    ensures multiset(Denied(a)) == multiset(Denied(b))
  {
    forall x ensures multiset(Denied(a))[x] == multiset(Denied(b))[x] {
      DeniedCount(a, x);
      DeniedCount(b, x);
    }
  }

  /** The window between a task's mark and its summary. Whatever else runs: the task's records in it
      are its own denials, and the counts of the window are those of the task alone exactly when no
      other task recorded in it. */
  lemma WindowOfATask(tr: seq<System>, i: nat, j: nat, task: TaskId, current: Option<Permission>, p: Program)
    requires Execution(tr) && i <= j < |tr|
    requires task in tr[i].tasks && tr[i].tasks[task] == Fiber(current, Ready(p))
    requires AnswersOf(tr[i].answers, task) == []
    requires task in tr[j].tasks && tr[j].tasks[task].code.Ended?
    ensures |tr[i].history| <= |tr[j].history| == |tr[j].owners|
    ensures var window, whose := tr[j].history[|tr[i].history|..], tr[j].owners[|tr[i].history|..];
      && multiset(Recorded(window, whose, task)) == multiset(Denied(Meaning(p, [Some(InForce(current))]).answers))
      && ((forall a :: CountIn(window, a) == CountOf(Recorded(window, whose, task), a)) <==> OnlyBy(whose, task))
  {
    hide Execution, Recorded, Denied, Numbered, AnswersOf, CountOf, CountIn, OnlyBy;
    EveryTaskMeansWhatItSays(tr, i, j, task, current, p);
    BooksAlways(tr, i, task);
    BooksAlways(tr, j, task);
    LedgerGrows(tr, i, j);
    var m := |tr[i].history|;
    var window, whose := tr[j].history[m..], tr[j].owners[m..];
    assert tr[j].history == tr[i].history + window && tr[j].owners == tr[i].owners + whose;
    RecordedAppend(tr[i].history, tr[i].owners, window, whose, task);
    DeniedNothing();
    Cancel([], Recorded(window, whose, task), Denied(AnswersOf(tr[j].answers, task)));
    SameDenied(AnswersOf(tr[j].answers, task), Meaning(p, [Some(InForce(current))]).answers);
    CountsAreOwnIff(window, whose, task);
    OnlyByIs(whose, task);
  }

  lemma OnlyByIs(whose: seq<TaskId>, task: TaskId)
    ensures OnlyBy(whose, task) <==> forall i :: 0 <= i < |whose| ==> whose[i] == task
  {
  }

  /** It does happen: a task that is denied nothing, and another one whose denial falls into its
      window and is counted as its own. */
  lemma AnotherTasksDenialIsCounted() returns (tr: seq<System>)
    ensures Execution(tr) && |tr| == 5
    ensures 0 in tr[2].tasks && 0 in tr[4].tasks && |tr[2].history| <= |tr[4].history|
    ensures tr[2].tasks[0] == Fiber(None, Ready(Permits("notify", "s"))) && tr[4].tasks[0].code.Ended?
    ensures Denied(Meaning(Permits("notify", "s"), [Some(InForce(None))]).answers) == []
    ensures CountIn(tr[4].history[|tr[2].history|..], "notify") == 1
  {
    var p := Permits("notify", "s");
    var nothing := Some(RestrictedTo({}, ""));
    var s0 := System(map[], [], [], []);
    var s1 := Happen(s0, Start(1, Fiber(nothing, Ready(p))));
    var s2 := Happen(s1, Start(0, Fiber(None, Ready(p))));
    var s3 := Happen(s2, Move(1, []));
    var s4 := Happen(s3, Move(0, []));
    tr := [s0, s1, s2, s3, s4];
    assert Possible(s0, Start(1, Fiber(nothing, Ready(p)))) && Possible(s1, Start(0, Fiber(None, Ready(p))));
    assert Possible(s2, Move(1, [])) && Possible(s3, Move(0, []));
    assert "notify" in OUTWARD_ACTIONS;
    assert !nothing.value.Allows("notify") && UNRESTRICTED.Allows("notify");
    assert s4.history == [Event(1, "notify", "s", "")];
    AnswerIsAsked(None, "notify", "s");
    assert CountIn(s4.history, "notify") == 1;
    forall i ensures FollowsAt(tr, i) { }
  }
}
