/** Committing a staged plugin set to the live registries, and reloading it any number of times. */
module PluginManager {
  import opened Core
  import opened PluginStaging

  // ---------------------------------------------------------------- hooks in phase order

  const HOOK_PHASES: seq<string> := ["retrieve", "transform", "compress"]

  predicate KnownPhases(hooks: seq<Hook>) {
    forall h :: h in hooks ==> h.phase in HOOK_PHASES
  }

  function OfPhase(hooks: seq<Hook>, phase: string): seq<Hook> {
    if hooks == [] then []
    else if hooks[0].phase == phase then [hooks[0]] + OfPhase(hooks[1..], phase)
    else OfPhase(hooks[1..], phase)
  }

  /** The stable sort by phase of hooks whose phases are known. */
  function OrderHooks(hooks: seq<Hook>): seq<Hook> {
    OfPhase(hooks, HOOK_PHASES[0]) + OfPhase(hooks, HOOK_PHASES[1]) + OfPhase(hooks, HOOK_PHASES[2])
  }

  lemma {:induction false} OfPhaseMeaning(hooks: seq<Hook>, phase: string, other: string)
    ensures forall h :: h in OfPhase(hooks, phase) ==> h.phase == phase
    ensures OfPhase(OfPhase(hooks, phase), other) == if other == phase then OfPhase(hooks, phase) else []
    ensures forall h :: multiset(OfPhase(hooks, phase))[h] == if h.phase == phase then multiset(hooks)[h] else 0
  {
    if hooks != [] {
      OfPhaseMeaning(hooks[1..], phase, other);
      assert hooks == [hooks[0]] + hooks[1..];
      if hooks[0].phase == phase {
        assert OfPhase(hooks, phase)[1..] == OfPhase(hooks[1..], phase);
      }
    }
  }

  lemma {:induction false} OfPhaseConcat(a: seq<Hook>, b: seq<Hook>, phase: string)
    ensures OfPhase(a + b, phase) == OfPhase(a, phase) + OfPhase(b, phase)
  {
    if a == [] {
      assert a + b == b;
    } else {
      assert (a + b)[1..] == a[1..] + b;
      OfPhaseConcat(a[1..], b, phase);
    }
  }

  function PhaseRank(h: Hook): nat {
    if h.phase == HOOK_PHASES[0] then 0 else if h.phase == HOOK_PHASES[1] then 1 else 2
  }

  ghost predicate InPhaseOrder(hooks: seq<Hook>) {
    forall i, j :: 0 <= i < j < |hooks| ==> PhaseRank(hooks[i]) <= PhaseRank(hooks[j])
  }

  /** Ordering keeps every hook, puts the phases in order, and keeps the order within a phase. */
  lemma OrderHooksIsAStableSort(hooks: seq<Hook>)
    requires KnownPhases(hooks)
    ensures multiset(OrderHooks(hooks)) == multiset(hooks)
    ensures forall phase :: OfPhase(OrderHooks(hooks), phase) == OfPhase(hooks, phase)
    ensures InPhaseOrder(OrderHooks(hooks))
  {
    forall phase ensures OfPhase(OrderHooks(hooks), phase) == OfPhase(hooks, phase) {
      SamePhase(hooks, phase);
    }
    forall h ensures multiset(OrderHooks(hooks))[h] == multiset(hooks)[h] {
      SameCount(hooks, h);
    }
    PhasesInOrder(hooks);
  }

  lemma PhasesDiffer()
    ensures HOOK_PHASES[0] != HOOK_PHASES[1] && HOOK_PHASES[0] != HOOK_PHASES[2] && HOOK_PHASES[1] != HOOK_PHASES[2]
  {
    assert |HOOK_PHASES[1]| == 9 && |HOOK_PHASES[0]| == 8 && HOOK_PHASES[0][0] == 'r' && HOOK_PHASES[2][0] == 'c';
  }

  lemma PhaseOfPhases(hooks: seq<Hook>, first: string, second: string, third: string, phase: string)
    requires first != second && first != third && second != third
    requires phase !in {first, second, third} ==> forall h :: h in hooks ==> h.phase != phase
    ensures OfPhase(OfPhase(hooks, first) + OfPhase(hooks, second) + OfPhase(hooks, third), phase) ==
      OfPhase(hooks, phase)
  {
    hide OfPhase;
    OfPhaseConcat(OfPhase(hooks, first) + OfPhase(hooks, second), OfPhase(hooks, third), phase);
    OfPhaseConcat(OfPhase(hooks, first), OfPhase(hooks, second), phase);
    OfPhaseMeaning(hooks, first, phase);
    OfPhaseMeaning(hooks, second, phase);
    OfPhaseMeaning(hooks, third, phase);
    if phase !in {first, second, third} {
      NoneOfPhase(hooks, phase);
    }
  }

  lemma SamePhase(hooks: seq<Hook>, phase: string)
    requires KnownPhases(hooks)
    ensures OfPhase(OrderHooks(hooks), phase) == OfPhase(hooks, phase)
  {
    hide OfPhase;
    PhasesDiffer();
    PhaseOfPhases(hooks, HOOK_PHASES[0], HOOK_PHASES[1], HOOK_PHASES[2], phase);
  }

  lemma SameCount(hooks: seq<Hook>, h: Hook)
    requires KnownPhases(hooks)
    ensures multiset(OrderHooks(hooks))[h] == multiset(hooks)[h]
  {
    hide OfPhase;
    OfPhaseMeaning(hooks, HOOK_PHASES[0], "");
    OfPhaseMeaning(hooks, HOOK_PHASES[1], "");
    OfPhaseMeaning(hooks, HOOK_PHASES[2], "");
    if h in hooks {
      assert h.phase in HOOK_PHASES;
    }
  }

  lemma PhasesInOrder(hooks: seq<Hook>)
    ensures InPhaseOrder(OrderHooks(hooks))
  {
    var r, t, c := OfPhase(hooks, HOOK_PHASES[0]), OfPhase(hooks, HOOK_PHASES[1]), OfPhase(hooks, HOOK_PHASES[2]);
    OfPhaseMeaning(hooks, HOOK_PHASES[0], "");
    OfPhaseMeaning(hooks, HOOK_PHASES[1], "");
    OfPhaseMeaning(hooks, HOOK_PHASES[2], "");
    forall i | 0 <= i < |r + t + c|
      ensures PhaseRank((r + t + c)[i]) == if i < |r| then 0 else if i < |r| + |t| then 1 else 2
    {
      assert (r + t + c)[i] in if i < |r| then r else if i < |r| + |t| then t else c;
    }
  }

  lemma {:induction false} NoneOfPhase(hooks: seq<Hook>, phase: string)
    requires forall h :: h in hooks ==> h.phase != phase
    ensures OfPhase(hooks, phase) == []
  {
    if hooks != [] {
      assert hooks[0] in hooks;
      NoneOfPhase(hooks[1..], phase);
    }
  }

  // ---------------------------------------------------------------- commit

  function LivePart(e: Entries): Entries {
    map slot | slot in e && LiveBacked(slot.registry) :: e[slot]
  }

  function InstancePart(e: Entries): Entries {
    map slot | slot in e && !LiveBacked(slot.registry) :: e[slot]
  }

  function OfGraph(e: Entries): Entries {
    map slot | slot in e && slot.registry.GraphSources? :: e[slot]
  }

  function NotGraph(e: Entries): Entries {
    map slot | slot in e && LiveBacked(slot.registry) && !slot.registry.GraphSources? :: e[slot]
  }

  /** Tear down what the manager owned, then add what was staged. */
  function Committed(live: Entries, owned: set<Slot>, staged: Entries): Entries {
    (live - owned) + LivePart(staged)
  }

  /** `register_graph_source` meets another object under a name the manager does not own. */
  predicate GraphConflict(live: Entries, owned: set<Slot>, staged: Entries) {
    exists slot :: slot in OfGraph(staged) && slot in live && slot !in owned && live[slot] != staged[slot]
  }

  /** A commit goes through exactly when this is false; it is decided by the staged set alone. */
  predicate CommitRaises(live: Entries, owned: set<Slot>, s: Staged) {
    GraphConflict(live, owned, s.entries) || !KnownPhases(s.hooks)
  }

  /** The commit is documented never to raise. It can: two managers may stage objects of one local
      plugin file for the same graph source name, which staging lets through. */
  lemma CommitCanRaiseAfterGoodStaging()
    ensures exists p: Candidate, live: Entries ::
      var staged := Loaded([p], [], live, {}, {});
      staged.Ok? && KnownPhases(staged.value.hooks) && CommitRaises(live, {}, staged.value)
  {
    var slot := Slot(GraphSources, "g");
    var was, now := Object(1, "hivepilot_plugin_a", Some("Source")), Object(2, "hivepilot_plugin_a", Some("Source"));
    var p := Plugin("a", [Contribution(slot, now, true)], Undeclared, []);
    var live := map[slot := was];
    var s := Staged(map[], [], [], []);
    assert StageAll(p.contributions[1..], live, {}, map[slot := now]) == Ok(map[slot := now]);
    assert StageAll(p.contributions, live, {}, map[]) == Ok(map[slot := now]);
    var after := Staged(map[slot := now], [], ["a"], []);
    assert s.loaded + ["a"] == after.loaded;
    assert s.hooks + p.hooks == after.hooks;
    assert Register(p, live, {}, {}, s) == Ok(after);
    assert RegisterAll([p][1..], live, {}, {}, after) == Ok(after);
    assert Loaded([p], [], live, {}, {}) == Ok(after);
    assert slot in OfGraph(after.entries);
  }

  /** With only objects that no local plugin file made standing in the way, staging already finds
      every graph conflict, so the commit can only raise over a hook phase. */
  lemma NoForeignLocalPluginNoGraphConflict(ps: seq<Candidate>, dirs: seq<(string, Object)>, live: Entries,
                                            owned: set<Slot>, policy: set<string>)
    requires Loaded(ps, dirs, live, owned, policy).Ok?
    requires forall slot :: slot in live && slot !in owned ==> !IsLocalPlugin(live[slot])
    ensures !GraphConflict(live, owned, Loaded(ps, dirs, live, owned, policy).value.entries)
    ensures var entries := Loaded(ps, dirs, live, owned, policy).value.entries;
      forall slot :: slot in LivePart(entries) && slot in live && slot !in owned ==> entries[slot] == live[slot]
  {
    var s0 := Staged(map[], [], [], []);
    var s := RegisterAll(ps, live, owned, policy, s0).value;
    RegisterAllAgrees(ps, live, owned, policy, s0);
    DirectorySkillsAddOnly(s.entries, dirs);
  }

  ghost predicate AgreesWithLive(e: Entries, live: Entries, owned: set<Slot>) {
    forall slot :: slot in e && LiveBacked(slot.registry) && slot in live && slot !in owned ==> e[slot] == live[slot]
  }

  lemma {:induction false} RegisterAllAgrees(ps: seq<Candidate>, live: Entries, owned: set<Slot>, policy: set<string>,
                                             s: Staged)
    requires RegisterAll(ps, live, owned, policy, s).Ok? && AgreesWithLive(s.entries, live, owned)
    requires forall slot :: slot in live && slot !in owned ==> !IsLocalPlugin(live[slot])
    ensures AgreesWithLive(RegisterAll(ps, live, owned, policy, s).value.entries, live, owned)
  {
    if ps != [] {
      var s' := Register(ps[0], live, owned, policy, s).value;
      if ps[0].Plugin? {
        StageAllAgrees(ps[0].contributions, live, owned, s.entries);
      }
      RegisterAllAgrees(ps[1..], live, owned, policy, s');
    }
  }

  lemma StageAllAgrees(cs: seq<Contribution>, live: Entries, owned: set<Slot>, staged: Entries)
    requires StageAll(cs, live, owned, staged).Ok? && AgreesWithLive(staged, live, owned)
    requires forall slot :: slot in live && slot !in owned ==> !IsLocalPlugin(live[slot])
    ensures AgreesWithLive(StageAll(cs, live, owned, staged).value, live, owned)
  {
    var after := StageAll(cs, live, owned, staged).value;
    StageAllMeaning(cs, live, owned, staged);
    forall slot | slot in after && LiveBacked(slot.registry) && slot in live && slot !in owned
      ensures after[slot] == live[slot]
    {
      if LastFor(cs, slot).Some? {
        StagedOverTakenSlot(cs, live, owned, staged, slot);
      }
    }
  }

  // ---------------------------------------------------------------- histories of reloads

  /** What one reload does to the live registries: nothing; the staged set replaces the previous one
      (also when the commit raises later, over a hook phase); or the commit raises at a graph source,
      after registering `done` of them. */
  datatype Attempt = Failed | Replaced(staged: Entries) | Conflicted(staged: Entries, done: set<Slot>)

  function Only(e: Entries, slots: set<Slot>): Entries {
    map slot | slot in e && slot in slots :: e[slot]
  }

  function GraphSlots(slots: set<Slot>): set<Slot> {
    set slot | slot in slots && slot.registry.GraphSources?
  }

  /** Everything but the new graph sources is in place, and the owned graph names are gone. */
  function MidWay(live: Entries, owned: set<Slot>, staged: Entries): Entries {
    ((live - (owned - GraphSlots(owned))) + NotGraph(staged)) - GraphSlots(owned)
  }

  /** Each of these slots once. */
  ghost predicate Lists(order: seq<Slot>, slots: set<Slot>) {
    && (forall i, j :: 0 <= i < j < |order| ==> order[i] != order[j])
    && (forall slot :: slot in order <==> slot in slots)
  }

  /** Another object is registered under the name. */
  predicate Held(live: Entries, specs: Entries, slot: Slot) {
    slot in specs && slot in live && live[slot] != specs[slot]
  }

  /** The specs that are registered when the loop stops at the first held name. */
  function UpToConflict(live: Entries, specs: Entries, order: seq<Slot>): set<Slot> {
    if order == [] || Held(live, specs, order[0]) then {} else {order[0]} + UpToConflict(live, specs, order[1..])
  }

  lemma {:induction false} UpToConflictMeaning(live: Entries, specs: Entries, order: seq<Slot>)
    ensures forall slot :: slot in UpToConflict(live, specs, order) ==> slot in order && !Held(live, specs, slot)
    ensures (forall slot :: slot in order ==> !Held(live, specs, slot)) ==>
      UpToConflict(live, specs, order) == set slot | slot in order
    ensures (exists slot :: slot in order && Held(live, specs, slot)) ==>
      exists slot :: slot in order && Held(live, specs, slot) && slot !in UpToConflict(live, specs, order)
  {
    if order != [] && !Held(live, specs, order[0]) {
      UpToConflictMeaning(live, specs, order[1..]);
    }
  }

  lemma NextSource(live: Entries, specs: Entries, order: seq<Slot>, i: nat, done: set<Slot>)
    requires i < |order| && order[i] in specs && order[i] !in done
    ensures var slot, now := order[i], live + Only(specs, done);
      && (slot in now <==> slot in live) && (slot in live ==> now[slot] == live[slot])
      && now[slot := specs[slot]] == live + Only(specs, done + {slot})
      && UpToConflict(live, specs, order[i..]) ==
           if Held(live, specs, slot) then {} else {slot} + UpToConflict(live, specs, order[i + 1..])
  {
    assert order[i..][1..] == order[i + 1..];
  }

  lemma NoSource(live: Entries, specs: Entries, order: seq<Slot>)
    ensures live + Only(specs, {}) == live && order[0..] == order && UpToConflict(live, specs, []) == {}
  {
  }

  /** A graph slot holds in between what it held before, unless the manager owned it. */
  lemma ConflictAt(live: Entries, owned: set<Slot>, staged: Entries)
    ensures forall slot :: slot in OfGraph(staged) ==>
      && slot in staged && OfGraph(staged)[slot] == staged[slot]
      && (slot in MidWay(live, owned, staged) <==> slot in live && slot !in owned)
      && (slot in MidWay(live, owned, staged) ==> MidWay(live, owned, staged)[slot] == live[slot])
  {
  }

  /** What a commit of this set does, `order` being that of the staged graph sources. */
  function AttemptOf(live: Entries, owned: set<Slot>, staged: Entries, order: seq<Slot>): Attempt {
    if GraphConflict(live, owned, staged) then
      Conflicted(staged, UpToConflict(MidWay(live, owned, staged), OfGraph(staged), order))
    else Replaced(staged)
  }

  /** After a conflict: what was registered is held by nobody else, and some source was not. */
  lemma AttemptOfMeaning(live: Entries, owned: set<Slot>, staged: Entries, order: seq<Slot>)
    requires Lists(order, OfGraph(staged).Keys)
    ensures var a := AttemptOf(live, owned, staged, order);
      && a.Conflicted? == GraphConflict(live, owned, staged) && !a.Failed? && a.staged == staged
      && (a.Conflicted? ==>
            && a.done <= OfGraph(staged).Keys
            && (forall slot :: slot in a.done && slot in live && slot !in owned ==> live[slot] == staged[slot])
            && (exists slot :: slot in OfGraph(staged) && slot !in a.done && slot in live && slot !in owned
                  && live[slot] != staged[slot]))
  {
    hide UpToConflict, MidWay;
    UpToConflictMeaning(MidWay(live, owned, staged), OfGraph(staged), order);
    ConflictAt(live, owned, staged);
    if GraphConflict(live, owned, staged) {
      var slot :| slot in OfGraph(staged) && slot in live && slot !in owned && live[slot] != staged[slot];
      assert slot in order && Held(MidWay(live, owned, staged), OfGraph(staged), slot);
    }
  }

  /** The live registries and the owned slots after one attempt. */
  function Attempted(live: Entries, owned: set<Slot>, a: Attempt): (Entries, set<Slot>) {
    match a
    case Failed => (live, owned)
    case Replaced(staged) => (Committed(live, owned, staged), LivePart(staged).Keys)
    case Conflicted(staged, done) =>
      (MidWay(live, owned, staged) + Only(OfGraph(staged), done), NotGraph(staged).Keys + GraphSlots(owned))
  }

  /** The live registries and the owned slots after a history that began at `base`. */
  function After(base: Entries, history: seq<Attempt>): (Entries, set<Slot>) {
    if history == [] then (base, {})
    else
      var (live, owned) := After(base, history[..|history| - 1]);
      Attempted(live, owned, history[|history| - 1])
  }

  /** What the manager owns after a history, told from the history alone. */
  function Owned(history: seq<Attempt>): set<Slot> {
    if history == [] then {}
    else
      var earlier := Owned(history[..|history| - 1]);
      match history[|history| - 1]
      case Failed => earlier
      case Replaced(staged) => LivePart(staged).Keys
      case Conflicted(staged, _) => NotGraph(staged).Keys + GraphSlots(earlier)
  }

  /** The manager's own entries: the last staged set, or what a conflict left of it. */
  function LastStaged(history: seq<Attempt>): Entries {
    if history == [] then map[]
    else
      match history[|history| - 1]
      case Failed => LastStaged(history[..|history| - 1])
      case Replaced(staged) => LivePart(staged)
      case Conflicted(staged, done) =>
        NotGraph(staged) + Only(OfGraph(staged), done * Owned(history[..|history| - 1]))
  }

  /** Every slot that some committed set has taken. */
  function Taken(history: seq<Attempt>): set<Slot> {
    if history == [] then {}
    else
      var earlier := Taken(history[..|history| - 1]);
      match history[|history| - 1]
      case Failed => earlier
      case Replaced(staged) => earlier + LivePart(staged).Keys
      case Conflicted(staged, _) => earlier + NotGraph(staged).Keys
  }

  /** Graph sources that a raising commit registered without owning them, and that no later commit
      has taken. */
  function Leaked(history: seq<Attempt>): Entries {
    if history == [] then map[]
    else
      var before := history[..|history| - 1];
      match history[|history| - 1]
      case Failed => Leaked(before)
      case Replaced(staged) => Leaked(before) - LivePart(staged).Keys
      case Conflicted(staged, done) =>
        (Leaked(before) + Only(OfGraph(staged), done - Owned(before))) - NotGraph(staged).Keys
  }

  /** Three layers: what is left of the base, what leaked, and what the manager owns. */
  function Layers(base: Entries, taken: set<Slot>, leaked: Entries, own: Entries): Entries {
    (base - taken) + leaked + own
  }

  lemma FailedLayer(live: Entries, owned: set<Slot>)
    ensures Attempted(live, owned, Failed) == (live, owned)
  {
  }

  lemma ReplacedLayer(base: Entries, taken: set<Slot>, leaked: Entries, own: Entries, owned: set<Slot>, staged: Entries)
    requires own.Keys <= owned && (leaked.Keys + (base.Keys - taken)) !! owned
    ensures Attempted(Layers(base, taken, leaked, own), owned, Replaced(staged)).0 ==
      Layers(base, taken + LivePart(staged).Keys, leaked - LivePart(staged).Keys, LivePart(staged))
  {
  }

  lemma ConflictedLayer(base: Entries, taken: set<Slot>, leaked: Entries, own: Entries, owned: set<Slot>,
                        staged: Entries, done: set<Slot>)
    requires own.Keys <= owned && (leaked.Keys + (base.Keys - taken)) !! owned
    ensures Attempted(Layers(base, taken, leaked, own), owned, Conflicted(staged, done)).0 ==
      Layers(base, taken + NotGraph(staged).Keys,
             (leaked + Only(OfGraph(staged), done - owned)) - NotGraph(staged).Keys,
             NotGraph(staged) + Only(OfGraph(staged), done * owned))
  {
    hide NotGraph, OfGraph, Only, MidWay, Layers, GraphSlots;
    var ng, og := NotGraph(staged), OfGraph(staged);
    var left := MidWay(Layers(base, taken, leaked, own), owned, staged) + Only(og, done);
    var right :=
      Layers(base, taken + ng.Keys, (leaked + Only(og, done - owned)) - ng.Keys, ng + Only(og, done * owned));
    forall slot ensures (slot in left <==> slot in right) && (slot in left ==> left[slot] == right[slot]) {
      ConflictedAt(base, taken, leaked, own, owned, staged, done, slot);
    }
    SameEntries(left, right);
  }

  lemma KindOf(staged: Entries, slot: Slot)
    ensures slot in NotGraph(staged) ==> !slot.registry.GraphSources?
    ensures slot in OfGraph(staged) ==> slot.registry.GraphSources?
  {
  }

  lemma SameEntries(a: Entries, b: Entries)
    requires forall slot :: (slot in a <==> slot in b) && (slot in a ==> a[slot] == b[slot])
    ensures a == b
  {
  }

  /** One slot of the three layers around a raising commit. */
  lemma ConflictedAt(base: Entries, taken: set<Slot>, leaked: Entries, own: Entries, owned: set<Slot>, staged: Entries,
                     done: set<Slot>, slot: Slot)
    requires own.Keys <= owned && (leaked.Keys + (base.Keys - taken)) !! owned
    ensures var ng, og := NotGraph(staged), OfGraph(staged);
      var left := MidWay(Layers(base, taken, leaked, own), owned, staged) + Only(og, done);
      var right :=
        Layers(base, taken + ng.Keys, (leaked + Only(og, done - owned)) - ng.Keys, ng + Only(og, done * owned));
      (slot in left <==> slot in right) && (slot in left ==> left[slot] == right[slot])
  {
    var ng, og := NotGraph(staged), OfGraph(staged);
    var live := Layers(base, taken, leaked, own);
    KindOf(staged, slot);
    LayersAt(base, taken, leaked, own, slot);
    MidWayAt(live, owned, staged, slot);
    LayersAt(base, taken + ng.Keys, (leaked + Only(og, done - owned)) - ng.Keys, ng + Only(og, done * owned), slot);
    hide Layers, MidWay;
  }

  lemma MidWayAt(live: Entries, owned: set<Slot>, staged: Entries, slot: Slot)
    ensures slot in MidWay(live, owned, staged) <==> slot in NotGraph(staged) || (slot in live && slot !in owned)
    ensures slot in MidWay(live, owned, staged) ==>
      MidWay(live, owned, staged)[slot] == if slot in NotGraph(staged) then staged[slot] else live[slot]
  {
  }

  lemma LayersAt(base: Entries, taken: set<Slot>, leaked: Entries, own: Entries, slot: Slot)
    ensures var live := Layers(base, taken, leaked, own);
      && (slot in live <==> slot in own || slot in leaked || (slot in base && slot !in taken))
      && (slot in live ==>
            live[slot] == if slot in own then own[slot] else if slot in leaked then leaked[slot] else base[slot])
  {
  }

  /** After any history of good, failed and raising reloads the live registries are exactly: the base
      entries that were never taken, the leaked ones, and the manager's own. */
  lemma {:induction false} HistoryExact(base: Entries, history: seq<Attempt>)
    ensures After(base, history) == (Layers(base, Taken(history), Leaked(history), LastStaged(history)), Owned(history))
    ensures LastStaged(history).Keys <= Owned(history)
    ensures (Leaked(history).Keys + (base.Keys - Taken(history))) !! Owned(history)
  {
    if history != [] {
      var before, last := history[..|history| - 1], history[|history| - 1];
      HistoryExact(base, before);
      hide Attempted, Layers;
      var t, l, o := Taken(before), Leaked(before), LastStaged(before);
      match last {
        case Failed => FailedLayer(Layers(base, t, l, o), Owned(before));
        case Replaced(staged) =>
          ReplacedLayer(base, t, l, o, Owned(before), staged);
          AttemptedOwns(Layers(base, t, l, o), Owned(before), last);
        case Conflicted(staged, done) =>
          ConflictedLayer(base, t, l, o, Owned(before), staged, done);
          AttemptedOwns(Layers(base, t, l, o), Owned(before), last);
      }
    } else {
      assert Layers(base, {}, map[], map[]) == base;
    }
  }

  lemma AttemptedOwns(live: Entries, owned: set<Slot>, a: Attempt)
    ensures a.Replaced? ==> Attempted(live, owned, a).1 == LivePart(a.staged).Keys
    ensures a.Conflicted? ==> Attempted(live, owned, a).1 == NotGraph(a.staged).Keys + GraphSlots(owned)
  {
  }

  /** The live registries do not depend on what was loaded before the last staged set exactly when no
      base entry was taken and given up, and nothing leaked that the base does not have anyway. */
  lemma HistoryIndependent(base: Entries, history: seq<Attempt>)
    ensures After(base, history).0 == base + LastStaged(history) <==>
      && Taken(history) * base.Keys <= LastStaged(history).Keys + Leaked(history).Keys
      && forall slot :: slot in Leaked(history) && slot !in LastStaged(history) ==>
           slot in base && base[slot] == Leaked(history)[slot]
  {
    HistoryExact(base, history);
    var t, l, o := Taken(history), Leaked(history), LastStaged(history);
    var live := Layers(base, t, l, o);
    if live == base + o {
      forall slot | slot in t && slot in base ensures slot in o || slot in l {
        assert slot in base + o;
      }
      forall slot | slot in l && slot !in o ensures slot in base && base[slot] == l[slot] {
        assert slot in live && live[slot] == l[slot];
      }
    }
    if
      && (forall slot :: slot in l && slot !in o ==> slot in base && base[slot] == l[slot])
      && t * base.Keys <= o.Keys + l.Keys
    {
      assert live.Keys == (base + o).Keys;
      assert live == base + o;
    }
  }

  /** Without a raising commit at a graph source nothing leaks, so only given-up base entries count. */
  lemma {:induction false} NothingLeaks(history: seq<Attempt>)
    requires forall a :: a in history ==> !a.Conflicted?
    ensures Leaked(history) == map[]
  {
    if history != [] {
      assert history[|history| - 1] in history;
      NothingLeaks(history[..|history| - 1]);
    }
  }

  lemma QuietHistory(base: Entries, history: seq<Attempt>)
    requires forall a :: a in history ==> !a.Conflicted?
    ensures After(base, history).0 == (base - Taken(history)) + LastStaged(history)
    ensures After(base, history).0 == base + LastStaged(history) <==>
      Taken(history) * base.Keys <= LastStaged(history).Keys
  {
    HistoryExact(base, history);
    NothingLeaks(history);
    HistoryIndependent(base, history);
    assert (base - Taken(history)) + map[] == base - Taken(history);
  }

  /** A plugin may re-register the identical object under its base key; when it no longer does, the
      base entry is gone. */
  lemma ReloadCanLoseABaseEntry()
    ensures exists p: Candidate, base: Entries, slot: Slot ::
      && slot in base
      && Loaded([p], [], base, {}, {}) == Ok(Staged(base, [], ["a"], []))
      && Loaded([], [], base, {slot}, {}) == Ok(Staged(map[], [], [], []))
      && slot !in After(base, [Replaced(base), Replaced(map[])]).0
  {
    var slot, o := Slot(Runners, "x"), Object(1, "hivepilot.runners.x", Some("Runner"));
    var base: Entries := map[slot := o];
    var p := Plugin("a", [Contribution(slot, o, true)], Undeclared, []);
    LoadsOne(slot, o, base);
    var history := [Replaced(base), Replaced(map[])];
    HistoryExact(base, history);
    assert history[..1] == [Replaced(base)] && history[..1][..0] == [];
    assert slot in LivePart(base) && slot in Taken(history[..1]);
    assert Loaded([], [], base, {slot}, {}) == Ok(Staged(map[], [], [], []));
    assert slot !in After(base, history).0;
  }

  /** One plugin that names one object for one slot. */
  lemma LoadsOne(slot: Slot, o: Object, live: Entries)
    requires LiveBacked(slot.registry) && (slot in live ==> live[slot] == o || SameLocalOrigin(live[slot], o))
    ensures Loaded([Plugin("a", [Contribution(slot, o, true)], Undeclared, [])], [], live, {}, {}) ==
      Ok(Staged(map[slot := o], [], ["a"], []))
  {
    var c := Contribution(slot, o, true);
    var p := Plugin("a", [c], Undeclared, []);
    var s, after := Staged(map[], [], [], []), Staged(map[slot := o], [], ["a"], []);
    assert StageAll([c][1..], live, {}, map[slot := o]) == Ok(map[slot := o]);
    assert StageAll([c], live, {}, map[]) == Ok(map[slot := o]);
    assert s.loaded + ["a"] == after.loaded && s.hooks + [] == after.hooks;
    assert Register(p, live, {}, {}, s) == Ok(after);
    assert RegisterAll([p][1..], live, {}, {}, after) == Ok(after);
    assert RegisterAll([p], live, {}, {}, s) == Ok(after);
  }

  /** A leaked graph source outlives all later reloads that do not stage its name. */
  lemma {:induction false} LeakedForever(base: Entries, history: seq<Attempt>, later: seq<Attempt>, slot: Slot)
    requires slot in Leaked(history) && slot.registry.GraphSources?
    requires forall a :: a in later && !a.Failed? ==> slot !in a.staged
    ensures slot in Leaked(history + later) && Leaked(history + later)[slot] == Leaked(history)[slot]
    ensures var live := After(base, history + later).0; slot in live && live[slot] == Leaked(history)[slot]
  {
    var whole := history + later;
    if later == [] {
      assert whole == history;
    } else {
      var n := |later| - 1;
      assert whole[..|whole| - 1] == history + later[..n] && whole[|whole| - 1] == later[n];
      LeakedForever(base, history, later[..n], slot);
      assert later[n] in later;
    }
    HistoryExact(base, whole);
    assert slot !in Owned(whole) && slot !in LastStaged(whole);
  }

  const SOURCE := Slot(GraphSources, "a")
  const HELD := Slot(GraphSources, "b")

  /** A plugin with two graph sources, the second under a name that another manager's object of the
      same local plugin file holds. */
  function TwoSources(): Candidate {
    Plugin("a", [Contribution(SOURCE, LocalSource(1), true), Contribution(HELD, LocalSource(2), true)], Undeclared, [])
  }

  function LocalSource(id: nat): Object {
    Object(id, "hivepilot_plugin_a", Some("Source"))
  }

  lemma TwoSourcesLoad(live: Entries)
    requires live == map[HELD := LocalSource(3)]
    ensures Loaded([TwoSources()], [], live, {}, {}) ==
      Ok(Staged(map[SOURCE := LocalSource(1), HELD := LocalSource(2)], [], ["a"], []))
    ensures Lists([SOURCE, HELD], {SOURCE, HELD})
  {
    assert "a"[0] != "b"[0];
    var p, cs := TwoSources(), TwoSources().contributions;
    var one, two := map[SOURCE := LocalSource(1)], map[SOURCE := LocalSource(1), HELD := LocalSource(2)];
    var s, after := Staged(map[], [], [], []), Staged(two, [], ["a"], []);
    assert cs[1..][1..] == [] && StageAll([], live, {}, two) == Ok(two);
    assert StageAll(cs[1..], live, {}, one) == Ok(two);
    assert StageAll(cs, live, {}, map[]) == Ok(two);
    assert s.loaded + ["a"] == after.loaded && s.hooks + [] == after.hooks;
    assert Register(p, live, {}, {}, s) == Ok(after);
    assert RegisterAll([p][1..], live, {}, {}, after) == Ok(after);
    assert RegisterAll([p], live, {}, {}, s) == Ok(after);
  }

  /** The commit of that set registers the first one and stops at the second. */
  lemma TwoSourcesConflict(live: Entries)
    requires live == map[HELD := LocalSource(3)]
    ensures var staged := map[SOURCE := LocalSource(1), HELD := LocalSource(2)];
      && OfGraph(staged).Keys == {SOURCE, HELD} && OfGraph(staged) == staged && NotGraph(staged) == map[]
      && GraphConflict(live, {}, staged)
      && AttemptOf(live, {}, staged, [SOURCE, HELD]) == Conflicted(staged, {SOURCE})
  {
    var staged := map[SOURCE := LocalSource(1), HELD := LocalSource(2)];
    var now := MidWay(live, {}, staged);
    assert "a"[0] != "b"[0];
    assert OfGraph(staged) == staged && NotGraph(staged) == map[] && now == live;
    assert HELD in OfGraph(staged);
    assert Held(now, staged, HELD) && !Held(now, staged, SOURCE);
    assert [SOURCE, HELD][1..] == [HELD];
    assert UpToConflict(now, staged, [HELD]) == {};
    assert UpToConflict(now, staged, [SOURCE, HELD]) == {SOURCE};
  }

  lemma NothingLoads(live: Entries, owned: set<Slot>)
    ensures Loaded([], [], live, owned, {}) == Ok(Staged(map[], [], [], []))
    ensures Lists([], OfGraph(map[]).Keys) && !GraphConflict(live, owned, map[])
  {
  }

  lemma ThenNothing(base: Entries)
    ensures var staged := map[SOURCE := LocalSource(1), HELD := LocalSource(2)];
      var history := [Conflicted(staged, {SOURCE}), Replaced(map[])];
      && After(base, history).1 == {} && LastStaged(history) == map[]
      && SOURCE in After(base, history).0
  {
    var staged := map[SOURCE := LocalSource(1), HELD := LocalSource(2)];
    var first := [Conflicted(staged, {SOURCE})];
    var history := first + [Replaced(map[])];
    assert "a"[0] != "b"[0];
    assert first[..0] == [] && history[..1] == first && history[1] == Replaced(map[]);
    assert SOURCE in OfGraph(staged) && SOURCE !in NotGraph(staged);
    assert SOURCE in Leaked(first);
    LeakedForever(base, first, [Replaced(map[])], SOURCE);
    HistoryExact(base, history);
    assert Owned(history) == {};
  }

  /** One commit turns base + previous into base + staged exactly when every base slot that the
      previous set had taken over is taken over again; otherwise a base entry is lost. */
  lemma CommitReplaces(base: Entries, previous: Entries, staged: Entries)
    ensures Committed(base + previous, previous.Keys, staged) == base + LivePart(staged) <==>
      previous.Keys * base.Keys <= LivePart(staged).Keys
  {
    var live := LivePart(staged);
    var after := Committed(base + previous, previous.Keys, staged);
    if previous.Keys * base.Keys <= live.Keys {
      assert after == base + live;
    } else {
      var slot :| slot in previous && slot in base && slot !in live;
      assert slot !in after && slot in base + live;
    }
  }

  // ---------------------------------------------------------------- the manager

  /** The process-global registries. */
  class Registries {
    var live: Entries

    constructor (builtins: Entries)
      ensures live == builtins
    {
      live := builtins;
    }
  }

  datatype ReloadOutcome = Reloaded | StagingFailed(reason: Refusal) | AlreadyReloading | CommitRaised

  class Manager {
    const registries: Registries
    const policy: set<string>
    var owned: set<Slot>
    var instance: Entries
    var loaded: seq<string>
    var denied: seq<(string, Refusal)>
    var hooks: seq<Hook>
    var reloading: bool
    ghost var base: Entries                     // the live registries when the manager was made
    ghost var history: seq<Attempt>             // what its reloads have done since

    /** Nobody else has changed the live registries meanwhile. */
    ghost predicate Tracks()
      reads this, registries
    {
      After(base, history) == (registries.live, owned)
    }

    constructor (registries: Registries, policy: set<string>)
      ensures this.registries == registries && this.policy == policy && !reloading
      ensures owned == {} && instance == map[] && Tracks() && base == registries.live && history == []
    {
      this.registries, this.policy := registries, policy;
      owned, instance, loaded, denied, hooks, reloading := {}, map[], [], [], [], false;
      base, history := registries.live, [];
    }

    /** After any sequence of reloads, the live registries are the untaken base entries, the leaked
        ones and the manager's own, and history independent in exactly the stated case. */
    lemma LiveAfterReloads()
      requires Tracks()
      ensures registries.live == (base - Taken(history)) + Leaked(history) + LastStaged(history)
      ensures registries.live == base + LastStaged(history) <==>
        && Taken(history) * base.Keys <= LastStaged(history).Keys + Leaked(history).Keys
        && forall slot :: slot in Leaked(history) && slot !in LastStaged(history) ==>
             slot in base && base[slot] == Leaked(history)[slot]
    {
      HistoryExact(base, history);
      HistoryIndependent(base, history);
    }

    /** Register the staged graph sources in the order of their dictionary; stop at a name held by
        another object. What was registered before it stays. */
    method RegisterGraphSources(specs: Entries, order: seq<Slot>) returns (raised: bool)
      requires Lists(order, specs.Keys)
      modifies registries
      ensures raised <==>
        exists slot :: slot in specs && slot in old(registries.live) && old(registries.live)[slot] != specs[slot]
      ensures registries.live == old(registries.live) + Only(specs, UpToConflict(old(registries.live), specs, order))
      ensures !raised ==> UpToConflict(old(registries.live), specs, order) == specs.Keys
    {
      hide UpToConflict, Only;
      ghost var live := registries.live;
      ghost var done: set<Slot> := {};
      NoSource(live, specs, order);
      UpToConflictMeaning(live, specs, order);
      var i := 0;
      while i < |order|
        invariant 0 <= i <= |order|
        invariant registries.live == live + Only(specs, done)
        invariant forall j :: i <= j < |order| ==> order[j] !in done
        invariant forall j :: 0 <= j < i ==> !Held(live, specs, order[j])
        invariant UpToConflict(live, specs, order) == done + UpToConflict(live, specs, order[i..])
      {
        var slot := order[i];
        NextSource(live, specs, order, i, done);
        if slot in registries.live && registries.live[slot] != specs[slot] {
          assert Held(live, specs, slot);
          return true;
        }
        registries.live := registries.live[slot := specs[slot]];
        done := done + {slot};
        i := i + 1;
      }
      assert order[i..] == [] && done + {} == done;
      return false;
    }

    /** `_commit`: the runner, notifier and secrets registries first, then the graph sources, then
        the manager's own fields. A graph conflict leaves the first three replaced, the graph sources
        before it registered, and the manager's fields as they were; an unknown hook phase leaves all
        registries replaced. */
    method Commit(s: Staged, order: seq<Slot>) returns (raised: bool)
      requires Lists(order, OfGraph(s.entries).Keys)
      modifies this, registries
      ensures reloading == old(reloading) && base == old(base) && history == old(history)
      ensures raised <==> CommitRaises(old(registries.live), old(owned), s)
      ensures (registries.live, owned) ==
        Attempted(old(registries.live), old(owned), AttemptOf(old(registries.live), old(owned), s.entries, order))
      ensures if GraphConflict(old(registries.live), old(owned), s.entries)
        then loaded == old(loaded) && denied == old(denied)
        else loaded == s.loaded && denied == s.denied
      ensures !raised ==> instance == InstancePart(s.entries) && hooks == OrderHooks(s.hooks)
      ensures raised ==> hooks == old(hooks) && instance == old(instance)
    {
      hide OfGraph, NotGraph, LivePart, InstancePart, OrderHooks, KnownPhases, Committed;
      ghost var live0 := registries.live;
      var ownedGraph := GraphSlots(owned);
      registries.live := (registries.live - (owned - ownedGraph)) + NotGraph(s.entries);
      owned := NotGraph(s.entries).Keys + ownedGraph;
      registries.live := registries.live - ownedGraph;
      CommitInTwoParts(live0, old(owned), s.entries);
      var conflict := RegisterGraphSources(OfGraph(s.entries), order);
      if conflict {
        return true;
      }
      AllOfThem(OfGraph(s.entries));
      owned := LivePart(s.entries).Keys;
      loaded := s.loaded;
      denied := s.denied;
      if !KnownPhases(s.hooks) {
        return true;
      }
      hooks := OrderHooks(s.hooks);
      instance := InstancePart(s.entries);
      return false;
    }

    lemma AllOfThem(e: Entries)
      ensures Only(e, e.Keys) == e
    {
    }

    /** Tearing down and adding registry by registry amounts to one replacement. */
    lemma CommitInTwoParts(live: Entries, owned: set<Slot>, staged: Entries)
      ensures MidWay(live, owned, staged) + OfGraph(staged) == Committed(live, owned, staged)
      ensures GraphConflict(live, owned, staged) <==>
        exists slot ::
          && slot in OfGraph(staged) && slot in MidWay(live, owned, staged)
          && MidWay(live, owned, staged)[slot] != OfGraph(staged)[slot]
    {
      hide MidWay;
      forall slot { MidWayAt(live, owned, staged, slot); }
    }

    /** Stage a new candidate set, then commit it; `order` is the one in which the dictionary of staged
        graph sources lists them. A failed staging leaves everything as it was; a
        call that finds a reload under way does nothing. Whatever happens is recorded as one attempt,
        and the live registries stay those of the history. */
    method Reload(ps: seq<Candidate>, dirs: seq<(string, Object)>, order: seq<Slot>) returns (outcome: ReloadOutcome)
      requires var loaded := Loaded(ps, dirs, registries.live, owned, policy);
        loaded.Ok? ==> Lists(order, OfGraph(loaded.value.entries).Keys)
      modifies this, registries
      ensures reloading == old(reloading) && base == old(base)
      ensures outcome == if old(reloading) then AlreadyReloading
        else match Loaded(ps, dirs, old(registries.live), old(owned), policy)
          case Err(e) => StagingFailed(e)
          case Ok(s) => if CommitRaises(old(registries.live), old(owned), s) then CommitRaised else Reloaded
      ensures outcome.AlreadyReloading? || outcome.StagingFailed? ==>
        && registries.live == old(registries.live) && owned == old(owned) && instance == old(instance)
        && loaded == old(loaded) && denied == old(denied) && hooks == old(hooks)
      ensures |history| == |old(history)| + 1 && history[..|old(history)|] == old(history)
      ensures var attempt := history[|old(history)|];
        && (registries.live, owned) == Attempted(old(registries.live), old(owned), attempt)
        && (outcome.AlreadyReloading? || outcome.StagingFailed? ==> attempt == Failed)
        && (outcome.Reloaded? || outcome.CommitRaised? ==>
              var s := Loaded(ps, dirs, old(registries.live), old(owned), policy).value;
              && attempt == AttemptOf(old(registries.live), old(owned), s.entries, order)
              && (outcome.Reloaded? ==>
                    && instance == InstancePart(s.entries) && hooks == OrderHooks(s.hooks)
                    && loaded == s.loaded && denied == s.denied))
      ensures old(Tracks()) ==> Tracks()
    {
      hide OfGraph, NotGraph, LivePart, InstancePart, OrderHooks, KnownPhases, Committed, Attempted, Loaded,
        GraphConflict;
      AttemptsAdd(base, history);
      FailedLayer(registries.live, owned);
      if reloading {
        history := history + [Failed];
        return AlreadyReloading;
      }
      reloading := true;
      var staged := LoadInto(ps, dirs, registries.live, owned, policy);
      if staged.Err? {
        reloading := false;
        history := history + [Failed];
        return StagingFailed(staged.error);
      }
      history := history + [AttemptOf(registries.live, owned, staged.value.entries, order)];
      var raised := Commit(staged.value, order);
      reloading := false;
      return if raised then CommitRaised else Reloaded;
    }
  }

  /** A reload that stages and then raises, and a reload to the empty set: the first graph source is
      still registered, and nobody owns it. */
  method ConflictLeaks() returns (m: Manager)
    ensures m.Tracks() && |m.history| == 2 && m.history[0].Conflicted? && m.history[1] == Replaced(map[])
    ensures SOURCE in m.registries.live && SOURCE !in m.base && SOURCE !in m.owned && m.owned == {}
    ensures m.registries.live != m.base + LastStaged(m.history)
  {
    hide Loaded, TwoSources, Committed, GraphConflict, MidWay;
    var registries := new Registries(map[HELD := LocalSource(3)]);
    m := new Manager(registries, {});
    TwoSourcesLoad(registries.live);
    TwoSourcesConflict(registries.live);
    var raised := m.Reload([TwoSources()], [], [SOURCE, HELD]);
    NothingLoads(registries.live, m.owned);
    var empty := m.Reload([], [], []);
    ThenNothing(m.base);
  }

  lemma AttemptsAdd(base: Entries, history: seq<Attempt>)
    ensures forall a :: After(base, history + [a]) == Attempted(After(base, history).0, After(base, history).1, a)
  {
    forall a ensures After(base, history + [a]) == Attempted(After(base, history).0, After(base, history).1, a) {
      assert (history + [a])[..|history|] == history;
    }
  }
}
