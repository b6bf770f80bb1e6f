/** Staging one scan of the plugin set: collision checks against the live and the staged entries,
    the capability gate, and the rollback of a refused plugin. */
module PluginStaging {
  import opened Core

  /** The contribution types. The first four are staged for a process-global registry, the others
      for the manager's own dictionaries. */
  datatype Registry = Runners | Notifiers | Secrets | GraphSources | Health | Panels | Skills

  predicate LiveBacked(r: Registry) {
    r.Runners? || r.Notifiers? || r.Secrets? || r.GraphSources?
  }

  /** One name in one registry. */
  datatype Slot = Slot(registry: Registry, name: string)

  /** A registered object: its identity, and the module and qualified name it comes from. */
  datatype Object = Object(identity: nat, moduleName: string, qualname: Option<string>)

  /** All registries together; the slots keep them apart. */
  type Entries = map<Slot, Object>

  const LOCAL_PLUGIN_MODULE_PREFIX := "hivepilot_plugin_"

  predicate IsLocalPlugin(o: Object) {
    LOCAL_PLUGIN_MODULE_PREFIX <= o.moduleName
  }

  /** Different objects, unmistakably made by the same local plugin file. */
  predicate SameLocalOrigin(current: Object, o: Object) {
    IsLocalPlugin(o) && current.moduleName == o.moduleName && o.qualname.Some? && current.qualname == o.qualname
  }

  /** One entry of a plugin's `register()` result. `roleOk` is false for a panel or skill with an
      invalid `min_role`. */
  datatype Contribution = Contribution(slot: Slot, item: Object, roleOk: bool)

  datatype Refusal =
    | Collision(slot: Slot)
    | InvalidRole(slot: Slot)
    | CapabilityInvalid
    | CapabilityDenied(tokens: set<string>)

  const PLUGIN_CAPABILITIES: set<string> := {"network", "filesystem", "subprocess", "secrets_access", "env"}

  /** A declared capability manifest; None when the plugin declares nothing. */
  datatype Manifest = Undeclared | Malformed | Declared(tokens: set<string>)

  function ValidateCapabilities(m: Manifest, policy: set<string>): Result<set<string>, Refusal> {
    match m
    case Undeclared => Ok({})
    case Malformed => Err(CapabilityInvalid)
    case Declared(tokens) =>
      if tokens - PLUGIN_CAPABILITIES != {} then Err(CapabilityInvalid)
      else if tokens - policy != {} then Err(CapabilityDenied(tokens - policy))
      else Ok(tokens)
  }

  /** A lifecycle hook and the phase it declares. */
  datatype Hook = Hook(name: string, callable: nat, phase: string)

  /** What the scan found, in order; `register()` itself may raise. */
  datatype Candidate =
    | Broken(name: string)
    | Plugin(name: string, contributions: seq<Contribution>, manifest: Manifest, hooks: seq<Hook>)

  // ---------------------------------------------------------------- the rule of the gate

  /** Who may load: a plugin that declares nothing, or only tokens that are known and that the
      operator allows. */
  predicate MayLoad(p: Candidate, policy: set<string>) {
    p.Plugin? && match p.manifest
      case Undeclared => true
      case Malformed => false
      case Declared(tokens) => forall token :: token in tokens ==> token in PLUGIN_CAPABILITIES && token in policy
  }

  /** Why another one may not: a manifest that is no list of known tokens is a fault of the plugin;
      otherwise the tokens that the operator does not allow. */
  function WhyNot(p: Candidate, policy: set<string>): Refusal {
    if p.Plugin? && p.manifest.Declared? && forall token :: token in p.manifest.tokens ==> token in PLUGIN_CAPABILITIES
    then CapabilityDenied(set token | token in p.manifest.tokens && token !in policy)
    else CapabilityInvalid
  }

  /** The gate follows the rule. */
  lemma GateMeaning(p: Candidate, policy: set<string>)
    requires p.Plugin?
    ensures ValidateCapabilities(p.manifest, policy).Ok? <==> MayLoad(p, policy)
    ensures ValidateCapabilities(p.manifest, policy).Err? ==>
      ValidateCapabilities(p.manifest, policy).error == WhyNot(p, policy)
  {
    if p.manifest.Declared? {
      var tokens := p.manifest.tokens;
      assert tokens - PLUGIN_CAPABILITIES == {} <==> forall token :: token in tokens ==> token in PLUGIN_CAPABILITIES;
      assert tokens - policy == set token | token in tokens && token !in policy;
    }
  }

  // ---------------------------------------------------------------- one contribution

  /** What already claims the slot, if anything. */
  function Claimant(slot: Slot, live: Entries, owned: set<Slot>, staged: Entries): Option<Object> {
    if slot in staged then Some(staged[slot])
    else if LiveBacked(slot.registry) && slot in live && slot !in owned then Some(live[slot])
    else None
  }

  function Stage(c: Contribution, live: Entries, owned: set<Slot>, staged: Entries): Result<Entries, Refusal> {
    var current := Claimant(c.slot, live, owned, staged);
    if LiveBacked(c.slot.registry) then
      if current.Some? && current.value != c.item && !SameLocalOrigin(current.value, c.item) then Err(Collision(c.slot))
      else Ok(staged[c.slot := c.item])
    else if current.Some? then Err(Collision(c.slot))
    else if (c.slot.registry.Panels? || c.slot.registry.Skills?) && !c.roleOk then Err(InvalidRole(c.slot))
    else Ok(staged[c.slot := c.item])
  }

  /** Who may stage what. A slot of a process-global registry that is staged, or live and not the
      manager's own, goes only to the object that has it or to one that the same local plugin file made
      under the same qualified name; any other slot must not be staged yet. A panel or skill needs a
      valid role. */
  predicate MayStage(c: Contribution, live: Entries, owned: set<Slot>, staged: Entries) {
    if c.slot.registry in {Runners, Notifiers, Secrets, GraphSources} then
      (c.slot in staged ==> MayFollow(staged[c.slot], c.item))
      && (c.slot in live && c.slot !in staged && c.slot !in owned ==> MayFollow(live[c.slot], c.item))
    else c.slot !in staged && (c.slot.registry in {Panels, Skills} ==> c.roleOk)
  }

  predicate MayFollow(current: Object, o: Object) {
    current == o
    || ("hivepilot_plugin_" <= o.moduleName && current.moduleName == o.moduleName && o.qualname.Some?
        && current.qualname == o.qualname)
  }

  /** A contribution is staged exactly when it may be, in its slot and nowhere else; a role is refused
      as such only where nothing collides. */
  lemma StageMeaning(c: Contribution, live: Entries, owned: set<Slot>, staged: Entries)
    ensures Stage(c, live, owned, staged).Ok? <==> MayStage(c, live, owned, staged)
    ensures Stage(c, live, owned, staged).Ok? ==> Stage(c, live, owned, staged).value == staged[c.slot := c.item]
    ensures Stage(c, live, owned, staged).Err? ==>
      Stage(c, live, owned, staged).error ==
        if c.slot.registry in {Panels, Skills} && c.slot !in staged then InvalidRole(c.slot) else Collision(c.slot)
  {
  }

  /** A plugin's contributions are staged one after the other, and go through exactly when each may be
      staged on top of those before it. */
  lemma {:induction false} StageAllIff(cs: seq<Contribution>, live: Entries, owned: set<Slot>, staged: Entries)
    ensures StageAll(cs, live, owned, staged).Ok? <==>
      forall i :: 0 <= i < |cs| ==> MayStage(cs[i], live, owned, StagedBefore(cs, staged, i))
  {
    if cs != [] {
      StageMeaning(cs[0], live, owned, staged);
      assert StagedBefore(cs, staged, 0) == staged;
      if MayStage(cs[0], live, owned, staged) {
        var first := staged[cs[0].slot := cs[0].item];
        StageAllIff(cs[1..], live, owned, first);
        forall i | 0 <= i < |cs| - 1 ensures StagedBefore(cs[1..], first, i) == StagedBefore(cs, staged, i + 1) {
          BeforeShifts(cs, staged, i);
        }
        forall i | 1 <= i < |cs| ensures cs[i] == cs[1..][i - 1] { }
      }
    }
  }

  /** The entries with the first `i` contributions in. */
  function StagedBefore(cs: seq<Contribution>, staged: Entries, i: nat): Entries
    requires i <= |cs|
  {
    if i == 0 then staged else StagedBefore(cs, staged, i - 1)[cs[i - 1].slot := cs[i - 1].item]
  }

  lemma {:induction false} BeforeShifts(cs: seq<Contribution>, staged: Entries, i: nat)
    requires i < |cs|
    ensures StagedBefore(cs[1..], staged[cs[0].slot := cs[0].item], i) == StagedBefore(cs, staged, i + 1)
  {
    if i > 0 {
      BeforeShifts(cs, staged, i - 1);
    }
  }

  // ---------------------------------------------------------------- one plugin

  /** Staging all contributions of one plugin, in order. */
  function StageAll(cs: seq<Contribution>, live: Entries, owned: set<Slot>, staged: Entries): Result<Entries, Refusal> {
    if cs == [] then Ok(staged)
    else
      var first := Stage(cs[0], live, owned, staged);
      if first.Err? then first else StageAll(cs[1..], live, owned, first.value)
  }

  /** The last object that the contributions name for a slot. */
  function LastFor(cs: seq<Contribution>, slot: Slot): Option<Object> {
    if cs == [] then None
    else
      var later := LastFor(cs[1..], slot);
      if later.Some? then later else if cs[0].slot == slot then Some(cs[0].item) else None
  }

  /** Staging adds exactly the plugin's slots; each holds the plugin's last object for it. */
  lemma {:induction false} StageAllMeaning(cs: seq<Contribution>, live: Entries, owned: set<Slot>, staged: Entries)
    requires StageAll(cs, live, owned, staged).Ok?
    ensures var after := StageAll(cs, live, owned, staged).value;
      forall slot ::
        && (slot in after <==> slot in staged || LastFor(cs, slot).Some?)
        && (slot in after ==> after[slot] == if LastFor(cs, slot).Some? then LastFor(cs, slot).value else staged[slot])
  {
    if cs != [] {
      StageAllMeaning(cs[1..], live, owned, Stage(cs[0], live, owned, staged).value);
    }
  }

  /** A plugin can only get past the collision check of a taken slot with the identical object or
      with another object of the same local plugin file. */
  lemma {:induction false} StagedOverTakenSlot(cs: seq<Contribution>, live: Entries, owned: set<Slot>, staged: Entries,
                                               slot: Slot)
    requires StageAll(cs, live, owned, staged).Ok?
    requires Claimant(slot, live, owned, staged).Some? && LastFor(cs, slot).Some?
    ensures var was, last := Claimant(slot, live, owned, staged).value, LastFor(cs, slot).value;
      LiveBacked(slot.registry) && (last == was || SameLocalOrigin(was, last))
  {
    var after := Stage(cs[0], live, owned, staged).value;
    if LastFor(cs[1..], slot).Some? {
      StagedOverTakenSlot(cs[1..], live, owned, after, slot);
    }
  }

  /** `_rollback_staged` after a refusal: the slots that this plugin added go away. */
  function RolledBack(before: Entries, after: Entries): Entries {
    map slot | slot in after && slot in before :: after[slot]
  }

  /** The plugin's last object for some slot that was staged before it is a different one. */
  predicate Overwrites(cs: seq<Contribution>, staged: Entries) {
    exists slot :: slot in staged && LastFor(cs, slot).Some? && LastFor(cs, slot).value != staged[slot]
  }

  /** A plugin that the capability gate refuses leaves the staged entries exactly as they were, if
      and only if it overwrote none of them. */
  lemma RollbackRestores(cs: seq<Contribution>, live: Entries, owned: set<Slot>, staged: Entries)
    requires StageAll(cs, live, owned, staged).Ok?
    ensures RolledBack(staged, StageAll(cs, live, owned, staged).value) == staged <==> !Overwrites(cs, staged)
  {
    StageAllMeaning(cs, live, owned, staged);
    var after := StageAll(cs, live, owned, staged).value;
    var back := RolledBack(staged, after);
    if !Overwrites(cs, staged) {
      assert back == staged;
    } else {
      var slot :| slot in staged && LastFor(cs, slot).Some? && LastFor(cs, slot).value != staged[slot];
      assert back[slot] != staged[slot];
    }
  }

  /** Plugin files with distinct stems never overwrite each other. */
  lemma DistinctOriginsRestore(cs: seq<Contribution>, live: Entries, owned: set<Slot>, staged: Entries)
    requires StageAll(cs, live, owned, staged).Ok?
    requires forall slot :: slot in staged && LastFor(cs, slot).Some? ==>
      !IsLocalPlugin(LastFor(cs, slot).value) || LastFor(cs, slot).value.moduleName != staged[slot].moduleName
    ensures RolledBack(staged, StageAll(cs, live, owned, staged).value) == staged
  {
    forall slot | slot in staged && LastFor(cs, slot).Some? ensures LastFor(cs, slot).value == staged[slot] {
      StagedOverTakenSlot(cs, live, owned, staged, slot);
    }
    RollbackRestores(cs, live, owned, staged);
  }

  // ---------------------------------------------------------------- a whole pass

  /** The part of a pass's outcome that the theorems speak of. */
  datatype Staged = Staged(entries: Entries, denied: seq<(string, Refusal)>, loaded: seq<string>, hooks: seq<Hook>)

  /** One plugin: a collision stops the pass, a capability verdict only skips the plugin. */
  function Register(p: Candidate, live: Entries, owned: set<Slot>, policy: set<string>, s: Staged)
    : Result<Staged, Refusal>
  {
    match p
    case Broken(_) => Ok(s)
    case Plugin(name, contributions, manifest, hooks) =>
      var after := StageAll(contributions, live, owned, s.entries);
      if after.Err? then Err(after.error)
      else
        var verdict := ValidateCapabilities(manifest, policy);
        if verdict.Err? then
          Ok(s.(entries := RolledBack(s.entries, after.value), denied := s.denied + [(name, verdict.error)]))
        else Ok(s.(entries := after.value, loaded := s.loaded + [name], hooks := s.hooks + hooks))
  }

  function RegisterAll(ps: seq<Candidate>, live: Entries, owned: set<Slot>, policy: set<string>, s: Staged)
    : Result<Staged, Refusal>
  {
    if ps == [] then Ok(s)
    else
      var first := Register(ps[0], live, owned, policy, s);
      if first.Err? then first else RegisterAll(ps[1..], live, owned, policy, first.value)
  }

  /** Directory skills come last and never replace a plugin's skill. */
  function AddDirectorySkills(entries: Entries, dirs: seq<(string, Object)>): Entries
    decreases |dirs|
  {
    if dirs == [] then entries
    else
      var slot := Slot(Skills, dirs[0].0);
      AddDirectorySkills(if slot in entries then entries else entries[slot := dirs[0].1], dirs[1..])
  }

  lemma {:induction false} DirectorySkillsAddOnly(entries: Entries, dirs: seq<(string, Object)>)
    ensures var after := AddDirectorySkills(entries, dirs);
      && (forall slot :: slot in entries ==> slot in after && after[slot] == entries[slot])
      && (forall slot :: slot in after && slot !in entries ==> slot.registry.Skills?)
    decreases |dirs|
  {
    if dirs != [] {
      var slot := Slot(Skills, dirs[0].0);
      DirectorySkillsAddOnly(if slot in entries then entries else entries[slot := dirs[0].1], dirs[1..]);
    }
  }

  /** Each directory skill that no plugin has contributed is there with its first object; a plugin's
      entries are as they were; and nothing else is added. */
  ghost predicate SkillsAdded(ps: seq<Candidate>, dirs: seq<(string, Object)>, live: Entries, owned: set<Slot>,
                              policy: set<string>, entries: Entries)
  {
    var pass := RegisterAll(ps, live, owned, policy, Staged(map[], [], [], []));
    && pass.Ok?
    && (forall slot :: slot in pass.value.entries ==> slot in entries && entries[slot] == pass.value.entries[slot])
    && (forall i :: 0 <= i < |dirs| ==> Slot(Skills, dirs[i].0) in entries)
    && (forall slot :: slot in entries && slot !in pass.value.entries ==>
          exists i :: 0 <= i < |dirs| && FirstOfName(dirs, i, slot, entries[slot]))
  }

  /** The directory skill at `i` is the first one of its name, and this is its object. */
  predicate FirstOfName(dirs: seq<(string, Object)>, i: nat, slot: Slot, o: Object)
    requires i < |dirs|
  {
    slot == Slot(Skills, dirs[i].0) && o == dirs[i].1 && forall j :: 0 <= j < i ==> dirs[j].0 != dirs[i].0
  }

  lemma SkillsOfThePass(ps: seq<Candidate>, dirs: seq<(string, Object)>, live: Entries, owned: set<Slot>,
                        policy: set<string>)
    ensures Loaded(ps, dirs, live, owned, policy).Ok? ==>
      SkillsAdded(ps, dirs, live, owned, policy, Loaded(ps, dirs, live, owned, policy).value.entries)
  {
    var pass := RegisterAll(ps, live, owned, policy, Staged(map[], [], [], []));
    if pass.Ok? {
      DirectorySkillsAddOnly(pass.value.entries, dirs);
      DirectorySkillsAreThere(pass.value.entries, dirs);
    }
  }

  lemma {:induction false} DirectorySkillsAreThere(entries: Entries, dirs: seq<(string, Object)>)
    ensures var after := AddDirectorySkills(entries, dirs);
      && (forall i :: 0 <= i < |dirs| ==> Slot(Skills, dirs[i].0) in after)
      && (forall slot :: slot in after && slot !in entries ==>
            exists i :: 0 <= i < |dirs| && FirstOfName(dirs, i, slot, after[slot]))
    decreases |dirs|
  {
    if dirs != [] {
      var slot0 := Slot(Skills, dirs[0].0);
      var next, rest := if slot0 in entries then entries else entries[slot0 := dirs[0].1], dirs[1..];
      var after := AddDirectorySkills(next, rest);
      DirectorySkillsAreThere(next, rest);
      DirectorySkillsAddOnly(next, rest);
      forall i | 0 <= i < |dirs| ensures Slot(Skills, dirs[i].0) in after {
        assert i > 0 ==> dirs[i] == rest[i - 1];
      }
      forall slot | slot in after && slot !in entries
        ensures exists i :: 0 <= i < |dirs| && FirstOfName(dirs, i, slot, after[slot])
      {
        if slot == slot0 {
          assert FirstOfName(dirs, 0, slot, after[slot]);
        } else {
          var i :| 0 <= i < |rest| && FirstOfName(rest, i, slot, after[slot]);
          forall j | 0 <= j < i + 1 ensures dirs[j].0 != dirs[i + 1].0 {
            assert j > 0 ==> dirs[j] == rest[j - 1];
          }
          assert FirstOfName(dirs, i + 1, slot, after[slot]);
        }
      }
    }
  }

  /** The outcome of `_load_into`. */
  function Loaded(ps: seq<Candidate>, dirs: seq<(string, Object)>, live: Entries, owned: set<Slot>, policy: set<string>)
    : Result<Staged, Refusal>
  {
    var s := RegisterAll(ps, live, owned, policy, Staged(map[], [], [], []));
    if s.Err? then s else Ok(s.value.(entries := AddDirectorySkills(s.value.entries, dirs)))
  }

  // ---------------------------------------------------------------- the staging object

  /** `_StagedPluginState`, filled in place by one pass over the candidates. */
  class StagingArea {
    const live: Entries
    const owned: set<Slot>
    const policy: set<string>
    var entries: Entries
    var denied: seq<(string, Refusal)>
    var loaded: seq<string>
    var hooks: seq<Hook>

    constructor (live: Entries, owned: set<Slot>, policy: set<string>)
      ensures this.live == live && this.owned == owned && this.policy == policy
      ensures Contents() == Staged(map[], [], [], [])
    {
      this.live, this.owned, this.policy := live, owned, policy;
      entries, denied, loaded, hooks := map[], [], [], [];
    }

    function Contents(): Staged
      reads this
    {
      Staged(entries, denied, loaded, hooks)
    }

    /** Stage the contributions one by one, noting the slots that were not there before. */
    method StageContributions(cs: seq<Contribution>) returns (refused: Option<Refusal>, applied: set<Slot>)
      modifies this`entries
      ensures refused.None? <==> StageAll(cs, live, owned, old(entries)).Ok?
      ensures refused.None? ==> StageAll(cs, live, owned, old(entries)) == Ok(entries)
      ensures refused.Some? ==> StageAll(cs, live, owned, old(entries)) == Err(refused.value)
      ensures applied == entries.Keys - old(entries).Keys && old(entries).Keys <= entries.Keys
    {
      applied := {};
      var i := 0;
      while i < |cs|
        invariant 0 <= i <= |cs|
        invariant StageAll(cs[i..], live, owned, entries) == StageAll(cs, live, owned, old(entries))
        invariant applied == entries.Keys - old(entries).Keys && old(entries).Keys <= entries.Keys
      {
        assert cs[i..][1..] == cs[i + 1..];
        var slot := cs[i].slot;
        var wasPresent := slot in entries;
        var next := Stage(cs[i], live, owned, entries);
        if next.Err? {
          return Some(next.error), applied;
        }
        entries := next.value;
        if !wasPresent {
          applied := applied + {slot};
        }
        i := i + 1;
      }
      return None, applied;
    }

    /** Take out the slots that this plugin added. */
    method Rollback(applied: set<Slot>)
      modifies this`entries
      ensures entries == old(entries) - applied
    {
      var todo := applied;
      while todo != {}
        invariant todo <= applied
        invariant entries == old(entries) - (applied - todo)
      {
        var slot :| slot in todo;
        entries := entries - {slot};
        todo := todo - {slot};
      }
    }

    /** One plugin of the pass. A hard refusal also rolls back before it is raised. */
    method RegisterPlugin(p: Candidate) returns (raised: Option<Refusal>)
      modifies this
      ensures raised.Some? ==> Register(p, live, owned, policy, old(Contents())) == Err(raised.value)
      ensures raised.None? ==> Register(p, live, owned, policy, old(Contents())) == Ok(Contents())
      ensures raised.Some? ==> entries.Keys == old(entries).Keys
      ensures raised.None? ==>
        if MayLoad(p, policy) then
          loaded == old(loaded) + [p.name] && hooks == old(hooks) + p.hooks && denied == old(denied)
        else
          && loaded == old(loaded) && hooks == old(hooks) && entries.Keys == old(entries).Keys
          && denied == old(denied) + (if p.Plugin? then [(p.name, WhyNot(p, policy))] else [])
    {
      if p.Plugin? { GateMeaning(p, policy); }
      hide MayLoad, WhyNot, ValidateCapabilities;
      if p.Broken? {
        return None;
      }
      var refused, applied := StageContributions(p.contributions);
      if refused.Some? {
        Rollback(applied);
        return refused;
      }
      var verdict := ValidateCapabilities(p.manifest, policy);
      if verdict.Err? {
        ghost var after := entries;
        Rollback(applied);
        assert entries == RolledBack(old(entries), after);
        denied := denied + [(p.name, verdict.error)];
        return None;
      }
      hooks := hooks + p.hooks;
      loaded := loaded + [p.name];
      return None;
    }

    method AddDirectories(dirs: seq<(string, Object)>)
      modifies this`entries
      ensures entries == AddDirectorySkills(old(entries), dirs)
    {
      var i := 0;
      while i < |dirs|
        invariant 0 <= i <= |dirs|
        invariant AddDirectorySkills(entries, dirs[i..]) == AddDirectorySkills(old(entries), dirs)
      {
        assert dirs[i..][1..] == dirs[i + 1..];
        var slot := Slot(Skills, dirs[i].0);
        if slot !in entries {
          entries := entries[slot := dirs[i].1];
        }
        i := i + 1;
      }
    }
  }

  /** `_load_into`: the whole pass, on a staging object of its own; no live entry is touched. */
  method LoadInto(ps: seq<Candidate>, dirs: seq<(string, Object)>, live: Entries, owned: set<Slot>, policy: set<string>)
    returns (r: Result<Staged, Refusal>)
    ensures r == Loaded(ps, dirs, live, owned, policy)
    // who is loaded, whose hooks run, and who is refused why
    ensures r.Ok? ==>
      && r.value.loaded == NamesOf(Admitted(ps, policy)) && r.value.hooks == HooksOf(Admitted(ps, policy))
      && r.value.denied == Refused(ps, policy)
    // every directory skill is there, and replaces nothing
    ensures r.Ok? ==> SkillsAdded(ps, dirs, live, owned, policy, r.value.entries)
  {
    SkillsOfThePass(ps, dirs, live, owned, policy);
    GateOfThePass(ps, live, owned, policy, Staged(map[], [], [], []));
    var area := new StagingArea(live, owned, policy);
    var i := 0;
    while i < |ps|
      invariant 0 <= i <= |ps|
      invariant fresh(area) && area.live == live && area.owned == owned && area.policy == policy
      invariant RegisterAll(ps[i..], live, owned, policy, area.Contents())
        == RegisterAll(ps, live, owned, policy, Staged(map[], [], [], []))
    {
      assert ps[i..][1..] == ps[i + 1..];
      var raised := area.RegisterPlugin(ps[i]);
      if raised.Some? {
        return Err(raised.value);
      }
      i := i + 1;
    }
    area.AddDirectories(dirs);
    return Ok(area.Contents());
  }

  /** A refused plugin leaves no trace but its name in `denied`, when it overwrote nothing. */
  lemma RefusedPluginLeavesNoTrace(p: Candidate, live: Entries, owned: set<Slot>, policy: set<string>, s: Staged)
    requires p.Plugin? && StageAll(p.contributions, live, owned, s.entries).Ok?
    requires ValidateCapabilities(p.manifest, policy).Err?
    ensures Register(p, live, owned, policy, s) ==
      Ok(s.(denied := s.denied + [(p.name, ValidateCapabilities(p.manifest, policy).error)]))
      <==> !Overwrites(p.contributions, s.entries)
  {
    RollbackRestores(p.contributions, live, owned, s.entries);
  }

  /** A pass in which a refused plugin takes the entry of a loaded one with it. Both objects say that
      one local plugin file made them; a scan loads no file stem twice, so the second one comes from a
      module that is installed under such a name. */
  lemma RollbackCanLoseAnEntry()
    ensures exists p: Candidate, q: Candidate, slot: Slot, mine: Object, other: Object ::
      && mine != other && p.Plugin? && q.Plugin?
      && p.contributions == [Contribution(slot, mine, true)] && q.contributions == [Contribution(slot, other, true)]
      && Loaded([p, q], [], map[], {}, {}) ==
         Ok(Staged(map[slot := other], [(q.name, CapabilityDenied({"subprocess"}))], [p.name], []))
  {
    var slot := Slot(Runners, "x");
    var mine, other := Object(1, "hivepilot_plugin_a", Some("Runner")), Object(2, "hivepilot_plugin_a", Some("Runner"));
    var p := Plugin("a", [Contribution(slot, mine, true)], Undeclared, []);
    var q := Plugin("b", [Contribution(slot, other, true)], Declared({"subprocess"}), []);
    var s0, s1 := Staged(map[], [], [], []), Staged(map[slot := mine], [], ["a"], []);
    var s2 := Staged(map[slot := other], [("b", CapabilityDenied({"subprocess"}))], ["a"], []);
    assert StageAll(p.contributions[1..], map[], {}, map[slot := mine]) == Ok(map[slot := mine]);
    assert StageAll(p.contributions, map[], {}, map[]) == Ok(map[slot := mine]);
    assert s0.loaded + ["a"] == ["a"] && s0.hooks + [] == [];
    assert Register(p, map[], {}, {}, s0) == Ok(s1);
    assert s1.entries[slot := other] == map[slot := other];
    assert StageAll(q.contributions[1..], map[], {}, map[slot := other]) == Ok(map[slot := other]);
    assert StageAll(q.contributions, map[], {}, s1.entries) == Ok(map[slot := other]);
    assert ValidateCapabilities(q.manifest, {}) == Err(CapabilityDenied({"subprocess"})) by {
      assert {"subprocess"} - PLUGIN_CAPABILITIES == {} && "subprocess" in {"subprocess"} - {};
      assert {"subprocess"} - {} == {"subprocess"};
    }
    assert RolledBack(s1.entries, map[slot := other]) == map[slot := other];
    assert s1.denied + [("b", CapabilityDenied({"subprocess"}))] == s2.denied;
    assert Register(q, map[], {}, {}, s1) == Ok(s2);
    assert [p, q][1..] == [q] && [q][1..] == [];
    assert RegisterAll([q], map[], {}, {}, s1) == Ok(s2);
    assert RegisterAll([p, q], map[], {}, {}, s0) == Ok(s2);
  }

  // ---------------------------------------------------------------- what a pass amounts to

  /** The plugins that may load. */
  function Admitted(ps: seq<Candidate>, policy: set<string>): seq<Candidate> {
    if ps == [] then []
    else
      (if MayLoad(ps[0], policy) then [ps[0]] else [])
      + Admitted(ps[1..], policy)
  }

  /** The plugins that may not, with the reasons. */
  function Refused(ps: seq<Candidate>, policy: set<string>): seq<(string, Refusal)> {
    if ps == [] then []
    else
      (if ps[0].Plugin? && !MayLoad(ps[0], policy)
       then [(ps[0].name, WhyNot(ps[0], policy))] else []) + Refused(ps[1..], policy)
  }

  function NamesOf(ps: seq<Candidate>): seq<string> {
    seq(|ps|, i requires 0 <= i < |ps| => ps[i].name)
  }

  function HooksOf(ps: seq<Candidate>): seq<Hook> {
    if ps == [] then [] else (if ps[0].Plugin? then ps[0].hooks else []) + HooksOf(ps[1..])
  }

  /** A pass that goes through loads exactly those that may, with their hooks, and refuses the others
      with the reasons, all in order. */
  lemma {:induction false} GateOfThePass(ps: seq<Candidate>, live: Entries, owned: set<Slot>, policy: set<string>,
                                         s: Staged)
    ensures RegisterAll(ps, live, owned, policy, s).Ok? ==>
      var after := RegisterAll(ps, live, owned, policy, s).value;
      && after.loaded == s.loaded + NamesOf(Admitted(ps, policy))
      && after.hooks == s.hooks + HooksOf(Admitted(ps, policy))
      && after.denied == s.denied + Refused(ps, policy)
  {
    hide MayLoad, WhyNot, ValidateCapabilities, Register, Admitted, Refused, NamesOf, HooksOf;
    if ps == [] {
      NobodyLoads(policy);
    } else if Register(ps[0], live, owned, policy, s).Ok? {
      var s' := Register(ps[0], live, owned, policy, s).value;
      GateOfThePass(ps[1..], live, owned, policy, s');
      GateOfOne(ps[0], live, owned, policy, s);
      FirstOfThePass(ps, policy);
    }
  }

  lemma NobodyLoads(policy: set<string>)
    ensures NamesOf(Admitted([], policy)) == [] && HooksOf(Admitted([], policy)) == [] && Refused([], policy) == []
  {
  }

  lemma GateOfOne(p: Candidate, live: Entries, owned: set<Slot>, policy: set<string>, s: Staged)
    requires Register(p, live, owned, policy, s).Ok?
    ensures var after := Register(p, live, owned, policy, s).value;
      if MayLoad(p, policy) then
        p.Plugin? && after.loaded == s.loaded + [p.name] && after.hooks == s.hooks + p.hooks && after.denied == s.denied
      else
        && after.loaded == s.loaded && after.hooks == s.hooks
        && after.denied == s.denied + if p.Plugin? then [(p.name, WhyNot(p, policy))] else []
  {
    if p.Plugin? { GateMeaning(p, policy); }
    MayLoadPlugin(p, policy);
    hide MayLoad, WhyNot, ValidateCapabilities, StageAll;
  }

  lemma FirstOfThePass(ps: seq<Candidate>, policy: set<string>)
    requires ps != []
    ensures var p, rest, admitted := ps[0], ps[1..], Admitted(ps, policy);
      && Refused(ps, policy) ==
           (if p.Plugin? && !MayLoad(p, policy) then [(p.name, WhyNot(p, policy))] else []) + Refused(rest, policy)
      && NamesOf(admitted) == (if MayLoad(p, policy) then [p.name] else []) + NamesOf(Admitted(rest, policy))
      && HooksOf(admitted) ==
           (if MayLoad(p, policy) && p.Plugin? then p.hooks else []) + HooksOf(Admitted(rest, policy))
  {
    var p, rest := ps[0], Admitted(ps[1..], policy);
    FirstOf(p, rest);
    hide MayLoad, WhyNot, NamesOf, HooksOf;
    if MayLoad(p, policy) {
      assert Admitted(ps, policy) == [p] + rest;
    } else {
      assert Admitted(ps, policy) == rest;
    }
  }

  lemma FirstOf(p: Candidate, rest: seq<Candidate>)
    ensures NamesOf([p] + rest) == [p.name] + NamesOf(rest)
    ensures HooksOf([p] + rest) == (if p.Plugin? then p.hooks else []) + HooksOf(rest)
  {
    assert ([p] + rest)[1..] == rest;
  }

  lemma MayLoadPlugin(p: Candidate, policy: set<string>)
    ensures MayLoad(p, policy) ==> p.Plugin?
  {
  }

  /** No object of `p` claims the local plugin file that made `o`. */
  predicate ApartFrom(p: Candidate, o: Object) {
    p.Plugin? ==> forall c :: c in p.contributions ==> IsLocalPlugin(c.item) ==> c.item.moduleName != o.moduleName
  }

  ghost predicate EntriesApart(ps: seq<Candidate>, entries: Entries) {
    forall p, slot :: p in ps && slot in entries ==> ApartFrom(p, entries[slot])
  }

  /** Different candidates come from different local plugin files. */
  ghost predicate DistinctOrigins(ps: seq<Candidate>) {
    forall i, j :: 0 <= i < j < |ps| && ps[i].Plugin? ==> forall c :: c in ps[i].contributions ==>
      ApartFrom(ps[j], c.item)
  }

  lemma {:induction false} LastForIsOne(cs: seq<Contribution>, slot: Slot)
    requires LastFor(cs, slot).Some?
    ensures exists c :: c in cs && c.item == LastFor(cs, slot).value
  {
    if LastFor(cs[1..], slot).Some? {
      LastForIsOne(cs[1..], slot);
      var c :| c in cs[1..] && c.item == LastFor(cs[1..], slot).value;
      assert c in cs;
    } else {
      assert cs[0] in cs;
    }
  }

  /** The list of refusals only rides along. */
  lemma {:induction false} DeniedRides(ps: seq<Candidate>, live: Entries, owned: set<Slot>, policy: set<string>,
                                       s: Staged, d: seq<(string, Refusal)>)
    requires RegisterAll(ps, live, owned, policy, s).Ok?
    requires forall p :: p in ps ==> MayLoad(p, policy)
    ensures RegisterAll(ps, live, owned, policy, s).value.denied == s.denied
    ensures RegisterAll(ps, live, owned, policy, s.(denied := d)) ==
      Ok(RegisterAll(ps, live, owned, policy, s).value.(denied := d))
  {
    if ps != [] {
      assert ps[0] in ps;
      GateMeaning(ps[0], policy);
      DeniedRides(ps[1..], live, owned, policy, Register(ps[0], live, owned, policy, s).value, d);
    }
  }

  lemma {:induction false} AdmittedAre(ps: seq<Candidate>, policy: set<string>)
    ensures forall p :: p in Admitted(ps, policy) ==>
      p in ps && MayLoad(p, policy)
  {
    if ps != [] {
      AdmittedAre(ps[1..], policy);
    }
  }

  lemma SplitFirst(ps: seq<Candidate>, policy: set<string>)
    requires ps != []
    ensures var rest, refused, admitted := ps[1..], Refused(ps, policy), Admitted(ps, policy);
      if ps[0].Plugin? && !MayLoad(ps[0], policy) then
        && refused == [(ps[0].name, WhyNot(ps[0], policy))] + Refused(rest, policy)
        && admitted == Admitted(rest, policy)
      else
        && refused == Refused(rest, policy)
        && (ps[0].Broken? ==> admitted == Admitted(rest, policy))
        && (ps[0].Plugin? ==> admitted != [] && admitted[0] == ps[0] && admitted[1..] == Admitted(rest, policy))
  {
  }

  lemma Regroup(a: seq<(string, Refusal)>, b: seq<(string, Refusal)>, c: seq<(string, Refusal)>)
    ensures (a + b) + c == a + (b + c)
  {
  }

  /** Registering the first candidate keeps the others apart from what is staged. */
  lemma StaysApart(ps: seq<Candidate>, live: Entries, owned: set<Slot>, policy: set<string>, s: Staged)
    requires ps != [] && Register(ps[0], live, owned, policy, s).Ok? && DistinctOrigins(ps)
    requires EntriesApart(ps, s.entries)
    ensures EntriesApart(ps[1..], Register(ps[0], live, owned, policy, s).value.entries) && DistinctOrigins(ps[1..])
  {
    var entries := Register(ps[0], live, owned, policy, s).value.entries;
    forall p, slot | p in ps[1..] && slot in entries ensures ApartFrom(p, entries[slot]) {
      var j :| 0 <= j < |ps[1..]| && ps[1..][j] == p;
      assert ps[j + 1] == p;
      if ps[0].Plugin? {
        StageAllMeaning(ps[0].contributions, live, owned, s.entries);
        if LastFor(ps[0].contributions, slot).Some? {
          LastForIsOne(ps[0].contributions, slot);
          var c :| c in ps[0].contributions && c.item == LastFor(ps[0].contributions, slot).value;
          assert ApartFrom(ps[j + 1], c.item);
        }
      }
      assert p in ps;
      assert slot in s.entries ==> ApartFrom(p, s.entries[slot]);
    }
    forall i, j | 0 <= i < j < |ps[1..]| && ps[1..][i].Plugin?
      ensures forall c :: c in ps[1..][i].contributions ==> ApartFrom(ps[1..][j], c.item)
    {
      assert ps[1..][i] == ps[i + 1] && ps[1..][j] == ps[j + 1];
    }
  }

  /** A refused plugin of a pass with distinct origins leaves the staged entries alone. */
  lemma RefusedApart(ps: seq<Candidate>, live: Entries, owned: set<Slot>, policy: set<string>, s: Staged)
    requires ps != [] && ps[0].Plugin? && !MayLoad(ps[0], policy)
    requires Register(ps[0], live, owned, policy, s).Ok? && EntriesApart(ps, s.entries)
    ensures Register(ps[0], live, owned, policy, s) ==
      Ok(s.(denied := s.denied + [(ps[0].name, WhyNot(ps[0], policy))]))
  {
    var cs := ps[0].contributions;
    GateMeaning(ps[0], policy);
    forall slot | slot in s.entries && LastFor(cs, slot).Some?
      ensures
        || !IsLocalPlugin(LastFor(cs, slot).value)
        || LastFor(cs, slot).value.moduleName != s.entries[slot].moduleName
    {
      LastForIsOne(cs, slot);
      assert ps[0] in ps && ApartFrom(ps[0], s.entries[slot]);
    }
    DistinctOriginsRestore(cs, live, owned, s.entries);
  }

  /** With distinct origins a pass that goes through amounts to the admitted plugins alone, plus the
      list of the refused ones in order: refused plugins have no other effect. */
  lemma {:induction false} PassIsTheAdmittedOnes(ps: seq<Candidate>, live: Entries, owned: set<Slot>,
                                                 policy: set<string>, s: Staged)
    requires RegisterAll(ps, live, owned, policy, s).Ok? && DistinctOrigins(ps) && EntriesApart(ps, s.entries)
    ensures RegisterAll(Admitted(ps, policy), live, owned, policy, s).Ok?
    ensures RegisterAll(ps, live, owned, policy, s).value ==
      RegisterAll(Admitted(ps, policy), live, owned, policy, s).value.(denied := s.denied + Refused(ps, policy))
  {
    if ps == [] {
      assert s.denied + [] == s.denied;
    } else {
      var rest, s' := ps[1..], Register(ps[0], live, owned, policy, s).value;
      var admitted := Admitted(rest, policy);
      StaysApart(ps, live, owned, policy, s);
      PassIsTheAdmittedOnes(rest, live, owned, policy, s');
      AdmittedAre(rest, policy);
      SplitFirst(ps, policy);
      if ps[0].Plugin? { GateMeaning(ps[0], policy); }
      hide Admitted, Refused, StageAll, ValidateCapabilities, MayLoad, WhyNot;
      if ps[0].Plugin? && !MayLoad(ps[0], policy) {
        RefusedApart(ps, live, owned, policy, s);
        DeniedRides(admitted, live, owned, policy, s', s.denied);
        assert s'.(denied := s.denied) == s;
        Regroup(s.denied, [(ps[0].name, WhyNot(ps[0], policy))], Refused(rest, policy));
      }
    }
  }

  /** The same of the whole scan, from an empty staging area. */
  lemma ScanIsTheAdmittedOnes(ps: seq<Candidate>, dirs: seq<(string, Object)>, live: Entries, owned: set<Slot>,
                              policy: set<string>)
    requires Loaded(ps, dirs, live, owned, policy).Ok? && DistinctOrigins(ps)
    ensures Loaded(Admitted(ps, policy), dirs, live, owned, policy).Ok?
    ensures Loaded(ps, dirs, live, owned, policy).value ==
      Loaded(Admitted(ps, policy), dirs, live, owned, policy).value.(denied := Refused(ps, policy))
  {
    PassIsTheAdmittedOnes(ps, live, owned, policy, Staged(map[], [], [], []));
    assert [] + Refused(ps, policy) == Refused(ps, policy);
  }
}
