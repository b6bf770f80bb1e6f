/** Runs of the protocol: any number of calls, any interleaving, a crash at any point. The safety
    theorems over every reachable state. */
module ProtocolRuns {
  import opened Core
  import opened PassStore
  import opened Protocol
  import opened ProtocolInvariant
  import opened ProtocolSteps

  datatype State = State(w: World, calls: map<CallId, Pc>)

  datatype Event = Start(c: CallId, pc: Pc) | Advance(c: CallId, ch: Choice) | Crash(c: CallId)

  const InitialState := State(EmptyWorld, map[])

  predicate Enabled(s: State, e: Event) {
    match e
    case Start(c, pc) => c !in s.calls && Callable(pc)
    case Advance(c, ch) => c in s.calls && Step(s.w, c, s.calls[c], ch).Go?
    case Crash(c) => c in s.calls && !s.calls[c].Finished?
  }

  function Apply(s: State, e: Event): State
    requires Enabled(s, e)
  {
    match e
    case Start(c, pc) => s.(calls := s.calls[c := pc])
    case Advance(c, ch) =>
      var m := Step(s.w, c, s.calls[c], ch);
      State(m.w, s.calls[c := m.pc])
    case Crash(c) => s.(calls := s.calls[c := Finished(Crashed)])
  }

  ghost predicate Next(s: State, s': State) {
    exists e :: Enabled(s, e) && s' == Apply(s, e)
  }

  ghost predicate NextAt(tr: seq<State>, i: int) {
    0 <= i < |tr| - 1 ==> Next(tr[i], tr[i + 1])
  }

  ghost predicate Run(tr: seq<State>) {
    tr != [] && tr[0] == InitialState && forall i :: NextAt(tr, i)
  }

  ghost predicate Inv(s: State) {
    TablesInv(s.w) && forall c :: c in s.calls ==> CallInv(s.w, c, s.calls[c])
  }

  lemma BeginsWell(w: World, c: CallId)
    ensures forall pc :: Callable(pc) ==> CallInv(w, c, pc)
    ensures CallInv(w, c, Finished(Crashed))
  {
  }

  lemma OverIsOver(w: World, c: CallId, pc: Pc, ch: Choice)
    ensures Step(w, c, pc, ch).Go? ==> !pc.Finished?
  {
  }

  /** Every event is the doing of one unfinished call, and keeps the invariant. */
  lemma NextKeeps(s: State, s': State) returns (c: CallId)
    requires Inv(s) && Next(s, s')
    ensures Inv(s') && Guarantee(s.w, s'.w, c)
    ensures c in s.calls ==> !s.calls[c].Finished?
    ensures c in s'.calls && forall d :: d != c ==> (d in s.calls <==> d in s'.calls)
    ensures forall d :: d != c && d in s.calls ==> s'.calls[d] == s.calls[d]
  {
    hide TablesInv, Guarantee, CallInv, Step;
    var e :| Enabled(s, e) && s' == Apply(s, e);
    c := e.c;
    BeginsWell(s.w, c);
    if e.Advance? {
      OverIsOver(s.w, c, s.calls[c], e.ch);
      StepKeeps(s.w, c, s.calls[c], e.ch, Step(s.w, c, s.calls[c], e.ch));
    } else {
      Unchanged(s.w, c);
    }
    forall d | d in s'.calls ensures CallInv(s'.w, d, s'.calls[d]) {
      if d != c {
        OthersStable(s.w, s'.w, c, d, s.calls[d]);
      }
    }
  }

  lemma {:induction false} RunInv(tr: seq<State>, i: nat)
    requires Run(tr) && i < |tr|
    ensures Inv(tr[i])
  {
    if i > 0 {
      RunInv(tr, i - 1);
      assert NextAt(tr, i - 1);
      var _ := NextKeeps(tr[i - 1], tr[i]);
    }
  }

  /** One event of a run, with the call that did it. */
  lemma RunStep(tr: seq<State>, i: nat) returns (c: CallId)
    requires Run(tr) && i + 1 < |tr|
    ensures Inv(tr[i]) && Inv(tr[i + 1]) && Guarantee(tr[i].w, tr[i + 1].w, c)
    ensures c in tr[i].calls ==> !tr[i].calls[c].Finished?
    ensures forall d :: d != c ==> (d in tr[i].calls <==> d in tr[i + 1].calls)
    ensures forall d :: d != c && d in tr[i].calls ==> tr[i + 1].calls[d] == tr[i].calls[d]
  {
    RunInv(tr, i);
    assert NextAt(tr, i);
    c := NextKeeps(tr[i], tr[i + 1]);
  }

  lemma RunKey(tr: seq<State>, i: nat, k: Key) returns (c: CallId)
    requires Run(tr) && i + 1 < |tr|
    ensures KeyGuarantee(tr[i].w, tr[i + 1].w, c, k)
  {
    c := RunStep(tr, i);
  }

  lemma RunProposal(tr: seq<State>, i: nat, pid: ProposalId) returns (c: CallId)
    requires Run(tr) && i + 1 < |tr|
    ensures ProposalGuarantee(tr[i].w, tr[i + 1].w, c, pid)
  {
    c := RunStep(tr, i);
  }

  lemma RunKeyInv(tr: seq<State>, i: nat, k: Key)
    requires Run(tr) && i < |tr|
    ensures KeyInv(tr[i].w, k)
  {
    RunInv(tr, i);
  }

  lemma RunCall(tr: seq<State>, i: nat, c: CallId)
    requires Run(tr) && i < |tr| && c in tr[i].calls
    ensures CallInv(tr[i].w, c, tr[i].calls[c])
  {
    RunInv(tr, i);
  }

  // ---------------------------------------------------------------- at most once

  /** In every reachable state `execute` has been called at most once per idempotency key. */
  lemma AtMostOnce(tr: seq<State>, i: nat, k: Key)
    requires Run(tr) && i < |tr|
    ensures tr[i].w.runs[k] <= 1
  {
    RunKeyInv(tr, i, k);
  }

  /** Checkpoint status, effect status and execution count hang together in every reachable state. */
  lemma TablesAgree(tr: seq<State>, i: nat, k: Key)
    requires Run(tr) && i < |tr|
    ensures var w := tr[i].w;
      && (k in w.checkpoints ==> k in w.effects)
      && (k !in w.checkpoints || w.checkpoints[k].status == Open ==> w.runs[k] == 0 && !IsCompleted(w, k))
      && (IsCompleted(w, k) ==> k in w.checkpoints && w.checkpoints[k].status != Open)
      && (IsResumed(w, k) ==> IsCompleted(w, k))
      && (IsCompleted(w, k) ==> (w.effects[k].result.None? <==> w.effects[k].volatile))
  {
    RunKeyInv(tr, i, k);
  }

  predicate PastTheClaim(pc: Pc, k: Key) {
    match pc
    case ResumeExecute(key, _, _) => key == k
    case ResumeComplete(key, _, _) => key == k
    case ResumeStore(key, _, _, _) => key == k
    case ResumeStored(key, _) => key == k
    case ResumeMark(key, _, _) => key == k
    case Finished(o) => o.ResumeResult? && o.key == k && o.executed
    case _ => false
  }

  /** At most one call is ever past the compare-and-swap of a key, the one that returned
      `executed=true` included. */
  lemma OnePastTheClaim(tr: seq<State>, i: nat, k: Key, c: CallId, d: CallId)
    requires Run(tr) && i < |tr| && c in tr[i].calls && d in tr[i].calls
    requires PastTheClaim(tr[i].calls[c], k) && PastTheClaim(tr[i].calls[d], k)
    ensures c == d
  {
    RunCall(tr, i, c);
    RunCall(tr, i, d);
  }

  /** An event that calls `execute` is a claimed resume of that key, whose checkpoint's own
      proposal stands APPROVED; it is the first call, and no other key is touched. */
  lemma ExecutedWhenApproved(tr: seq<State>, i: nat, k: Key) returns (c: CallId, row: Checkpoint)
    requires Run(tr) && i + 1 < |tr| && tr[i].w.runs[k] != tr[i + 1].w.runs[k]
    ensures tr[i].w.runs[k] == 0 && tr[i + 1].w.runs == tr[i].w.runs + multiset{k}
    ensures c in tr[i].calls && tr[i].calls[c] == ResumeExecute(k, true, row)
    ensures k in tr[i].w.checkpoints && tr[i].w.checkpoints[k] == Checkpoint(row.id, row.proposalId, Resuming)
    ensures HasStatus(tr[i].w, row.proposalId, Approved) && tr[i + 1].w.proposals == tr[i].w.proposals
  {
    var s, s' := tr[i], tr[i + 1];
    assert NextAt(tr, i);
    var e :| Enabled(s, e) && s' == Apply(s, e);
    c := e.c;
    RunsChangeOnlyInExecute(s.w, c, s.calls[c], e.ch);
    row := s.calls[c].row;
    RunCall(tr, i, c);
    RunKeyInv(tr, i, k);
  }

  lemma OpenRuns(w: World, c: CallId, pc: Pc, ch: Choice)
    ensures OpenStep(w, c, pc, ch).Go? ==> OpenStep(w, c, pc, ch).w.runs == w.runs
  {
  }

  lemma DecideRuns(w: World, c: CallId, pc: Pc, ch: Choice)
    ensures DecideStep(w, c, pc, ch).Go? ==> DecideStep(w, c, pc, ch).w.runs == w.runs
  {
    hide Merged, StagedEdit;
  }

  lemma ResumeRuns(w: World, c: CallId, pc: Pc, ch: Choice)
    requires ResumeStep(w, c, pc, ch).Go? && ResumeStep(w, c, pc, ch).w.runs != w.runs
    ensures pc.ResumeExecute? && pc.execute && ResumeStep(w, c, pc, ch).w == w.(runs := w.runs + multiset{pc.key})
  {
  }

  lemma RunsChangeOnlyInExecute(w: World, c: CallId, pc: Pc, ch: Choice)
    requires Step(w, c, pc, ch).Go? && Step(w, c, pc, ch).w.runs != w.runs
    ensures pc.ResumeExecute? && pc.execute && Step(w, c, pc, ch).w == w.(runs := w.runs + multiset{pc.key})
  {
    hide OpenStep, DecideStep, ResumeStep;
    OpenRuns(w, c, pc, ch);
    DecideRuns(w, c, pc, ch);
    if Step(w, c, pc, ch) == ResumeStep(w, c, pc, ch) {
      ResumeRuns(w, c, pc, ch);
    }
  }

  /** A proposal that has left PENDING never changes its status, kind or action again, and its
      payload only if `update_payload` replaces it. */
  lemma {:induction false} DecidedForever(tr: seq<State>, i: nat, j: nat, pid: ProposalId)
    requires Run(tr) && i <= j < |tr|
    requires pid in tr[i].w.proposals && tr[i].w.proposals[pid].status != Pending
    ensures pid in tr[j].w.proposals
    ensures tr[j].w.proposals[pid] == tr[i].w.proposals[pid].(payload := tr[j].w.proposals[pid].payload)
    ensures pid in tr[i].w.rewritten ==> pid in tr[j].w.rewritten
    ensures pid !in tr[j].w.rewritten ==> tr[j].w.proposals[pid] == tr[i].w.proposals[pid]
  {
    if i < j {
      DecidedForever(tr, i, j - 1, pid);
      var _ := RunProposal(tr, j - 1, pid);
    }
  }

  /** Once `execute` ran for a key, the proposal of its checkpoint is APPROVED for ever. */
  lemma ApprovedForever(tr: seq<State>, i: nat, j: nat, k: Key)
    requires Run(tr) && i <= j < |tr| && tr[i].w.runs[k] > 0
    ensures k in tr[i].w.checkpoints && k in tr[j].w.checkpoints
    ensures tr[j].w.checkpoints[k].proposalId == tr[i].w.checkpoints[k].proposalId
    ensures HasStatus(tr[j].w, tr[i].w.checkpoints[k].proposalId, Approved)
  {
    RunKeyInv(tr, i, k);
    CheckpointForever(tr, i, j, k);
    DecidedForever(tr, i, j, tr[i].w.checkpoints[k].proposalId);
  }

  /** A key whose proposal was rejected, expired or edited is never executed: not before, and not in
      any later state. */
  lemma RefusedNeverExecutes(tr: seq<State>, i: nat, j: nat, k: Key)
    requires Run(tr) && i <= j < |tr| && k in tr[i].w.checkpoints
    requires tr[i].w.checkpoints[k].proposalId in tr[i].w.proposals
    requires tr[i].w.proposals[tr[i].w.checkpoints[k].proposalId].status !in {Pending, Approved}
    ensures tr[j].w.runs[k] == 0
  {
    CheckpointForever(tr, i, j, k);
    DecidedForever(tr, i, j, tr[i].w.checkpoints[k].proposalId);
    RunKeyInv(tr, j, k);
  }

  lemma {:induction false} CheckpointForever(tr: seq<State>, i: nat, j: nat, k: Key)
    requires Run(tr) && i <= j < |tr| && k in tr[i].w.checkpoints
    ensures k in tr[j].w.checkpoints && tr[j].w.checkpoints[k].id == tr[i].w.checkpoints[k].id
    ensures tr[j].w.checkpoints[k].proposalId == tr[i].w.checkpoints[k].proposalId
  {
    if i < j {
      CheckpointForever(tr, i, j - 1, k);
      var _ := RunKey(tr, j - 1, k);
    }
  }

  // ---------------------------------------------------------------- orphans and abandoned claims

  ghost predicate NoCheckpointUses(w: World, pid: ProposalId) {
    forall k :: k in w.checkpoints ==> w.checkpoints[k].proposalId != pid
  }

  lemma OrphanStep(w: World, w': World, d: CallId, pid: ProposalId, c: CallId)
    requires Guarantee(w, w', d) && CreatedBy(w, pid, c) && NoCheckpointUses(w, pid) && c != d
    ensures CreatedBy(w', pid, c) && NoCheckpointUses(w', pid)
  {
    assert ProposalGuarantee(w, w', d, pid);
    forall k | k in w'.checkpoints ensures w'.checkpoints[k].proposalId != pid {
      assert KeyGuarantee(w, w', d, k);
    }
  }

  lemma OrphanKept(tr: seq<State>, i: nat, pid: ProposalId, c: CallId)
    requires Run(tr) && i + 1 < |tr|
    requires CreatedBy(tr[i].w, pid, c) && c in tr[i].calls && tr[i].calls[c].Finished?
    requires NoCheckpointUses(tr[i].w, pid)
    ensures CreatedBy(tr[i + 1].w, pid, c) && NoCheckpointUses(tr[i + 1].w, pid)
    ensures c in tr[i + 1].calls && tr[i + 1].calls[c].Finished?
  {
    hide Run, Inv, Guarantee, NoCheckpointUses, CreatedBy;
    var d := RunStep(tr, i);
    OrphanStep(tr[i].w, tr[i + 1].w, d, pid, c);
  }

  /** A proposal whose creating call ended (returned, raised or crashed) before a checkpoint used
      it is never used by one, so no execution ever rests on it. */
  lemma {:induction false} OrphanForever(tr: seq<State>, i: nat, j: nat, pid: ProposalId, c: CallId)
    requires Run(tr) && i <= j < |tr|
    requires CreatedBy(tr[i].w, pid, c) && c in tr[i].calls && tr[i].calls[c].Finished?
    requires NoCheckpointUses(tr[i].w, pid)
    ensures CreatedBy(tr[j].w, pid, c) && NoCheckpointUses(tr[j].w, pid)
    ensures c in tr[j].calls && tr[j].calls[c].Finished?
  {
    if i < j {
      hide Run, NoCheckpointUses, CreatedBy;
      OrphanForever(tr, i, j - 1, pid, c);
      OrphanKept(tr, j - 1, pid, c);
    }
  }

  /** The rows that hang on the claim of `k`. */
  ghost predicate SameClaim(w: World, w': World, k: Key) {
    && k in w.checkpoints && k in w'.checkpoints && w'.checkpoints[k] == w.checkpoints[k]
    && w'.runs[k] == w.runs[k]
    && (IsCompleted(w', k) <==> IsCompleted(w, k))
  }

  lemma AbandonedStep(w: World, w': World, d: CallId, k: Key, c: CallId)
    requires TablesInv(w) && Guarantee(w, w', d) && ClaimedBy(w, k, c) && c != d
    ensures ClaimedBy(w', k, c) && SameClaim(w, w', k)
  {
    assert KeyInv(w, k) && KeyGuarantee(w, w', d, k);
  }

  /** A claim whose call ended without recording a result is never taken over: the key is not
      executed again, no matter how often it is resumed. */
  lemma {:induction false} AbandonedForever(tr: seq<State>, i: nat, j: nat, k: Key, c: CallId)
    requires Run(tr) && i <= j < |tr|
    requires ClaimedBy(tr[i].w, k, c) && c in tr[i].calls && tr[i].calls[c].Finished?
    ensures c in tr[j].calls && tr[j].calls[c].Finished? && ClaimedBy(tr[j].w, k, c)
    ensures SameClaim(tr[i].w, tr[j].w, k)
  {
    hide Run, Inv, Guarantee, KeyInv, TablesInv;
    if i < j {
      AbandonedForever(tr, i, j - 1, k, c);
      var d := RunStep(tr, j - 1);
      AbandonedStep(tr[j - 1].w, tr[j].w, d, k, c);
    } else {
      RunKeyInv(tr, i, k);
    }
  }

  // ---------------------------------------------------------------- results

  /** A recorded result is never overwritten. */
  lemma {:induction false} ResultForever(tr: seq<State>, i: nat, j: nat, k: Key)
    requires Run(tr) && i <= j < |tr| && IsCompleted(tr[i].w, k)
    ensures IsCompleted(tr[j].w, k)
    ensures tr[j].w.effects[k].result == tr[i].w.effects[k].result
    ensures tr[j].w.effects[k].volatile == tr[i].w.effects[k].volatile
  {
    if i < j {
      ResultForever(tr, i, j - 1, k);
      var _ := RunKey(tr, j - 1, k);
    }
  }

  /** Where a call that began after the result of `k` was recorded can be. */
  predicate Late(pc: Pc, k: Key) {
    match pc
    case ResumeReadCheckpoint(key, _, completed) => key == k ==> completed
    case ResumeReadProposal(key, _, completed, _) => key == k ==> completed
    case ResumeClaim(key, _, _) => key != k
    case ResumeLost(key) => key != k
    case ResumeExecute(key, _, _) => key != k
    case ResumeComplete(key, _, _) => key != k
    case ResumeStore(key, _, _, _) => key != k
    case ResumeStored(key, _) => key != k
    case ResumeMark(key, _, _) => key != k
    case Finished(o) => o.ResumeResult? && o.key == k ==> o.state == StatusCompleted && !o.executed
    case _ => true
  }

  lemma LateStays(w: World, c: CallId, pc: Pc, ch: Choice, k: Key)
    requires IsCompleted(w, k) && Late(pc, k) && Step(w, c, pc, ch).Go?
    ensures Late(Step(w, c, pc, ch).pc, k)
  {
  }

  lemma LateStep(s: State, s': State, k: Key, c: CallId)
    requires Next(s, s') && IsCompleted(s.w, k) && (c in s.calls ==> Late(s.calls[c], k))
    ensures c in s'.calls ==> Late(s'.calls[c], k)
  {
    var e :| Enabled(s, e) && s' == Apply(s, e);
    if e.Advance? && e.c == c {
      LateStays(s.w, c, s.calls[c], e.ch, k);
    }
  }

  lemma LateStepOfRun(tr: seq<State>, i: nat, k: Key, c: CallId)
    requires Run(tr) && i + 1 < |tr| && IsCompleted(tr[i].w, k)
    requires c in tr[i].calls ==> Late(tr[i].calls[c], k)
    ensures c in tr[i + 1].calls ==> Late(tr[i + 1].calls[c], k)
  {
    assert NextAt(tr, i);
    LateStep(tr[i], tr[i + 1], k, c);
  }

  lemma {:induction false} LateForever(tr: seq<State>, i: nat, j: nat, k: Key, c: CallId)
    requires Run(tr) && i <= j < |tr| && IsCompleted(tr[i].w, k) && c !in tr[i].calls
    ensures c in tr[j].calls ==> Late(tr[j].calls[c], k)
  {
    if i < j {
      LateForever(tr, i, j - 1, k, c);
      ResultForever(tr, i, j - 1, k);
      LateStepOfRun(tr, j - 1, k, c);
    }
  }

  /** In this event call `d` calls `execute` for `k`, which returns `v`. */
  ghost predicate Executes(tr: seq<State>, h: nat, d: CallId, k: Key, v: Json) {
    && h + 1 < |tr| && d in tr[h].calls && d in tr[h + 1].calls && tr[h].calls[d].ResumeExecute?
    && tr[h].calls[d].key == k && tr[h].calls[d].execute
    && exists ch: Choice :: ch.result == Some(v) && Enabled(tr[h], Advance(d, ch))
         && tr[h + 1] == Apply(tr[h], Advance(d, ch))
  }

  /** What is kept of a returned value. */
  function AsStored(volatile: bool, v: Json): Option<Json> {
    if volatile then None else Some(v)
  }

  /** Where the call that got `v` from `execute` can be, and what it has recorded then. */
  ghost predicate Carries(s: State, d: CallId, k: Key, v: Json) {
    && ClaimedBy(s.w, k, d) && k in s.w.effects && d in s.calls
    && match s.calls[d]
       case ResumeComplete(key, _, result) => key == k && result == v && !IsCompleted(s.w, k)
       case ResumeStore(key, _, result, volatile) =>
         key == k && result == v && volatile == s.w.effects[k].volatile && !IsCompleted(s.w, k)
       case ResumeStored(key, _) => key == k && Holds(s.w, k, v)
       case ResumeMark(key, _, stored) => key == k && Holds(s.w, k, v) && stored == AsStored(s.w.effects[k].volatile, v)
       case Finished(o) =>
         && (IsCompleted(s.w, k) ==> Holds(s.w, k, v))
         && (o.ResumeResult? ==>
               var kept := AsStored(s.w.effects[k].volatile, v);
               o == ResumeResult(k, StatusCompleted, true, kept.Some?, kept) && Holds(s.w, k, v))
       case _ => false
  }

  predicate Holds(w: World, k: Key, v: Json) {
    IsCompleted(w, k) && w.effects[k].result == AsStored(w.effects[k].volatile, v)
  }

  lemma CarriesFirst(s: State, d: CallId, ch: Choice, k: Key, v: Json)
    requires Inv(s) && Enabled(s, Advance(d, ch)) && ch.result == Some(v)
    requires s.calls[d].ResumeExecute? && s.calls[d].key == k && s.calls[d].execute
    ensures Carries(Apply(s, Advance(d, ch)), d, k, v)
  {
    assert CallInv(s.w, d, s.calls[d]);
    assert KeyInv(s.w, k);
  }

  lemma CarriesOn(s: State, d: CallId, ch: Choice, k: Key, v: Json)
    requires Inv(s) && Carries(s, d, k, v) && Enabled(s, Advance(d, ch))
    ensures Carries(Apply(s, Advance(d, ch)), d, k, v)
  {
    assert KeyInv(s.w, k);
    assert CallInv(s.w, d, s.calls[d]);
  }

  /** Nobody but the claimant completes the key, and a completed row keeps its result. */
  lemma OthersCarry(s: State, s': State, d: CallId, e: CallId, k: Key, v: Json)
    requires TablesInv(s.w) && Carries(s, d, k, v) && KeyGuarantee(s.w, s'.w, e, k) && e != d
    requires d in s'.calls && s'.calls[d] == s.calls[d]
    ensures Carries(s', d, k, v)
  {
    assert KeyInv(s.w, k);
  }

  lemma CarriesNext(s: State, s': State, d: CallId, k: Key, v: Json)
    requires Inv(s) && Next(s, s') && Carries(s, d, k, v)
    ensures Carries(s', d, k, v)
  {
    var e :| Enabled(s, e) && s' == Apply(s, e);
    if e.c == d {
      if e.Advance? { CarriesOn(s, d, e.ch, k, v); }
    } else {
      var c := NextKeeps(s, s');
      if e.Advance? {
        StepKeeps(s.w, e.c, s.calls[e.c], e.ch, Step(s.w, e.c, s.calls[e.c], e.ch));
        OthersCarry(s, s', d, e.c, k, v);
      }
    }
  }

  lemma Carried(tr: seq<State>, h: nat, d: CallId, k: Key, v: Json)
    requires Run(tr) && Executes(tr, h, d, k, v)
    ensures h + 1 < |tr| && Carries(tr[h + 1], d, k, v)
  {
    RunInv(tr, h);
    hide Inv, Carries, Next, Run;
    var ch: Choice :| ch.result == Some(v) && Enabled(tr[h], Advance(d, ch))
      && tr[h + 1] == Apply(tr[h], Advance(d, ch));
    CarriesFirst(tr[h], d, ch, k, v);
  }

  lemma {:induction false} CarriesForever(tr: seq<State>, h: nat, i: nat, d: CallId, k: Key, v: Json)
    requires Run(tr) && Executes(tr, h, d, k, v) && h < i < |tr|
    ensures Carries(tr[i], d, k, v)
  {
    hide Inv, Carries, Next, Executes;
    if i > h + 1 {
      assert NextAt(tr, i - 1);
      RunInv(tr, i - 1);
      CarriesForever(tr, h, i - 1, d, k, v);
      CarriesNext(tr[i - 1], tr[i], d, k, v);
    } else {
      Carried(tr, h, d, k, v);
    }
  }

  /** What is recorded for a key is what `execute` returned, none for a volatile tool; and the call
      that executed reports the same. */
  lemma RecordedIsReturned(tr: seq<State>, h: nat, i: nat, d: CallId, k: Key, v: Json)
    requires Run(tr) && Executes(tr, h, d, k, v) && h < i < |tr|
    ensures k in tr[i].w.effects && d in tr[i].calls
    ensures var volatile := tr[i].w.effects[k].volatile;
      && (IsCompleted(tr[i].w, k) ==> tr[i].w.effects[k].result == if volatile then None else Some(v))
      && (tr[i].calls[d].Finished? && tr[i].calls[d].outcome.ResumeResult? ==>
            && IsCompleted(tr[i].w, k)
            && tr[i].calls[d].outcome ==
                 ResumeResult(k, StatusCompleted, true, !volatile, if volatile then None else Some(v)))
  {
    CarriesForever(tr, h, i, d, k, v);
  }

  /** Every resume that begins after the result was recorded executes nothing and finishes completed,
      with what `execute` returned as its cached result; a volatile tool's result and `null` are not
      there to be read. */
  lemma LaterResumesReturnTheResult(tr: seq<State>, h: nat, i: nat, j: nat, d: CallId, k: Key, v: Json, c: CallId)
    requires Run(tr) && Executes(tr, h, d, k, v) && h < i <= j < |tr|
    requires IsCompleted(tr[i].w, k) && c !in tr[i].calls && c in tr[j].calls
    requires tr[j].calls[c].Finished? && tr[j].calls[c].outcome.ResumeResult? && tr[j].calls[c].outcome.key == k
    ensures var readable := !tr[i].w.effects[k].volatile && v != Null;
      tr[j].calls[c].outcome ==
        ResumeResult(k, StatusCompleted, false, readable, if readable then Some(v) else None)
  {
    LaterResumesReadTheRow(tr, i, j, k, c);
    RecordedIsReturned(tr, h, i, d, k, v);
  }

  /** The same of any completed key, whoever completed it: the answer is the row's result. */
  lemma LaterResumesReadTheRow(tr: seq<State>, i: nat, j: nat, k: Key, c: CallId)
    requires Run(tr) && i <= j < |tr| && IsCompleted(tr[i].w, k) && c !in tr[i].calls && c in tr[j].calls
    requires tr[j].calls[c].Finished? && tr[j].calls[c].outcome.ResumeResult? && tr[j].calls[c].outcome.key == k
    ensures var row := tr[i].w.effects[k];
      var readable := !row.volatile && row.result.Some? && row.result != Some(Null);
      tr[j].calls[c].outcome == ResumeResult(k, StatusCompleted, false, readable, if readable then row.result else None)
  {
    LateForever(tr, i, j, k, c);
    ResultForever(tr, i, j, k);
    RunCall(tr, j, c);
  }

  // ---------------------------------------------------------------- the inbox

  /** `side_effect` only ever ran for a decision that is the stored status, and that status stays
      whatever the callback or its caller does next. */
  lemma CallbackOnlyOnStoredStatus(tr: seq<State>, i: nat, j: nat, pid: ProposalId, d: Decision)
    requires Run(tr) && i <= j < |tr| && (pid, d) in tr[i].w.notified
    ensures HasStatus(tr[i].w, pid, StatusOf(d)) && HasStatus(tr[j].w, pid, StatusOf(d))
  {
    RunInv(tr, i);
    DecidedForever(tr, i, j, pid);
  }

  /** Over every run a stored payload has the path and revision targets of the created payload,
      whatever edits were staged or decided concurrently, unless `update_payload` replaced it. */
  lemma TargetsFrozen(tr: seq<State>, i: nat, j: nat, pid: ProposalId)
    requires Run(tr) && i <= j < |tr| && pid in tr[i].w.proposals
    ensures pid in tr[j].w.proposals
    ensures pid !in tr[j].w.rewritten ==> SameTargets(tr[i].w.proposals[pid].payload, tr[j].w.proposals[pid].payload)
  {
    RunInv(tr, i);
    RunInv(tr, j);
    assert ProposalInv(tr[i].w, pid) && ProposalInv(tr[j].w, pid);
    CreatedForever(tr, i, j, pid);
  }

  predicate SameCreation(w: World, w': World, pid: ProposalId) {
    && pid in w.proposals && pid in w'.proposals
    && pid in w.created && pid in w'.created && w'.created[pid] == w.created[pid]
    && (pid in w.rewritten ==> pid in w'.rewritten)
  }

  lemma {:induction false} CreatedForever(tr: seq<State>, i: nat, j: nat, pid: ProposalId)
    requires Run(tr) && i <= j < |tr| && SameCreation(tr[i].w, tr[i].w, pid)
    ensures SameCreation(tr[i].w, tr[j].w, pid)
  {
    if i < j {
      CreatedForever(tr, i, j - 1, pid);
      var _ := RunProposal(tr, j - 1, pid);
    }
  }

  /** However many surfaces and calls decide one approval id, at most one of them gets
      `executed=true` for a checkpoint of that approval, and then the approval stands APPROVED. */
  lemma OneResumePerApproval(tr: seq<State>, i: nat, pid: ProposalId, k: Key, l: Key, c: CallId, d: CallId)
    requires Run(tr) && i < |tr| && c in tr[i].calls && d in tr[i].calls
    requires PastTheClaim(tr[i].calls[c], k) && PastTheClaim(tr[i].calls[d], l)
    requires k in tr[i].w.checkpoints && tr[i].w.checkpoints[k].proposalId == pid
    requires l in tr[i].w.checkpoints && tr[i].w.checkpoints[l].proposalId == pid
    ensures c == d && k == l && HasStatus(tr[i].w, pid, Approved)
  {
    RunInv(tr, i);
    assert RowsApart(tr[i].w, k, l);
    RunKeyInv(tr, i, k);
    RunCall(tr, i, c);
    OnePastTheClaim(tr, i, k, c, d);
  }
}
