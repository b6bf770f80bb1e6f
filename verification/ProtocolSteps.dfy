/** Every step of every call keeps the invariant. */
module ProtocolSteps {
  import opened Core
  import opened PassStore
  import opened Protocol
  import opened ProtocolInvariant

  ghost predicate Kept(w: World, c: CallId, m: Move) {
    m.Go? ==> TablesInv(m.w) && Guarantee(w, m.w, c) && CallInv(m.w, c, m.pc)
  }

  /** On a table with unique row ids, the compare-and-swap changes the one row, if it is open. */
  lemma ClaimRowMeaning(w: World, key: Key, id: RowId)
    requires RowsUnique(w) && key in w.checkpoints && w.checkpoints[key].id == id
    ensures ClaimCount(w.checkpoints, id) == 1 <==> w.checkpoints[key].status == Open
    ensures ClaimRow(w.checkpoints, id) ==
      if w.checkpoints[key].status == Open then w.checkpoints[key := w.checkpoints[key].(status := Resuming)]
        else w.checkpoints
  {
    var t := w.checkpoints;
    forall k | k in t && t[k].id == id ensures k == key { assert RowsApart(w, k, key); }
    var matching := set k | k in t && t[k].id == id && t[k].status == Open;
    assert matching == if t[key].status == Open then {key} else {};
  }

  lemma MarkRowMeaning(w: World, key: Key, id: RowId)
    requires RowsUnique(w) && key in w.checkpoints && w.checkpoints[key].id == id
    ensures MarkRow(w.checkpoints, id) == w.checkpoints[key := w.checkpoints[key].(status := Resumed)]
  {
    var t := w.checkpoints;
    forall k | k in t && t[k].id == id ensures k == key { assert RowsApart(w, k, key); }
  }

  lemma Unchanged(w: World, c: CallId)
    requires TablesInv(w)
    ensures Guarantee(w, w, c)
  {
    forall k ensures KeyGuarantee(w, w, c, k) { assert KeyInv(w, k); }
    forall pid ensures ProposalGuarantee(w, w, c, pid) { assert ProposalInv(w, pid); }
  }

  /** A row whose id and proposal no checkpoint has. */
  ghost predicate NewRow(w: World, row: Checkpoint) {
    forall k :: k in w.checkpoints ==> w.checkpoints[k].id != row.id && w.checkpoints[k].proposalId != row.proposalId
  }

  predicate SameIds(a: Checkpoint, b: Checkpoint) {
    a.id == b.id && a.proposalId == b.proposalId
  }

  /** A step that changes at most the rows of one key. */
  lemma OneKey(w: World, w': World, c: CallId, key: Key)
    requires TablesInv(w)
    requires w' == w.(effects := w'.effects, checkpoints := w'.checkpoints, runs := w'.runs, claimant := w'.claimant)
    requires forall k :: k != key ==>
      (k in w.effects <==> k in w'.effects) && (k in w.checkpoints <==> k in w'.checkpoints)
    requires forall k :: k != key ==> (k in w.claimant <==> k in w'.claimant) && w.runs[k] == w'.runs[k]
    requires forall k :: k != key && k in w.effects ==> w'.effects[k] == w.effects[k]
    requires forall k :: k != key && k in w.checkpoints ==> w'.checkpoints[k] == w.checkpoints[k]
    requires forall k :: k != key && k in w.claimant ==> w'.claimant[k] == w.claimant[k]
    requires key in w'.checkpoints ==>
      if key in w.checkpoints then SameIds(w'.checkpoints[key], w.checkpoints[key]) else NewRow(w, w'.checkpoints[key])
    requires KeyInv(w', key) && KeyGuarantee(w, w', c, key)
    ensures TablesInv(w') && Guarantee(w, w', c)
  {
    forall k, l ensures RowsApart(w', k, l) { assert RowsApart(w, k, l); }
    forall k ensures KeyInv(w', k) && KeyGuarantee(w, w', c, k) { assert KeyInv(w, k); }
    forall pid ensures ProposalInv(w', pid) && ProposalGuarantee(w, w', c, pid) { assert ProposalInv(w, pid); }
  }

  /** A step that changes at most one proposal row, whose status may only leave PENDING. */
  lemma OneProposal(w: World, w': World, c: CallId, pid: ProposalId)
    requires TablesInv(w)
    requires w' ==
      w.(proposals := w'.proposals, created := w'.created, creator := w'.creator, rewritten := w'.rewritten)
    requires w.rewritten <= w'.rewritten <= w.rewritten + {pid}
    requires forall p :: p != pid ==> (p in w.proposals <==> p in w'.proposals)
    requires forall p :: p != pid ==> (p in w.created <==> p in w'.created)
    requires forall p :: p != pid ==> (p in w.creator <==> p in w'.creator)
    requires forall p :: p != pid && p in w.proposals ==> w'.proposals[p] == w.proposals[p]
    requires forall p :: p != pid && p in w.created ==> w'.created[p] == w.created[p]
    requires forall p :: p != pid && p in w.creator ==> w'.creator[p] == w.creator[p]
    requires ProposalInv(w', pid) && ProposalGuarantee(w, w', c, pid)
    ensures TablesInv(w') && Guarantee(w, w', c)
  {
    forall k ensures KeyInv(w', k) && KeyGuarantee(w, w', c, k) { assert KeyInv(w, k); }
    forall p ensures ProposalInv(w', p) && ProposalGuarantee(w, w', c, p) { assert ProposalInv(w, p); }
    forall k, l ensures RowsApart(w', k, l) { assert RowsApart(w, k, l); }
    forall n | n in w'.notified ensures HasStatus(w', n.0, StatusOf(n.1)) {
      assert HasStatus(w, n.0, StatusOf(n.1));
    }
  }

  // ---------------------------------------------------------------- open_pending_tool

  lemma ProposeKeeps(w: World, c: CallId, req: OpenRequest, ch: Choice)
    requires TablesInv(w) && req.key in w.effects
    ensures Kept(w, c, OpenStep(w, c, OpenPropose(req), ch))
  {
    var m := OpenStep(w, c, OpenPropose(req), ch);
    assert ProposalInv(w, ch.newId);
    if ch.newId in w.proposals {
      Unchanged(w, c);
    } else {
      OneProposal(w, m.w, c, ch.newId);
      forall k | k in w.checkpoints ensures w.checkpoints[k].proposalId != ch.newId { assert KeyInv(w, k); }
    }
  }

  lemma ReserveKeeps(w: World, c: CallId, req: OpenRequest, ch: Choice)
    requires TablesInv(w)
    ensures Kept(w, c, OpenStep(w, c, OpenReserve(req), ch))
  {
    var m := OpenStep(w, c, OpenReserve(req), ch);
    if req.key in w.effects {
      Unchanged(w, c);
    } else {
      assert KeyInv(w, req.key);
      OneKey(w, m.w, c, req.key);
    }
  }

  lemma InsertCheckpointKeeps(w: World, c: CallId, req: OpenRequest, pid: ProposalId, ch: Choice)
    requires TablesInv(w) && req.key in w.effects && Unbound(w, c, pid)
    ensures Kept(w, c, OpenStep(w, c, OpenCheckpoint(req, pid), ch))
  {
    var m := OpenStep(w, c, OpenCheckpoint(req, pid), ch);
    if req.key in w.checkpoints || RowIdTaken(w.checkpoints, ch.newId) {
      Unchanged(w, c);
    } else {
      assert KeyInv(w, req.key);
      OneKey(w, m.w, c, req.key);
    }
  }

  lemma BindKeeps(w: World, c: CallId, req: OpenRequest, pid: ProposalId, id: RowId, ch: Choice)
    requires TablesInv(w) && req.key in w.checkpoints
    ensures Kept(w, c, OpenStep(w, c, OpenBind(req, pid, id), ch))
  {
    var m := OpenStep(w, c, OpenBind(req, pid, id), ch);
    assert KeyInv(w, req.key);
    OneKey(w, m.w, c, req.key);
  }

  lemma OpenReadsKeep(w: World, c: CallId, pc: Pc, ch: Choice)
    requires TablesInv(w) && CallInv(w, c, pc)
    requires pc.OpenStart? || pc.OpenReadEffect? || pc.OpenAuto? || pc.OpenReadBack?
    ensures Kept(w, c, OpenStep(w, c, pc, ch))
  {
    Unchanged(w, c);
    assert KeyInv(w, KeyOf(pc));
  }

  // ---------------------------------------------------------------- create_pending, decide, stage_edit

  lemma CreateKeeps(w: World, c: CallId, pc: Pc, ch: Choice)
    requires TablesInv(w) && pc.Create?
    ensures Kept(w, c, DecideStep(w, c, pc, ch))
  {
    var m := DecideStep(w, c, pc, ch);
    assert ProposalInv(w, ch.newId);
    if ch.newId in w.proposals {
      Unchanged(w, c);
    } else {
      OneProposal(w, m.w, c, ch.newId);
    }
  }

  lemma DecideUpdateKeeps(w: World, c: CallId, pc: Pc, ch: Choice)
    requires TablesInv(w) && CallInv(w, c, pc) && (pc.DecideUpdate? || pc.StageUpdate?)
    ensures Kept(w, c, DecideStep(w, c, pc, ch))
  {
    var m := DecideStep(w, c, pc, ch);
    assert ProposalInv(w, pc.pid);
    assert KeyInv(w, KeyOf(pc));
    OneProposal(w, m.w, c, pc.pid);
  }

  /** Replacing a payload, whatever the status, keeps the invariant, and changes nothing but that
      payload. */
  lemma RewriteKeeps(w: World, c: CallId, pc: Pc, ch: Choice)
    requires TablesInv(w) && pc.RewriteUpdate?
    ensures Kept(w, c, DecideStep(w, c, pc, ch))
    ensures var m := DecideStep(w, c, pc, ch);
      && m.Go? && m.w.effects == w.effects && m.w.checkpoints == w.checkpoints && m.w.proposals.Keys == w.proposals.Keys
      && (forall q :: q in w.proposals && q != pc.pid ==> m.w.proposals[q] == w.proposals[q])
      && (pc.pid in w.proposals ==> m.w.proposals[pc.pid] == w.proposals[pc.pid].(payload := pc.payload))
  {
    var m := DecideStep(w, c, pc, ch);
    assert ProposalInv(w, pc.pid);
    OneProposal(w, m.w, c, pc.pid);
  }

  lemma SelectKeeps(w: World, c: CallId, pid: ProposalId, d: Decision, after: After)
    requires TablesInv(w) && AfterInv(w, c, pid, after)
    ensures Kept(w, c, SelectStep(w, pid, d, after))
  {
    Unchanged(w, c);
    assert ProposalInv(w, pid);
    if d.Edit? && pid in w.proposals && pid !in w.rewritten && Merged(w.proposals[pid].payload, d.edited).Some? {
      MergedKeepsTargets(w.created[pid], w.proposals[pid].payload, d.edited);
    }
  }

  lemma StageKeeps(w: World, c: CallId, pid: ProposalId, edited: Payload, actor: string)
    requires TablesInv(w)
    ensures Kept(w, c, StageStep(w, pid, edited, actor))
  {
    Unchanged(w, c);
    assert ProposalInv(w, pid);
    if pid in w.proposals && pid !in w.rewritten && StagedEdit(w.proposals[pid].payload, edited, actor).Some? {
      StagedKeepsTargets(w.created[pid], w.proposals[pid].payload, edited, actor);
    }
  }

  lemma NotifiedKeeps(w: World, w': World, c: CallId, pid: ProposalId, d: Decision)
    requires TablesInv(w) && HasStatus(w, pid, StatusOf(d)) && w' == w.(notified := w.notified + {(pid, d)})
    ensures TablesInv(w') && Guarantee(w, w', c)
  {
    forall k, l ensures RowsApart(w', k, l) { assert RowsApart(w, k, l); }
    forall k ensures KeyInv(w', k) && KeyGuarantee(w, w', c, k) { assert KeyInv(w, k); }
    forall p ensures ProposalInv(w', p) && ProposalGuarantee(w, w', c, p) { assert ProposalInv(w, p); }
  }

  lemma ConfirmKeeps(w: World, c: CallId, pid: ProposalId, d: Decision, after: After)
    requires TablesInv(w) && AfterInv(w, c, pid, after)
    ensures Kept(w, c, ConfirmStep(w, pid, d, after))
  {
    var m := ConfirmStep(w, pid, d, after);
    if HasStatus(w, pid, StatusOf(d)) {
      NotifiedKeeps(w, m.w, c, pid, d);
    } else {
      Unchanged(w, c);
    }
  }

  // ---------------------------------------------------------------- presenters, resume

  lemma ClaimWon(w: World, w': World, c: CallId, key: Key)
    requires TablesInv(w) && key in w.checkpoints && w.checkpoints[key].status == Open
    requires HasStatus(w, w.checkpoints[key].proposalId, Approved)
    requires var row := w.checkpoints[key].(status := Resuming);
      w' == w.(checkpoints := w.checkpoints[key := row], claimant := w.claimant[key := c])
    ensures TablesInv(w') && Guarantee(w, w', c)
    ensures key in w.effects && w.effects[key].status == Reserved && w.runs[key] == 0
  {
    assert KeyInv(w, key);
    OneKey(w, w', c, key);
  }

  lemma ClaimKeeps(w: World, c: CallId, key: Key, execute: bool, row: Checkpoint)
    requires TablesInv(w) && ReadEarlier(w, key, row) && HasStatus(w, row.proposalId, Approved)
    ensures Kept(w, c, ClaimStep(w, c, key, execute, row))
  {
    var m := ClaimStep(w, c, key, execute, row);
    ClaimRowMeaning(w, key, row.id);
    if w.checkpoints[key].status == Open {
      ClaimWon(w, m.w, c, key);
    } else {
      assert m.w == w;
      Unchanged(w, c);
    }
  }

  lemma ExecuteKeeps(w: World, c: CallId, key: Key, execute: bool, row: Checkpoint, returned: Option<Json>)
    requires TablesInv(w) && Holding(w, c, key, row) && w.runs[key] == 0
    ensures Kept(w, c, ExecuteStep(w, key, execute, row, returned))
  {
    var m := ExecuteStep(w, key, execute, row, returned);
    assert KeyInv(w, key);
    OneKey(w, m.w, c, key);
  }

  lemma StoreKeeps(w: World, c: CallId, key: Key, row: Checkpoint, result: Json, volatile: bool)
    requires TablesInv(w) && Holding(w, c, key, row) && volatile == w.effects[key].volatile
    ensures Kept(w, c, StoreStep(w, key, row, result, volatile))
  {
    var m := StoreStep(w, key, row, result, volatile);
    assert KeyInv(w, key);
    OneKey(w, m.w, c, key);
  }

  lemma Marked(w: World, w': World, c: CallId, key: Key)
    requires TablesInv(w) && key in w.checkpoints && w.checkpoints[key].status == Resuming
    requires ClaimedBy(w, key, c) && IsCompleted(w, key)
    requires w' == w.(checkpoints := w.checkpoints[key := w.checkpoints[key].(status := Resumed)])
    ensures TablesInv(w') && Guarantee(w, w', c)
  {
    assert KeyInv(w, key);
    OneKey(w, w', c, key);
  }

  lemma MarkKeeps(w: World, c: CallId, key: Key, row: Checkpoint, stored: Option<Json>)
    requires TablesInv(w) && CallInv(w, c, ResumeMark(key, row, stored))
    ensures Kept(w, c, MarkStep(w, key, row, stored))
  {
    var m := MarkStep(w, key, row, stored);
    MarkRowMeaning(w, key, row.id);
    Marked(w, m.w, c, key);
  }

  lemma ApproveReadsKeep(w: World, c: CallId, pc: Pc, ch: Choice)
    requires TablesInv(w) && (pc.PresentTool? || pc.ApproveReadCheckpoint? || pc.ApproveReadProposal?)
    ensures Kept(w, c, ResumeStep(w, c, pc, ch))
  {
    Unchanged(w, c);
  }

  lemma ResumeReadsKeep(w: World, c: CallId, pc: Pc, ch: Choice)
    requires TablesInv(w) && CallInv(w, c, pc)
    requires pc.ResumeReadEffect? || pc.ResumeReadCheckpoint? || pc.ResumeReadProposal? || pc.ResumeReadCached?
    ensures Kept(w, c, ResumeStep(w, c, pc, ch))
  {
    Unchanged(w, c);
    assert KeyInv(w, pc.key);
  }

  lemma ClaimReadsKeep(w: World, c: CallId, pc: Pc, ch: Choice)
    requires TablesInv(w) && CallInv(w, c, pc)
    requires pc.ResumeLost? || pc.ResumeComplete? || pc.ResumeStored?
    ensures Kept(w, c, ResumeStep(w, c, pc, ch))
  {
    Unchanged(w, c);
  }

  lemma OpenKeeps(w: World, c: CallId, pc: Pc, ch: Choice)
    requires TablesInv(w) && CallInv(w, c, pc)
    ensures Kept(w, c, OpenStep(w, c, pc, ch))
  {
    hide TablesInv, Guarantee, Kept, OpenStep;
    match pc
    case OpenPropose(req) => ProposeKeeps(w, c, req, ch);
    case OpenReserve(req) => ReserveKeeps(w, c, req, ch);
    case OpenCheckpoint(req, pid) => InsertCheckpointKeeps(w, c, req, pid, ch);
    case OpenBind(req, pid, id) => BindKeeps(w, c, req, pid, id, ch);
    case OpenStart(_) => OpenReadsKeep(w, c, pc, ch);
    case OpenReadEffect(_) => OpenReadsKeep(w, c, pc, ch);
    case OpenAuto(_, _) => OpenReadsKeep(w, c, pc, ch);
    case OpenReadBack(_) => OpenReadsKeep(w, c, pc, ch);
    case _ => NotOpening(w, c, pc, ch);
  }

  lemma NotOpening(w: World, c: CallId, pc: Pc, ch: Choice)
    requires !pc.OpenStart? && !pc.OpenReadEffect? && !pc.OpenReserve? && !pc.OpenPropose?
    requires !pc.OpenAuto? && !pc.OpenCheckpoint? && !pc.OpenBind? && !pc.OpenReadBack?
    ensures Kept(w, c, OpenStep(w, c, pc, ch))
  {
  }

  lemma DecideKeeps(w: World, c: CallId, pc: Pc, ch: Choice)
    requires TablesInv(w) && CallInv(w, c, pc)
    ensures Kept(w, c, DecideStep(w, c, pc, ch))
  {
    hide TablesInv, Guarantee;
    match pc
    case Create(_, _, _) => CreateKeeps(w, c, pc, ch);
    case DecideSelect(pid, d, after) => SelectKeeps(w, c, pid, d, after);
    case DecideUpdate(_, _, _, _) => DecideUpdateKeeps(w, c, pc, ch);
    case DecideConfirm(pid, d, after) => ConfirmKeeps(w, c, pid, d, after);
    case StageSelect(pid, edited, actor) => StageKeeps(w, c, pid, edited, actor);
    case StageUpdate(_, _) => DecideUpdateKeeps(w, c, pc, ch);
    case StageConfirm(_) => Unchanged(w, c);
    case RewriteSelect(_, _) => Unchanged(w, c);
    case RewriteUpdate(_, _) => RewriteKeeps(w, c, pc, ch);
    case RewriteConfirm(_) => Unchanged(w, c);
    case _ =>
  }

  lemma ResumeWritesKeep(w: World, c: CallId, pc: Pc, ch: Choice)
    requires TablesInv(w) && CallInv(w, c, pc)
    requires pc.ResumeClaim? || pc.ResumeExecute? || pc.ResumeStore? || pc.ResumeMark?
    ensures Kept(w, c, ResumeStep(w, c, pc, ch))
  {
    hide TablesInv, Guarantee, Kept;
    match pc
    case ResumeClaim(key, execute, row) => ClaimKeeps(w, c, key, execute, row);
    case ResumeExecute(key, execute, row) => ExecuteKeeps(w, c, key, execute, row, ch.result);
    case ResumeStore(key, row, result, volatile) => StoreKeeps(w, c, key, row, result, volatile);
    case ResumeMark(key, row, stored) => MarkKeeps(w, c, key, row, stored);
  }

  predicate OnResume(pc: Pc) {
    || pc.ResumeClaim? || pc.ResumeExecute? || pc.ResumeStore? || pc.ResumeMark?
    || pc.PresentTool? || pc.ApproveReadCheckpoint? || pc.ApproveReadProposal?
    || pc.ResumeLost? || pc.ResumeComplete? || pc.ResumeStored?
    || pc.ResumeReadEffect? || pc.ResumeReadCheckpoint? || pc.ResumeReadProposal? || pc.ResumeReadCached?
  }

  lemma NotOnResume(w: World, c: CallId, pc: Pc, ch: Choice)
    requires !OnResume(pc)
    ensures Kept(w, c, ResumeStep(w, c, pc, ch))
  {
    hide TablesInv, Guarantee, CallInv;
  }

  lemma ResumeKeeps(w: World, c: CallId, pc: Pc, ch: Choice)
    requires TablesInv(w) && CallInv(w, c, pc)
    ensures Kept(w, c, ResumeStep(w, c, pc, ch))
  {
    hide TablesInv, Guarantee, CallInv, Kept, ResumeStep;
    if !OnResume(pc) {
      NotOnResume(w, c, pc, ch);
    } else if pc.PresentTool? || pc.ApproveReadCheckpoint? || pc.ApproveReadProposal? {
      ApproveReadsKeep(w, c, pc, ch);
    } else if pc.ResumeLost? || pc.ResumeComplete? || pc.ResumeStored? {
      ClaimReadsKeep(w, c, pc, ch);
    } else if pc.ResumeReadEffect? || pc.ResumeReadCheckpoint? || pc.ResumeReadProposal? || pc.ResumeReadCached? {
      ResumeReadsKeep(w, c, pc, ch);
    } else {
      ResumeWritesKeep(w, c, pc, ch);
    }
  }

  /** The invariant is inductive: a step keeps it, and keeps the step's promise to other calls. */
  lemma StepKeeps(w: World, c: CallId, pc: Pc, ch: Choice, m: Move)
    requires TablesInv(w) && CallInv(w, c, pc) && m == Step(w, c, pc, ch)
    ensures Kept(w, c, m)
  {
    hide TablesInv, CallInv, Guarantee;
    if m == OpenStep(w, c, pc, ch) {
      OpenKeeps(w, c, pc, ch);
    } else if m == DecideStep(w, c, pc, ch) {
      DecideKeeps(w, c, pc, ch);
    } else {
      ResumeKeeps(w, c, pc, ch);
    }
  }
}
