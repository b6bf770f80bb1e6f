/** The inductive invariant of the protocol, by rely and guarantee: what holds of the tables, what
    each call may rely on at its program counter, and what one call's steps leave alone. */
module ProtocolInvariant {
  import opened Core
  import opened PassStore
  import opened Protocol

  predicate CreatedBy(w: World, pid: ProposalId, c: CallId) {
    pid in w.creator && w.creator[pid] == c
  }

  predicate ClaimedBy(w: World, key: Key, c: CallId) {
    key in w.claimant && w.claimant[key] == c
  }

  predicate HasStatus(w: World, pid: ProposalId, status: Status) {
    pid in w.proposals && w.proposals[pid].status == status
  }

  /** Everything about one key: its effect row, its checkpoint row, and how often `execute` ran. */
  ghost predicate KeyInv(w: World, k: Key) {
    && w.runs[k] <= 1
    && (k in w.effects && w.effects[k].status == Reserved ==> w.effects[k].result == None)
    && (k in w.effects && w.effects[k].status == Completed ==>
          k in w.claimant && (w.effects[k].result.None? <==> w.effects[k].volatile))
    && (k in w.checkpoints ==> k in w.effects && w.checkpoints[k].proposalId in w.proposals)
    && (k in w.claimant <==> k in w.checkpoints && w.checkpoints[k].status != Open)
    && (k in w.claimant ==> HasStatus(w, w.checkpoints[k].proposalId, Approved))
    && (k !in w.claimant ==> w.runs[k] == 0)
    && (k in w.checkpoints && w.checkpoints[k].status == Resumed ==> w.effects[k].status == Completed)
  }

  /** `payload` has the frozen targets that the proposal was created with, unless the payload was
      replaced as a whole. */
  ghost predicate KeepsTargets(w: World, pid: ProposalId, payload: Payload) {
    pid in w.created && (pid !in w.rewritten ==> SameTargets(w.created[pid], payload))
  }

  ghost predicate ProposalInv(w: World, pid: ProposalId) {
    && (pid in w.proposals <==> pid in w.creator)
    && (pid in w.proposals <==> pid in w.created)
    && (pid in w.proposals ==> KeepsTargets(w, pid, w.proposals[pid].payload))
  }

  predicate RowsApart(w: World, k: Key, l: Key) {
    k in w.checkpoints && l in w.checkpoints && k != l ==>
      w.checkpoints[k].id != w.checkpoints[l].id && w.checkpoints[k].proposalId != w.checkpoints[l].proposalId
  }

  /** No two checkpoints share a row id or a proposal. */
  ghost predicate RowsUnique(w: World) {
    forall k, l :: RowsApart(w, k, l)
  }

  ghost predicate TablesInv(w: World) {
    && (forall k :: KeyInv(w, k))
    && (forall pid :: ProposalInv(w, pid))
    && RowsUnique(w)
    && (forall n :: n in w.notified ==> HasStatus(w, n.0, StatusOf(n.1)))
  }

  /** A proposal that call `c` created and that no checkpoint uses. */
  ghost predicate Unbound(w: World, c: CallId, pid: ProposalId) {
    && pid in w.proposals && CreatedBy(w, pid, c)
    && forall k :: k in w.checkpoints ==> w.checkpoints[k].proposalId != pid
  }

  /** `row` was read from the checkpoint of `key` at some earlier time. */
  predicate ReadEarlier(w: World, key: Key, row: Checkpoint) {
    && key in w.checkpoints
    && w.checkpoints[key].id == row.id && w.checkpoints[key].proposalId == row.proposalId
    && (row.status != Open ==> w.checkpoints[key].status != Open)
  }

  predicate IsCompleted(w: World, key: Key) {
    key in w.effects && w.effects[key].status == Completed
  }

  predicate IsResumed(w: World, key: Key) {
    key in w.checkpoints && w.checkpoints[key].status == Resumed
  }

  /** Call `c` holds the claim of `key` and has not recorded a result. */
  predicate Holding(w: World, c: CallId, key: Key, row: Checkpoint) {
    && ReadEarlier(w, key, row) && ClaimedBy(w, key, c) && w.checkpoints[key].status == Resuming
    && key in w.effects && w.effects[key].status == Reserved
  }

  ghost predicate AfterInv(w: World, c: CallId, pid: ProposalId, after: After) {
    after.ThenCheckpoint? ==> after.req.key in w.effects && Unbound(w, c, pid)
  }

  function StoredResult(e: Effect): Option<Json> {
    if e.volatile then None else e.result
  }

  ghost predicate OutcomeInv(w: World, c: CallId, o: Outcome) {
    match o
    case Decided(pid, status) => HasStatus(w, pid, status) && status != Pending
    case ResumeResult(key, state, executed, cached, result) =>
      && (executed ==> state == StatusCompleted && ClaimedBy(w, key, c) && IsResumed(w, key))
      && (state == StatusCompleted ==> IsCompleted(w, key))
      && (executed ==> result == StoredResult(w.effects[key]))
      && (!executed && state == StatusCompleted ==> result == CachedResult(w.effects[key]))
      && (state != StatusCompleted ==> result == None)
      && (cached <==> result.Some?)
    case _ => true
  }

  /** What call `c` may rely on at `pc`. */
  ghost predicate CallInv(w: World, c: CallId, pc: Pc) {
    match pc
    case OpenPropose(req) => req.key in w.effects
    case OpenAuto(req, pid) => req.key in w.effects && Unbound(w, c, pid)
    case OpenCheckpoint(req, pid) => req.key in w.effects && Unbound(w, c, pid)
    case OpenBind(req, pid, id) => req.key in w.checkpoints
    case DecideSelect(pid, d, after) => AfterInv(w, c, pid, after)
    case DecideUpdate(pid, d, payload, after) => AfterInv(w, c, pid, after) && KeepsTargets(w, pid, payload)
    case DecideConfirm(pid, d, after) => AfterInv(w, c, pid, after)
    case StageUpdate(pid, payload) => KeepsTargets(w, pid, payload)
    case ResumeReadCheckpoint(key, execute, completed) => completed ==> IsCompleted(w, key)
    case ResumeReadProposal(key, execute, completed, row) =>
      ReadEarlier(w, key, row) && (completed ==> IsCompleted(w, key))
    case ResumeReadCached(key) => IsCompleted(w, key)
    case ResumeClaim(key, execute, row) => ReadEarlier(w, key, row) && HasStatus(w, row.proposalId, Approved)
    case ResumeExecute(key, execute, row) => Holding(w, c, key, row) && w.runs[key] == 0
    case ResumeComplete(key, row, result) => Holding(w, c, key, row)
    case ResumeStore(key, row, result, volatile) => Holding(w, c, key, row) && volatile == w.effects[key].volatile
    case ResumeStored(key, row) =>
      && ReadEarlier(w, key, row) && ClaimedBy(w, key, c) && w.checkpoints[key].status == Resuming
      && IsCompleted(w, key)
    case ResumeMark(key, row, stored) =>
      && ReadEarlier(w, key, row) && ClaimedBy(w, key, c) && w.checkpoints[key].status == Resuming
      && IsCompleted(w, key) && stored == StoredResult(w.effects[key])
    case Finished(o) => OutcomeInv(w, c, o)
    case _ => true
  }

  /** What a step of call `c` does to a proposal row. */
  ghost predicate ProposalGuarantee(w: World, w': World, c: CallId, pid: ProposalId) {
    && (pid in w.creator ==> pid in w'.creator && w'.creator[pid] == w.creator[pid])
    && (pid in w.created ==> pid in w'.created && w'.created[pid] == w.created[pid])
    && (pid in w.proposals ==> pid in w'.proposals)
    && (pid in w.rewritten ==> pid in w'.rewritten)
    && (pid in w.proposals && w.proposals[pid].status != Pending ==>
          && w'.proposals[pid] == w.proposals[pid].(payload := w'.proposals[pid].payload)
          && (pid !in w'.rewritten ==> w'.proposals[pid].payload == w.proposals[pid].payload))
    && (pid !in w.proposals && pid in w'.proposals ==> CreatedBy(w', pid, c))
  }

  /** What a step of call `c` does to the rows of a key. */
  ghost predicate KeyGuarantee(w: World, w': World, c: CallId, k: Key) {
    && (k in w.effects ==> k in w'.effects && w'.effects[k].volatile == w.effects[k].volatile)
    && (IsCompleted(w, k) ==> IsCompleted(w', k) && w'.effects[k].result == w.effects[k].result)
    && (k in w.checkpoints ==>
          && k in w'.checkpoints
          && w'.checkpoints[k].id == w.checkpoints[k].id
          && w'.checkpoints[k].proposalId == w.checkpoints[k].proposalId
          && (w.checkpoints[k].status != Open ==> w'.checkpoints[k].status != Open)
          && (w.checkpoints[k].status == Resumed ==> w'.checkpoints[k].status == Resumed))
    && (k !in w.checkpoints && k in w'.checkpoints ==> CreatedBy(w', w'.checkpoints[k].proposalId, c))
    && (k in w.claimant ==> k in w'.claimant && w'.claimant[k] == w.claimant[k])
    // a claim belongs to one call: the others cannot touch what hangs on it
    && (k in w.claimant && w.claimant[k] != c ==>
          && (k in w.checkpoints ==> w'.checkpoints[k] == w.checkpoints[k]) && w'.runs[k] == w.runs[k]
          && (k in w.effects ==>
                w'.effects[k].status == w.effects[k].status && w'.effects[k].result == w.effects[k].result))
  }

  ghost predicate Guarantee(w: World, w': World, c: CallId) {
    && (forall pid :: ProposalGuarantee(w, w', c, pid))
    && (forall k :: KeyGuarantee(w, w', c, k))
  }

  /** The key a program counter is about. */
  function KeyOf(pc: Pc): Key {
    match pc
    case OpenStart(req) => req.key
    case OpenReadEffect(req) => req.key
    case OpenReserve(req) => req.key
    case OpenPropose(req) => req.key
    case OpenAuto(req, _) => req.key
    case OpenCheckpoint(req, _) => req.key
    case OpenBind(req, _, _) => req.key
    case OpenReadBack(req) => req.key
    case Create(_, _, _) => ""
    case DecideSelect(_, _, after) => if after.ThenCheckpoint? then after.req.key else ""
    case DecideUpdate(_, _, _, after) => if after.ThenCheckpoint? then after.req.key else ""
    case DecideConfirm(_, _, after) => if after.ThenCheckpoint? then after.req.key else ""
    case StageSelect(_, _, _) => ""
    case StageUpdate(_, _) => ""
    case StageConfirm(_) => ""
    case RewriteSelect(_, _) => ""
    case RewriteUpdate(_, _) => ""
    case RewriteConfirm(_) => ""
    case PresentTool(_, _, _) => ""
    case Finished(o) => if o.ResumeResult? then o.key else ""
    case _ => pc.key
  }

  /** The proposal a program counter is about. */
  function ProposalOf(pc: Pc): ProposalId {
    match pc
    case OpenAuto(_, pid) => pid
    case OpenCheckpoint(_, pid) => pid
    case DecideSelect(pid, _, _) => pid
    case DecideUpdate(pid, _, _, _) => pid
    case DecideConfirm(pid, _, _) => pid
    case StageUpdate(pid, _) => pid
    case ResumeClaim(_, _, row) => row.proposalId
    case Finished(o) => if o.Decided? then o.pid else ""
    case _ => ""
  }

  lemma UnboundStable(w: World, w': World, c: CallId, d: CallId, pid: ProposalId)
    requires TablesInv(w) && Guarantee(w, w', c) && c != d
    requires Unbound(w, d, pid)
    ensures Unbound(w', d, pid)
  {
    assert ProposalGuarantee(w, w', c, pid);
    forall k | k in w'.checkpoints ensures w'.checkpoints[k].proposalId != pid {
      assert KeyGuarantee(w, w', c, k);
    }
  }

  /** A step of one call never breaks what another call relies on. */
  lemma OthersStable(w: World, w': World, c: CallId, d: CallId, pc: Pc)
    requires TablesInv(w) && TablesInv(w') && Guarantee(w, w', c) && c != d
    requires CallInv(w, d, pc)
    ensures CallInv(w', d, pc)
  {
    var k, pid := KeyOf(pc), ProposalOf(pc);
    assert KeyInv(w, k) && KeyInv(w', k) && KeyGuarantee(w, w', c, k);
    assert ProposalGuarantee(w, w', c, pid);
    if Unbound(w, d, pid) {
      UnboundStable(w, w', c, d, pid);
    }
  }
}
