/** The approval / checkpoint / side-effect protocol as a transition system.

    The shared state is three tables, each of whose statements is one atomic commit. Any number of
    calls run at once; a call is a program counter plus what it has read so far, and it may stop
    for good between any two commits. */
module Protocol {
  import opened Core
  import opened PassStore

  type Key = string
  type RowId = string
  type CallId = nat

  datatype EffectStatus = Reserved | Completed

  /** One `side_effects` row; `result` is None for the empty string. */
  datatype Effect = Effect(token: string, volatile: bool, status: EffectStatus, result: Option<Json>,
                           proposalId: ProposalId, checkpointId: RowId)

  datatype CheckpointStatus = Open | Resuming | Resumed

  /** One `checkpoints` row; the table is keyed by its unique `idempotency_key`. */
  datatype Checkpoint = Checkpoint(id: RowId, proposalId: ProposalId, status: CheckpointStatus)

  type Effects = map<Key, Effect>
  type Checkpoints = map<Key, Checkpoint>

  /** The three tables, and what happened so far as far as the theorems speak of it. */
  datatype World = World(
    proposals: Proposals,
    effects: Effects,
    checkpoints: Checkpoints,
    runs: multiset<Key>,                          // one occurrence per call of `execute`
    notified: set<(ProposalId, Decision)>,        // `side_effect` callbacks that were run
    created: map<ProposalId, Payload>,            // payload at creation
    creator: map<ProposalId, CallId>,             // the call that inserted the proposal
    claimant: map<Key, CallId>,                   // the call that won the compare-and-swap
    rewritten: set<ProposalId>)                   // proposals whose payload `update_payload` has replaced

  const EmptyWorld := World(map[], map[], map[], multiset{}, {}, map[], map[], map[], {})

  // ---------------------------------------------------------------- statements on the tables

  /** UPDATE checkpoints SET status='resuming' WHERE id=? AND status='open' */
  function ClaimRow(t: Checkpoints, id: RowId): Checkpoints {
    map k | k in t :: if t[k].id == id && t[k].status == Open then t[k].(status := Resuming) else t[k]
  }

  /** The row count of that UPDATE. */
  function ClaimCount(t: Checkpoints, id: RowId): nat {
    |set k | k in t && t[k].id == id && t[k].status == Open|
  }

  /** UPDATE checkpoints SET status='resumed' WHERE id=? */
  function MarkRow(t: Checkpoints, id: RowId): Checkpoints {
    map k | k in t :: if t[k].id == id then t[k].(status := Resumed) else t[k]
  }

  predicate RowIdTaken(t: Checkpoints, id: RowId) {
    exists k :: k in t && t[k].id == id
  }

  /** UPDATE side_effects SET proposal_id=?, checkpoint_id=? WHERE idempotency_key=? */
  function BindRow(t: Effects, key: Key, pid: ProposalId, id: RowId): Effects {
    if key in t then t[key := t[key].(proposalId := pid, checkpointId := id)] else t
  }

  /** UPDATE side_effects SET status='completed', result=? WHERE idempotency_key=? */
  function CompleteRow(t: Effects, key: Key, result: Option<Json>): Effects {
    if key in t then t[key := t[key].(status := Completed, result := result)] else t
  }

  /** UPDATE pass_proposals SET status=?, payload=? WHERE id=? AND status='PENDING' */
  function DecideRow(t: Proposals, pid: ProposalId, status: Status, payload: Payload): Proposals {
    if pid in t && t[pid].status == Pending then t[pid := t[pid].(status := status, payload := payload)] else t
  }

  /** UPDATE pass_proposals SET payload=? WHERE id=? */
  function RewriteRow(t: Proposals, pid: ProposalId, payload: Payload): Proposals {
    if pid in t then t[pid := t[pid].(payload := payload)] else t
  }

  /** `cached_result`: what a reader of a completed row gets. */
  function CachedResult(e: Effect): Option<Json> {
    if e.status == Completed && !e.volatile && e.result.Some? && e.result.value != Null then e.result else None
  }

  // ---------------------------------------------------------------- calls

  datatype OpenRequest = OpenRequest(key: Key, token: string, volatile: bool, payload: Payload)

  /** What a `decide` made on behalf of another function goes on with. */
  datatype After = Stop | ThenCheckpoint(req: OpenRequest) | ThenResume(key: Key, execute: bool)

  /** `ResumeResult.status`. */
  datatype ResumeStatus =
    | StatusCompleted
    | StatusPendingApproval
    | StatusRejected
    | StatusCheckpoint(status: CheckpointStatus)

  datatype Outcome =
    | Raised
    | Crashed
    | Created(pid: ProposalId)
    | Opened(key: Key)
    | Decided(pid: ProposalId, status: Status)
    | Staged(pid: ProposalId)
    | Rewritten(pid: ProposalId)
    | ResumeResult(key: Key, state: ResumeStatus, executed: bool, cached: bool, result: Option<Json>)

  datatype Pc =
    // create_pending on its own, by any other client of the inbox
    | Create(kind: Kind, action: string, payload: Payload)
    // open_pending_tool
    | OpenStart(req: OpenRequest)
    | OpenReadEffect(req: OpenRequest)
    | OpenReserve(req: OpenRequest)
    | OpenPropose(req: OpenRequest)
    | OpenAuto(req: OpenRequest, pid: ProposalId)
    | OpenCheckpoint(req: OpenRequest, pid: ProposalId)
    | OpenBind(req: OpenRequest, pid: ProposalId, id: RowId)
    | OpenReadBack(req: OpenRequest)
    // decide
    | DecideSelect(pid: ProposalId, decision: Decision, after: After)
    | DecideUpdate(pid: ProposalId, decision: Decision, payload: Payload, after: After)
    | DecideConfirm(pid: ProposalId, decision: Decision, after: After)
    // stage_edit
    | StageSelect(pid: ProposalId, edited: Payload, actor: string)
    | StageUpdate(pid: ProposalId, payload: Payload)
    | StageConfirm(pid: ProposalId)
    // update_payload
    | RewriteSelect(pid: ProposalId, payload: Payload)
    | RewriteUpdate(pid: ProposalId, payload: Payload)
    | RewriteConfirm(pid: ProposalId)
    // presenters: _resume_tool, then approve_and_resume
    | PresentTool(pid: ProposalId, approve: bool, execute: bool)
    | ApproveReadCheckpoint(key: Key, execute: bool)
    | ApproveReadProposal(key: Key, pid: ProposalId, execute: bool)
    // resume
    | ResumeReadEffect(key: Key, execute: bool)
    | ResumeReadCheckpoint(key: Key, execute: bool, completed: bool)
    | ResumeReadProposal(key: Key, execute: bool, completed: bool, row: Checkpoint)
    | ResumeReadCached(key: Key)
    | ResumeClaim(key: Key, execute: bool, row: Checkpoint)
    | ResumeLost(key: Key)
    | ResumeExecute(key: Key, execute: bool, row: Checkpoint)
    | ResumeComplete(key: Key, row: Checkpoint, result: Json)
    | ResumeStore(key: Key, row: Checkpoint, result: Json, volatile: bool)
    | ResumeStored(key: Key, row: Checkpoint)
    | ResumeMark(key: Key, row: Checkpoint, stored: Option<Json>)
    | Finished(outcome: Outcome)

  /** What a step cannot compute from the tables: a fresh id, the verdict of the approval rules,
      what `execute` returned (None when it raised), and which row an unindexed SELECT found. */
  datatype Choice = Choice(newId: string, auto: Option<Decision>, result: Option<Json>, found: Option<Key>)

  datatype Move = Blocked | Go(w: World, pc: Pc)

  predicate Callable(pc: Pc) {
    pc.Create? || pc.OpenStart? || (pc.DecideSelect? && pc.after.Stop?) || pc.StageSelect?
    || pc.RewriteSelect? || pc.PresentTool? || pc.ApproveReadCheckpoint? || pc.ResumeReadEffect?
  }

  function Raise(w: World): Move {
    Go(w, Finished(Raised))
  }

  function NotExecuted(w: World, key: Key, status: ResumeStatus): Move {
    Go(w, Finished(ResumeResult(key, status, false, false, None)))
  }

  function InsertProposal(w: World, c: CallId, pid: ProposalId, p: Proposal): World {
    w.(proposals := w.proposals[pid := p], created := w.created[pid := p.payload], creator := w.creator[pid := c])
  }

  function OpenStep(w: World, c: CallId, pc: Pc, ch: Choice): Move {
    match pc
    case OpenStart(req) =>
      if req.key in w.checkpoints then Go(w, Finished(Opened(req.key))) else Go(w, OpenReadEffect(req))
    case OpenReadEffect(req) =>
      if req.key !in w.effects then Go(w, OpenReserve(req))
      else if w.effects[req.key].token != "" && w.effects[req.key].token != req.token then Raise(w)
      else Go(w, OpenPropose(req))
    case OpenReserve(req) =>
      if req.key in w.effects then Raise(w)
      else
        var reserved := Effect(req.token, req.volatile, Reserved, None, "", "");
        Go(w.(effects := w.effects[req.key := reserved]), OpenPropose(req))
    case OpenPropose(req) =>
      if ch.newId in w.proposals then Raise(w)
      else
        var p := Proposal(ToolKind, Pending, req.token, req.payload);
        Go(InsertProposal(w, c, ch.newId, p), OpenAuto(req, ch.newId))
    case OpenAuto(req, pid) =>
      (match ch.auto
       case None => Go(w, OpenCheckpoint(req, pid))
       case Some(d) => if d.Approve? || d.Reject? then Go(w, DecideSelect(pid, d, ThenCheckpoint(req))) else Blocked)
    case OpenCheckpoint(req, pid) =>
      if req.key in w.checkpoints || RowIdTaken(w.checkpoints, ch.newId) then Raise(w)
      else
        var row := Checkpoint(ch.newId, pid, Open);
        Go(w.(checkpoints := w.checkpoints[req.key := row]), OpenBind(req, pid, ch.newId))
    case OpenBind(req, pid, id) =>
      if req.key in w.effects then Go(w.(effects := BindRow(w.effects, req.key, pid, id)), OpenReadBack(req))
        else Raise(w)
    case OpenReadBack(req) =>
      if req.key in w.checkpoints then Go(w, Finished(Opened(req.key))) else Raise(w)
    case _ => Blocked
  }

  function Continue(w: World, pid: ProposalId, status: Status, after: After): Move {
    match after
    case Stop => Go(w, Finished(Decided(pid, status)))
    case ThenCheckpoint(req) => Go(w, OpenCheckpoint(req, pid))
    case ThenResume(key, execute) => Go(w, ResumeReadEffect(key, execute))
  }

  /** Read the row, refuse a decided one, and merge the edit if this is one. */
  function SelectStep(w: World, pid: ProposalId, d: Decision, after: After): Move {
    if pid !in w.proposals || w.proposals[pid].status != Pending then Raise(w)
    else
      var merged := if d.Edit? then Merged(w.proposals[pid].payload, d.edited) else Some(w.proposals[pid].payload);
      if merged.None? then Raise(w) else Go(w, DecideUpdate(pid, d, merged.value, after))
  }

  function StageStep(w: World, pid: ProposalId, edited: Payload, actor: string): Move {
    if pid !in w.proposals || w.proposals[pid].status != Pending then Raise(w)
    else
      var merged := StagedEdit(w.proposals[pid].payload, edited, actor);
      if merged.None? then Raise(w) else Go(w, StageUpdate(pid, merged.value))
  }

  /** Read the decided row back; run the callback only on the status that was asked for. */
  function ConfirmStep(w: World, pid: ProposalId, d: Decision, after: After): Move {
    if pid !in w.proposals || w.proposals[pid].status != StatusOf(d) then Raise(w)
    else Continue(w.(notified := w.notified + {(pid, d)}), pid, StatusOf(d), after)
  }

  function DecideStep(w: World, c: CallId, pc: Pc, ch: Choice): Move {
    match pc
    case Create(kind, action, payload) =>
      if ch.newId in w.proposals then Raise(w)
      else Go(InsertProposal(w, c, ch.newId, Proposal(kind, Pending, action, payload)), Finished(Created(ch.newId)))
    case DecideSelect(pid, d, after) => SelectStep(w, pid, d, after)
    case DecideUpdate(pid, d, payload, after) =>
      Go(w.(proposals := DecideRow(w.proposals, pid, StatusOf(d), payload)), DecideConfirm(pid, d, after))
    case DecideConfirm(pid, d, after) => ConfirmStep(w, pid, d, after)
    case StageSelect(pid, edited, actor) => StageStep(w, pid, edited, actor)
    case StageUpdate(pid, payload) =>
      Go(w.(proposals := DecideRow(w.proposals, pid, Pending, payload)), StageConfirm(pid))
    case StageConfirm(pid) =>
      if pid in w.proposals && w.proposals[pid].status == Pending then Go(w, Finished(Staged(pid))) else Raise(w)
    case RewriteSelect(pid, payload) => if pid in w.proposals then Go(w, RewriteUpdate(pid, payload)) else Raise(w)
    case RewriteUpdate(pid, payload) =>
      Go(w.(proposals := RewriteRow(w.proposals, pid, payload), rewritten := w.rewritten + {pid}), RewriteConfirm(pid))
    case RewriteConfirm(pid) => if pid in w.proposals then Go(w, Finished(Rewritten(pid))) else Raise(w)
    case _ => Blocked
  }

  /** The compare-and-swap. */
  function ClaimStep(w: World, c: CallId, key: Key, execute: bool, row: Checkpoint): Move {
    var w' := w.(checkpoints := ClaimRow(w.checkpoints, row.id));
    if ClaimCount(w.checkpoints, row.id) == 1
    then Go(w'.(claimant := w.claimant[key := c]), ResumeExecute(key, execute, row))
    else Go(w', ResumeLost(key))
  }

  /** Call `execute`, if there is one; it may raise. */
  function ExecuteStep(w: World, key: Key, execute: bool, row: Checkpoint, returned: Option<Json>): Move {
    if !execute then Go(w, ResumeComplete(key, row, Null))
    else
      var w' := w.(runs := w.runs + multiset{key});
      if returned.None? then Raise(w') else Go(w', ResumeComplete(key, row, returned.value))
  }

  /** Record the result; a volatile tool's result is not kept. */
  function StoreStep(w: World, key: Key, row: Checkpoint, result: Json, volatile: bool): Move {
    Go(w.(effects := CompleteRow(w.effects, key, if volatile then None else Some(result))), ResumeStored(key, row))
  }

  function MarkStep(w: World, key: Key, row: Checkpoint, stored: Option<Json>): Move {
    Go(w.(checkpoints := MarkRow(w.checkpoints, row.id)),
       Finished(ResumeResult(key, StatusCompleted, true, stored.Some?, stored)))
  }

  function ResumeStep(w: World, c: CallId, pc: Pc, ch: Choice): Move {
    match pc
    case PresentTool(pid, approve, execute) =>
      (match ch.found
       case Some(key) =>
         if key !in w.checkpoints || w.checkpoints[key].proposalId != pid then Blocked
         else if approve then Go(w, ApproveReadCheckpoint(key, execute))
         else Go(w, DecideSelect(pid, Reject, ThenResume(key, false)))
       case None =>
         if exists key :: key in w.checkpoints && w.checkpoints[key].proposalId == pid then Blocked
         else Go(w, DecideSelect(pid, if approve then Approve else Reject, Stop)))
    case ApproveReadCheckpoint(key, execute) =>
      if key in w.checkpoints then Go(w, ApproveReadProposal(key, w.checkpoints[key].proposalId, execute)) else Raise(w)
    case ApproveReadProposal(key, pid, execute) =>
      if pid !in w.proposals then Raise(w)
      else if w.proposals[pid].status == Pending then Go(w, DecideSelect(pid, Approve, ThenResume(key, execute)))
      else Go(w, ResumeReadEffect(key, execute))
    case ResumeReadEffect(key, execute) =>
      if key !in w.effects then Raise(w)
      else Go(w, ResumeReadCheckpoint(key, execute, w.effects[key].status == Completed))
    case ResumeReadCheckpoint(key, execute, completed) =>
      if key !in w.checkpoints then Raise(w)
      else Go(w, ResumeReadProposal(key, execute, completed, w.checkpoints[key]))
    case ResumeReadProposal(key, execute, completed, row) =>
      if completed then Go(w, ResumeReadCached(key))
      else if row.status != Open then NotExecuted(w, key, StatusCheckpoint(row.status))
      else if row.proposalId !in w.proposals then Raise(w)
      else (match w.proposals[row.proposalId].status
            case Pending => NotExecuted(w, key, StatusPendingApproval)
            case Rejected => NotExecuted(w, key, StatusRejected)
            case Expired => NotExecuted(w, key, StatusRejected)
            case Edited => Raise(w)
            case Approved => Go(w, ResumeClaim(key, execute, row)))
    case ResumeReadCached(key) =>
      var cached := if key in w.effects then CachedResult(w.effects[key]) else None;
      Go(w, Finished(ResumeResult(key, StatusCompleted, false, cached.Some?, cached)))
    case ResumeClaim(key, execute, row) => ClaimStep(w, c, key, execute, row)
    case ResumeLost(key) =>
      NotExecuted(w, key, StatusCheckpoint(if key in w.checkpoints then w.checkpoints[key].status else Resuming))
    case ResumeExecute(key, execute, row) => ExecuteStep(w, key, execute, row, ch.result)
    case ResumeComplete(key, row, result) =>
      if key in w.effects then Go(w, ResumeStore(key, row, result, w.effects[key].volatile)) else Raise(w)
    case ResumeStore(key, row, result, volatile) => StoreStep(w, key, row, result, volatile)
    case ResumeStored(key, row) =>
      if key !in w.effects || w.effects[key].status != Completed then Raise(w)
      else Go(w, ResumeMark(key, row, if w.effects[key].volatile then None else w.effects[key].result))
    case ResumeMark(key, row, stored) => MarkStep(w, key, row, stored)
    case _ => Blocked
  }

  /** One commit (or one read) of call `c`. */
  function Step(w: World, c: CallId, pc: Pc, ch: Choice): Move {
    match pc
    case OpenStart(_) => OpenStep(w, c, pc, ch)
    case OpenReadEffect(_) => OpenStep(w, c, pc, ch)
    case OpenReserve(_) => OpenStep(w, c, pc, ch)
    case OpenPropose(_) => OpenStep(w, c, pc, ch)
    case OpenAuto(_, _) => OpenStep(w, c, pc, ch)
    case OpenCheckpoint(_, _) => OpenStep(w, c, pc, ch)
    case OpenBind(_, _, _) => OpenStep(w, c, pc, ch)
    case OpenReadBack(_) => OpenStep(w, c, pc, ch)
    case Create(_, _, _) => DecideStep(w, c, pc, ch)
    case DecideSelect(_, _, _) => DecideStep(w, c, pc, ch)
    case DecideUpdate(_, _, _, _) => DecideStep(w, c, pc, ch)
    case DecideConfirm(_, _, _) => DecideStep(w, c, pc, ch)
    case StageSelect(_, _, _) => DecideStep(w, c, pc, ch)
    case StageUpdate(_, _) => DecideStep(w, c, pc, ch)
    case StageConfirm(_) => DecideStep(w, c, pc, ch)
    case RewriteSelect(_, _) => DecideStep(w, c, pc, ch)
    case RewriteUpdate(_, _) => DecideStep(w, c, pc, ch)
    case RewriteConfirm(_) => DecideStep(w, c, pc, ch)
    case Finished(_) => Blocked
    case _ => ResumeStep(w, c, pc, ch)
  }
}
