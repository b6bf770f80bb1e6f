/** The interleaved, crashing protocol refines one atomic once-cell per idempotency key. */
module ProtocolRefinement {
  import opened Core
  import opened PassStore
  import opened Protocol
  import opened ProtocolInvariant
  import opened ProtocolSteps
  import opened ProtocolRuns

  /** Nothing asked; waiting for a decision; refused for good; claimed; effect begun; result known. */
  datatype Cell = Unopened | Waiting | Refused | Taken | Started | Done(result: Option<Json>)

  function CellOf(w: World, k: Key): Cell {
    if k !in w.checkpoints then Unopened
    else if w.checkpoints[k].status == Open then
      var pid := w.checkpoints[k].proposalId;
      if HasStatus(w, pid, Pending) || HasStatus(w, pid, Approved) then Waiting else Refused
    else if IsCompleted(w, k) then Done(w.effects[k].result)
    else if w.runs[k] > 0 then Started
    else Taken
  }

  /** The once-cell: the effect happens (`effects == 1`) only on the way from Taken to Started. A
      resume without a callback records `null` without an effect. */
  predicate CellStep(a: Cell, b: Cell, effects: int) {
    || (a == b && effects == 0)
    || (a.Unopened? && (b.Waiting? || b.Refused?) && effects == 0)
    || (a.Waiting? && (b.Refused? || b.Taken?) && effects == 0)
    || (a.Taken? && b.Started? && effects == 1)
    || (a.Taken? && b.Done? && (b.result.Some? ==> b.result.value == Null) && effects == 0)
    || (a.Started? && b.Done? && effects == 0)
  }

  predicate SameCell(w: World, w': World, k: Key) {
    CellOf(w, k) == CellOf(w', k) && w'.runs[k] == w.runs[k]
  }

  /** How many times `execute` was called for `k` between two states. */
  function Effects(w: World, w': World, k: Key): int {
    (w'.runs[k] as int) - (w.runs[k] as int)
  }

  /** One cell makes one abstract step, or none does. */
  ghost predicate OneCellMoves(w: World, w': World, key: Key) {
    && CellStep(CellOf(w, key), CellOf(w', key), Effects(w, w', key))
    && forall k :: k != key ==> SameCell(w, w', k)
  }

  ghost predicate Simulated(w: World, w': World) {
    exists key :: OneCellMoves(w, w', key)
  }

  lemma NoCellMoves(w: World, w': World)
    requires forall k :: SameCell(w, w', k)
    ensures Simulated(w, w')
  {
    assert SameCell(w, w', "");
    assert OneCellMoves(w, w', "");
  }

  /** Deciding (or editing) a proposal moves the cell of the one checkpoint that uses it. */
  lemma DecideMoves(w: World, pid: ProposalId, status: Status, payload: Payload)
    requires RowsUnique(w)
    ensures Simulated(w, w.(proposals := DecideRow(w.proposals, pid, status, payload)))
  {
    var w' := w.(proposals := DecideRow(w.proposals, pid, status, payload));
    if key :| key in w.checkpoints && w.checkpoints[key].proposalId == pid {
      forall k | k != key ensures SameCell(w, w', k) { assert RowsApart(w, k, key); }
      assert OneCellMoves(w, w', key);
    } else {
      NoCellMoves(w, w');
    }
  }

  lemma InsertMoves(w: World, c: CallId, pid: ProposalId, p: Proposal)
    requires TablesInv(w) && pid !in w.proposals
    ensures Simulated(w, InsertProposal(w, c, pid, p))
  {
    var w' := InsertProposal(w, c, pid, p);
    forall k ensures SameCell(w, w', k) { assert KeyInv(w, k); }
    NoCellMoves(w, w');
  }

  lemma CreateMoves(w: World, c: CallId, pid: ProposalId, p: Proposal)
    requires TablesInv(w)
    ensures Simulated(w, if pid in w.proposals then w else InsertProposal(w, c, pid, p))
  {
    if pid in w.proposals {
      NoCellMoves(w, w);
    } else {
      InsertMoves(w, c, pid, p);
    }
  }

  lemma ReserveMoves(w: World, key: Key, e: Effect)
    requires TablesInv(w) && key !in w.effects
    ensures Simulated(w, w.(effects := w.effects[key := e]))
  {
    assert KeyInv(w, key);
    NoCellMoves(w, w.(effects := w.effects[key := e]));
  }

  lemma InsertCheckpointMoves(w: World, c: CallId, key: Key, row: Checkpoint)
    requires TablesInv(w) && key !in w.checkpoints && row.status == Open
    ensures Simulated(w, w.(checkpoints := w.checkpoints[key := row]))
  {
    assert KeyInv(w, key);
    assert OneCellMoves(w, w.(checkpoints := w.checkpoints[key := row]), key);
  }

  lemma ProposeIs(w: World, c: CallId, req: OpenRequest, ch: Choice)
    ensures var m := OpenStep(w, c, OpenPropose(req), ch);
      m.Go? && m.w == if ch.newId in w.proposals then w
        else InsertProposal(w, c, ch.newId, Proposal(ToolKind, Pending, req.token, req.payload))
  {
  }

  lemma OpenReserveMoves(w: World, c: CallId, req: OpenRequest, ch: Choice)
    requires TablesInv(w)
    ensures Simulated(w, OpenStep(w, c, OpenReserve(req), ch).w)
  {
    hide TablesInv, Simulated;
    if req.key in w.effects { NoCellMoves(w, w); }
    else { ReserveMoves(w, req.key, Effect(req.token, req.volatile, Reserved, None, "", "")); }
  }

  lemma OpenCheckpointMoves(w: World, c: CallId, req: OpenRequest, pid: ProposalId, ch: Choice)
    requires TablesInv(w)
    ensures Simulated(w, OpenStep(w, c, OpenCheckpoint(req, pid), ch).w)
  {
    hide TablesInv, Simulated;
    if req.key in w.checkpoints || RowIdTaken(w.checkpoints, ch.newId) { NoCellMoves(w, w); }
    else { InsertCheckpointMoves(w, c, req.key, Checkpoint(ch.newId, pid, Open)); }
  }

  /** The other steps of an open leave checkpoints, statuses and results alone. */
  lemma OpenReads(w: World, c: CallId, pc: Pc, ch: Choice)
    requires OpenStep(w, c, pc, ch).Go? && !pc.OpenPropose? && !pc.OpenReserve? && !pc.OpenCheckpoint?
    ensures var w' := OpenStep(w, c, pc, ch).w;
      w' == if pc.OpenBind? && pc.req.key in w.effects
        then w.(effects := BindRow(w.effects, pc.req.key, pc.pid, pc.id)) else w
  {
  }

  lemma OpenMoves(w: World, c: CallId, pc: Pc, ch: Choice, m: Move)
    requires TablesInv(w) && m == OpenStep(w, c, pc, ch) && m.Go?
    ensures Simulated(w, m.w)
  {
    hide TablesInv, Simulated, OpenStep;
    match pc
    case OpenPropose(req) =>
      ProposeIs(w, c, req, ch);
      CreateMoves(w, c, ch.newId, Proposal(ToolKind, Pending, req.token, req.payload));
    case OpenReserve(req) => OpenReserveMoves(w, c, req, ch);
    case OpenCheckpoint(req, pid) => OpenCheckpointMoves(w, c, req, pid, ch);
    case _ =>
      OpenReads(w, c, pc, ch);
      NoCellMoves(w, m.w);
  }

  lemma UniqueRows(w: World)
    requires TablesInv(w)
    ensures RowsUnique(w)
  {
  }

  /** A payload says nothing about a cell. */
  lemma RewriteMoves(w: World, pid: ProposalId, payload: Payload)
    ensures Simulated(w, w.(proposals := RewriteRow(w.proposals, pid, payload), rewritten := w.rewritten + {pid}))
  {
    NoCellMoves(w, w.(proposals := RewriteRow(w.proposals, pid, payload), rewritten := w.rewritten + {pid}));
  }

  lemma DecideWritesMove(w: World, c: CallId, pc: Pc, ch: Choice)
    requires TablesInv(w) && DecideStep(w, c, pc, ch).Go?
    requires pc.Create? || pc.DecideUpdate? || pc.StageUpdate? || pc.RewriteUpdate?
    ensures Simulated(w, DecideStep(w, c, pc, ch).w)
  {
    UniqueRows(w);
    hide Simulated, TablesInv, RowsUnique, Merged, StagedEdit, DecideRow, RewriteRow;
    match pc
    case Create(kind, action, payload) => CreateMoves(w, c, ch.newId, Proposal(kind, Pending, action, payload));
    case DecideUpdate(pid, d, payload, _) => DecideMoves(w, pid, StatusOf(d), payload);
    case StageUpdate(pid, payload) => DecideMoves(w, pid, Pending, payload);
    case RewriteUpdate(pid, payload) => RewriteMoves(w, pid, payload);
  }

  lemma DecideReadsMove(w: World, c: CallId, pc: Pc, ch: Choice)
    requires DecideStep(w, c, pc, ch).Go?
    requires !(pc.Create? || pc.DecideUpdate? || pc.StageUpdate? || pc.RewriteUpdate?)
    ensures Simulated(w, DecideStep(w, c, pc, ch).w)
  {
    hide Simulated, Merged, StagedEdit;
    NoCellMoves(w, DecideStep(w, c, pc, ch).w);
  }

  lemma DecideStepMoves(w: World, c: CallId, pc: Pc, ch: Choice, m: Move)
    requires TablesInv(w) && m == DecideStep(w, c, pc, ch) && m.Go?
    ensures Simulated(w, m.w)
  {
    hide Simulated, TablesInv, DecideStep;
    if pc.Create? || pc.DecideUpdate? || pc.StageUpdate? || pc.RewriteUpdate? {
      DecideWritesMove(w, c, pc, ch);
    } else {
      DecideReadsMove(w, c, pc, ch);
    }
  }

  lemma ClaimMoves(w: World, c: CallId, key: Key, execute: bool, row: Checkpoint)
    requires TablesInv(w) && CallInv(w, c, ResumeClaim(key, execute, row))
    ensures OneCellMoves(w, ClaimStep(w, c, key, execute, row).w, key)
  {
    assert KeyInv(w, key);
    ClaimRowMeaning(w, key, row.id);
  }

  lemma ExecuteMoves(w: World, c: CallId, key: Key, execute: bool, row: Checkpoint, returned: Option<Json>)
    requires Holding(w, c, key, row) && w.runs[key] == 0
    ensures OneCellMoves(w, ExecuteStep(w, key, execute, row, returned).w, key)
  {
  }

  lemma StoreMoves(w: World, c: CallId, key: Key, row: Checkpoint, result: Json, volatile: bool)
    requires Holding(w, c, key, row) && (w.runs[key] == 0 ==> result == Null)
    ensures OneCellMoves(w, StoreStep(w, key, row, result, volatile).w, key)
  {
  }

  lemma MarkMoves(w: World, c: CallId, key: Key, row: Checkpoint, stored: Option<Json>)
    requires RowsUnique(w) && CallInv(w, c, ResumeMark(key, row, stored))
    ensures OneCellMoves(w, MarkStep(w, key, row, stored).w, key)
  {
    MarkRowMeaning(w, key, row.id);
    var w' := w.(checkpoints := w.checkpoints[key := w.checkpoints[key].(status := Resumed)]);
    assert OneCellMoves(w, w', key);
  }

  /** What a claimed call without a callback has in hand is `null`. */
  ghost predicate NullUnlessRun(w: World, pc: Pc) {
    match pc
    case ResumeComplete(key, _, result) => w.runs[key] == 0 ==> result == Null
    case ResumeStore(key, _, result, _) => w.runs[key] == 0 ==> result == Null
    case _ => true
  }

  lemma ResumeMoves(w: World, c: CallId, pc: Pc, ch: Choice)
    requires TablesInv(w) && CallInv(w, c, pc) && NullUnlessRun(w, pc) && ResumeStep(w, c, pc, ch).Go?
    ensures Simulated(w, ResumeStep(w, c, pc, ch).w)
  {
    match pc
    case ResumeClaim(key, execute, row) => ClaimMoves(w, c, key, execute, row);
    case ResumeExecute(key, execute, row) => ExecuteMoves(w, c, key, execute, row, ch.result);
    case ResumeStore(key, row, result, volatile) => StoreMoves(w, c, key, row, result, volatile);
    case ResumeMark(key, row, stored) => MarkMoves(w, c, key, row, stored);
    case _ => NoCellMoves(w, w);
  }

  ghost predicate NullInv(s: State) {
    forall c :: c in s.calls ==> NullUnlessRun(s.w, s.calls[c])
  }

  lemma NullKept(w: World, c: CallId, pc: Pc, ch: Choice)
    requires NullUnlessRun(w, pc) && Step(w, c, pc, ch).Go?
    ensures NullUnlessRun(Step(w, c, pc, ch).w, Step(w, c, pc, ch).pc)
  {
  }

  lemma NextKeepsNull(s: State, s': State)
    requires NullInv(s) && Next(s, s')
    ensures NullInv(s')
  {
    var e :| Enabled(s, e) && s' == Apply(s, e);
    if e.Advance? {
      NullKept(s.w, e.c, s.calls[e.c], e.ch);
      if s'.w.runs != s.w.runs {
        RunsChangeOnlyInExecute(s.w, e.c, s.calls[e.c], e.ch);
      }
    }
    forall d | d in s'.calls ensures NullUnlessRun(s'.w, s'.calls[d]) {
      if d != e.c {
        assert NullUnlessRun(s.w, s.calls[d]);
      }
    }
  }

  lemma {:induction false} RunNull(tr: seq<State>, i: nat)
    requires Run(tr) && i < |tr|
    ensures NullInv(tr[i])
  {
    if i > 0 {
      RunNull(tr, i - 1);
      assert NextAt(tr, i - 1);
      NextKeepsNull(tr[i - 1], tr[i]);
    }
  }

  lemma StepMoves(w: World, c: CallId, pc: Pc, ch: Choice, m: Move)
    requires TablesInv(w) && CallInv(w, c, pc) && NullUnlessRun(w, pc) && m == Step(w, c, pc, ch) && m.Go?
    ensures Simulated(w, m.w)
  {
    if m == OpenStep(w, c, pc, ch) {
      OpenMoves(w, c, pc, ch, m);
    } else if m == DecideStep(w, c, pc, ch) {
      DecideStepMoves(w, c, pc, ch, m);
    } else {
      ResumeMoves(w, c, pc, ch);
    }
  }

  /** Forward simulation: every event of every run is one step of one cell, or a stutter of all. */
  lemma EveryEventIsACellStep(tr: seq<State>, i: nat)
    requires Run(tr) && i + 1 < |tr|
    ensures Simulated(tr[i].w, tr[i + 1].w)
  {
    RunInv(tr, i);
    RunNull(tr, i);
    var s, s' := tr[i], tr[i + 1];
    assert NextAt(tr, i);
    var e :| Enabled(s, e) && s' == Apply(s, e);
    if e.Advance? {
      StepMoves(s.w, e.c, s.calls[e.c], e.ch, Step(s.w, e.c, s.calls[e.c], e.ch));
    } else {
      NoCellMoves(s.w, s'.w);
    }
  }

  function Rank(c: Cell): nat {
    match c
    case Unopened => 0
    case Waiting => 1
    case Taken => 2
    case Started => 3
    case Done(_) => 4
    case Refused => 5
  }

  /** So over any run a cell only moves forward; Refused and Done(r) are final; and a refused key
      was never executed. */
  lemma {:induction false} CellsOnlyMoveForward(tr: seq<State>, i: nat, j: nat, k: Key)
    requires Run(tr) && i <= j < |tr|
    ensures Rank(CellOf(tr[i].w, k)) <= Rank(CellOf(tr[j].w, k))
    ensures CellOf(tr[i].w, k).Refused? || CellOf(tr[i].w, k).Done? ==>
      CellOf(tr[j].w, k) == CellOf(tr[i].w, k) && tr[j].w.runs[k] == tr[i].w.runs[k]
    ensures CellOf(tr[i].w, k).Taken? || CellOf(tr[i].w, k).Started? ==> !CellOf(tr[j].w, k).Refused?
    ensures CellOf(tr[j].w, k).Refused? ==> tr[j].w.runs[k] == 0
  {
    if i < j {
      CellsOnlyMoveForward(tr, i, j - 1, k);
      CellForward(tr, j - 1, k);
    }
    RefusedNotRun(tr, j, k);
  }

  lemma RefusedNotRun(tr: seq<State>, j: nat, k: Key)
    requires Run(tr) && j < |tr|
    ensures CellOf(tr[j].w, k).Refused? ==> tr[j].w.runs[k] == 0
  {
    RunKeyInv(tr, j, k);
  }

  lemma SimulatedCell(w: World, w': World, k: Key)
    requires Simulated(w, w')
    ensures CellStep(CellOf(w, k), CellOf(w', k), Effects(w, w', k))
  {
    var key :| OneCellMoves(w, w', key);
    assert k != key ==> SameCell(w, w', k);
  }

  lemma CellForward(tr: seq<State>, i: nat, k: Key)
    requires Run(tr) && i + 1 < |tr|
    ensures CellStep(CellOf(tr[i].w, k), CellOf(tr[i + 1].w, k), Effects(tr[i].w, tr[i + 1].w, k))
  {
    EveryEventIsACellStep(tr, i);
    SimulatedCell(tr[i].w, tr[i + 1].w, k);
  }
}
