/** Approvals of memory proposals, commit by commit: any number of calls at once, each of which may
    stop for good between any two steps, beside whatever the approval protocol does to the rows. */
module MemoryRuns {
  import opened Core
  import opened PassStore
  import opened Memory
  import Protocol
  import ProtocolRuns
  import ProtocolInvariant

  type CallId = nat

  /** A call of `decide_memory` from the point where it holds the APPROVED row. */
  datatype Pc =
    | Reading(pid: ProposalId, row: Proposal)                         // get_effect
    | Answering(pid: ProposalId, row: Proposal)                       // cached_result
    | Applying(pid: ProposalId, row: Proposal)                        // apply_payload
    | Finding(pid: ProposalId, row: Proposal, result: ApplyResult)    // complete: SELECT
    | Writing(pid: ProposalId, row: Proposal, result: ApplyResult)    // complete: UPDATE
    | Confirming(pid: ProposalId, row: Proposal, result: ApplyResult) // complete: read back
    | Reported(pid: ProposalId, applied: bool, note: Note)
    | Stopped(pid: ProposalId)                                        // raised or crashed

  /** A call and the proposal it applied, as a completed record tells of them. */
  datatype Note = Note(call: CallId, pid: ProposalId)

  /** The protocol with its tables and calls, the corpus, and the effect rows of memory writes; and
      who applied which proposal, how often, and who wrote which record last. */
  datatype World = World(p: ProtocolRuns.State, corpus: Corpus, effects: map<Key, EffectRow>,
                         successes: multiset<ProposalId>, applier: map<ProposalId, CallId>, writer: map<Key, Note>)

  datatype State = State(w: World, calls: map<CallId, Pc>)

  const InitialState := State(World(ProtocolRuns.InitialState, map[], map[], multiset{}, map[], map[]), map[])

  function Rows(s: State): Proposals {
    s.w.p.w.proposals
  }

  /** The proposals whose payload `update_payload` has replaced. */
  function Rewritten(s: State): set<ProposalId> {
    s.w.p.w.rewritten
  }

  datatype Event =
    | RowsMove(next: ProtocolRuns.State)                // any event of the approval protocol
    | Reserve(key: Key)                                 // propose_model_write: reserve, and later bind
    | Bind(key: Key, pid: ProposalId)
    | UserWrite(payload: Payload, editor: Editor)
    | Start(c: CallId, pid: ProposalId)
    | Advance(c: CallId, editor: Editor)
    | Crash(c: CallId)

  predicate Over(pc: Pc) {
    pc.Reported? || pc.Stopped?
  }

  ghost predicate Enabled(s: State, e: Event) {
    match e
    case RowsMove(next) => ProtocolRuns.Next(s.w.p, next)
    case Reserve(key) => key !in s.w.effects
    case Bind(key, _) => key in s.w.effects
    case UserWrite(_, _) => true
    case Start(c, pid) =>
      c !in s.calls && pid in Rows(s) && Rows(s)[pid].status == Approved && Rows(s)[pid].kind == MemoryKind
    case Advance(c, _) => c in s.calls && !Over(s.calls[c])
    case Crash(c) => c in s.calls && !Over(s.calls[c])
  }

  function Happen(s: State, e: Event): State
    requires Enabled(s, e)
  {
    match e
    case RowsMove(next) => s.(w := s.w.(p := next))
    case Reserve(key) => s.(w := s.w.(effects := s.w.effects[key := Reserved("")]))
    case Bind(key, pid) => s.(w := s.w.(effects := s.w.effects[key := s.w.effects[key].(proposal := pid)]))
    case UserWrite(payload, editor) =>
      (match Applied(s.w.corpus, payload, editor)
       case Err(_) => s
       case Ok((after, _)) => s.(w := s.w.(corpus := after)))
    case Start(c, pid) => s.(calls := s.calls[c := Reading(pid, Rows(s)[pid])])
    case Advance(c, editor) =>
      var m := Step(s.w, c, s.calls[c], editor);
      State(m.w, s.calls[c := m.pc])
    case Crash(c) => s.(calls := s.calls[c := Stopped(s.calls[c].pid)])
  }

  datatype Move = Go(w: World, pc: Pc)

  function Step(w: World, c: CallId, pc: Pc, editor: Editor): Move
    requires !Over(pc)
  {
    match pc
    case Reading(pid, row) =>
      Go(w, if HasRecord(w.effects, IdempotencyKey(row.payload)) then Answering(pid, row) else Applying(pid, row))
    case Answering(pid, row) =>
      var key := IdempotencyKey(row.payload);
      Go(w, if HasRecord(w.effects, key) && key in w.writer then Reported(pid, w.effects[key].result.ok, w.writer[key])
            else Stopped(pid))
    case Applying(pid, row) => ApplyStep(w, c, pid, row, editor)
    case Finding(pid, row, result) =>
      Go(w, if IdempotencyKey(row.payload) in w.effects then Writing(pid, row, result) else Stopped(pid))
    case Writing(pid, row, result) => WriteStep(w, c, pid, row, result)
    case Confirming(pid, row, result) => Go(w, Reported(pid, result.ok, Note(c, pid)))
  }

  function ApplyStep(w: World, c: CallId, pid: ProposalId, row: Proposal, editor: Editor): Move {
    match Applied(w.corpus, row.payload, editor)
    case Err(_) => Go(w, Stopped(pid))
    case Ok((after, result)) =>
      Go(if result.ok then WithSuccess(w, c, pid, after) else w,
         if IdempotencyKey(row.payload) == "" then Reported(pid, result.ok, Note(c, pid))
         else Finding(pid, row, result))
  }

  function WithSuccess(w: World, c: CallId, pid: ProposalId, after: Corpus): World {
    w.(corpus := after, successes := w.successes + multiset{pid}, applier := w.applier[pid := c])
  }

  /** UPDATE side_effects SET status='completed', result=? WHERE idempotency_key=? */
  function WriteStep(w: World, c: CallId, pid: ProposalId, row: Proposal, result: ApplyResult): Move {
    var key := IdempotencyKey(row.payload);
    Go(if key in w.effects then WithNote(w, key, Completed(w.effects[key].proposal, result), Note(c, pid)) else w,
       Confirming(pid, row, result))
  }

  function WithNote(w: World, key: Key, record: EffectRow, note: Note): World {
    w.(effects := w.effects[key := record], writer := w.writer[key := note])
  }

  ghost predicate Next(s: State, s': State) {
    exists e :: Enabled(s, e) && s' == Happen(s, e)
  }

  ghost predicate NextAt(tr: seq<State>, i: int) {
    0 <= i < |tr| - 1 ==> Next(tr[i], tr[i + 1])
  }

  ghost predicate Run(tr: seq<State>) {
    tr != [] && tr[0] == InitialState && forall i :: NextAt(tr, i)
  }

  // ---------------------------------------------------------------- the invariant

  /** The call applied the proposal. */
  predicate AppliedBy(s: State, n: Note) {
    n.pid in s.w.applier && s.w.applier[n.pid] == n.call
  }

  predicate BeforeApply(pc: Pc) {
    pc.Reading? || pc.Answering? || pc.Applying?
  }

  /** The call is there, about that proposal, and will not apply it any more. */
  predicate Past(s: State, n: Note) {
    n.call in s.calls && s.calls[n.call].pid == n.pid && !BeforeApply(s.calls[n.call])
  }

  ghost predicate Held(s: State, pid: ProposalId, row: Proposal) {
    pid in Rows(s) && Rows(s)[pid].status == Approved && (pid !in Rewritten(s) ==> Rows(s)[pid] == row)
  }

  /** The slot that a payload writes to has left the revision that it names. */
  predicate MovedOn(corpus: Corpus, p: Payload) {
    && LocationOf(p).Some? && ExpectedRevision(p).Ok? && ExpectedRevision(p).value.Some?
    && Revision(corpus, LocationOf(p).value) > ExpectedRevision(p).value.value
  }

  ghost predicate SuccessInv(s: State, pid: ProposalId) {
    && (pid in s.w.applier ==> Past(s, Note(s.w.applier[pid], pid)))
    && (pid !in Rewritten(s) ==>
          && s.w.successes[pid] <= 1 && (pid in s.w.successes <==> pid in s.w.applier)
          && (pid in s.w.applier ==>
                pid in Rows(s) && Rows(s)[pid].status == Approved && MovedOn(s.w.corpus, Rows(s)[pid].payload)))
  }

  /** What is said about an apply is true of the call that is said to have made it. */
  ghost predicate TrueOf(s: State, n: Note, ok: bool) {
    n.pid !in Rewritten(s) ==> Past(s, n) && (ok <==> AppliedBy(s, n))
  }

  ghost predicate RecordInv(s: State, k: Key) {
    k in s.w.effects && s.w.effects[k].Completed? ==>
      && k != "" && k in s.w.writer && TrueOf(s, s.w.writer[k], s.w.effects[k].result.ok)
      && (s.w.writer[k].pid !in Rewritten(s) ==>
            && s.w.writer[k].pid in Rows(s) && Rows(s)[s.w.writer[k].pid].status == Approved
            && IdempotencyKey(Rows(s)[s.w.writer[k].pid].payload) == k)
  }

  ghost predicate CallInv(s: State, c: CallId) {
    c in s.calls ==>
      match s.calls[c]
      case Finding(pid, row, result) => Held(s, pid, row) && TrueOf(s, Note(c, pid), result.ok) && Keyed(row)
      case Writing(pid, row, result) => Held(s, pid, row) && TrueOf(s, Note(c, pid), result.ok) && Keyed(row)
      case Confirming(pid, row, result) => Held(s, pid, row) && TrueOf(s, Note(c, pid), result.ok) && Keyed(row)
      case Reported(pid, applied, note) => TrueOf(s, note, applied)
      case Stopped(_) => true
      case pc => Held(s, pc.pid, pc.row) && !AppliedBy(s, Note(c, pc.pid))
  }

  predicate Keyed(row: Proposal) {
    IdempotencyKey(row.payload) != ""
  }

  ghost predicate MemoryInv(s: State) {
    && (forall pid :: SuccessInv(s, pid))
    && (forall k :: RecordInv(s, k))
    && (forall c :: CallInv(s, c))
  }

  ghost predicate Inv(s: State) {
    ProtocolRuns.Inv(s.w.p) && MemoryInv(s)
  }

  // ---------------------------------------------------------------- every event keeps it

  /** What an event of call `d` leaves alone; no call is behind an event of -1. */
  ghost predicate Grows(s: State, s': State, d: int) {
    && Rewritten(s) <= Rewritten(s')
    && (forall pid :: pid in Rows(s) && Rows(s)[pid].status == Approved ==> Held(s', pid, Rows(s)[pid]))
    && (forall n :: Past(s, n) ==> Past(s', n))
    && (forall pid :: pid in s.w.applier ==>
          pid in s'.w.applier && (pid !in Rewritten(s') ==> s'.w.applier[pid] == s.w.applier[pid]))
    && (forall pid :: pid in s'.w.applier && !(pid in s.w.applier && s'.w.applier[pid] == s.w.applier[pid]) ==>
          s'.w.applier[pid] == d && (d >= 0 ==> !Past(s, Note(d, pid))))
    && (forall l :: Revision(s.w.corpus, l) <= Revision(s'.w.corpus, l))
  }

  lemma TrueStays(s: State, s': State, d: int, n: Note, ok: bool)
    requires Grows(s, s', d) && TrueOf(s, n, ok)
    ensures TrueOf(s', n, ok)
  {
  }

  lemma HeldStays(s: State, s': State, d: int, pid: ProposalId, row: Proposal)
    requires Grows(s, s', d) && Held(s, pid, row)
    ensures Held(s', pid, row)
  {
  }

  lemma CallStays(s: State, s': State, d: int, c: CallId)
    requires Grows(s, s', d) && CallInv(s, c) && c != d
    requires c in s'.calls ==> c in s.calls && s'.calls[c] == s.calls[c]
    ensures CallInv(s', c)
  {
    if c in s'.calls {
      var pc := s.calls[c];
      hide Grows, Held, TrueOf, Keyed;
      if pc.Finding? || pc.Writing? || pc.Confirming? {
        HeldStays(s, s', d, pc.pid, pc.row);
        TrueStays(s, s', d, Note(c, pc.pid), pc.result.ok);
      } else if pc.Reported? {
        TrueStays(s, s', d, pc.note, pc.applied);
      } else if !pc.Stopped? {
        HeldStays(s, s', d, pc.pid, pc.row);
        OthersApply(s, s', d, Note(c, pc.pid));
      }
    }
  }

  lemma OthersApply(s: State, s': State, d: int, n: Note)
    requires Grows(s, s', d) && !AppliedBy(s, n) && n.call != d
    ensures !AppliedBy(s', n)
  {
  }

  lemma SuccessStays(s: State, s': State, d: int, pid: ProposalId)
    requires Grows(s, s', d) && SuccessInv(s, pid)
    requires s'.w.successes[pid] == s.w.successes[pid]
    requires pid in s'.w.applier ==> pid in s.w.applier && s'.w.applier[pid] == s.w.applier[pid]
    ensures SuccessInv(s', pid)
  {
    hide LocationOf, ExpectedRevision;
    if pid in s.w.applier {
      assert Past(s', Note(s.w.applier[pid], pid));
      assert pid !in Rewritten(s') ==> Held(s', pid, Rows(s)[pid]);
    }
  }

  lemma RecordStays(s: State, s': State, d: int, k: Key)
    requires Grows(s, s', d) && RecordInv(s, k)
    requires k in s'.w.effects && s'.w.effects[k].Completed? ==>
      && k in s.w.effects && s.w.effects[k].Completed? && s'.w.effects[k].result == s.w.effects[k].result
      && k in s.w.writer && k in s'.w.writer && s'.w.writer[k] == s.w.writer[k]
    ensures RecordInv(s', k)
  {
    hide IdempotencyKey;
    if k in s'.w.effects && s'.w.effects[k].Completed? {
      TrueStays(s, s', d, s.w.writer[k], s.w.effects[k].result.ok);
    }
  }

  /** An event that neither applies nor writes. */
  lemma QuietKeeps(s: State, s': State, d: int)
    requires MemoryInv(s) && Grows(s, s', d) && (d >= 0 ==> CallInv(s', d))
    requires s'.w.successes == s.w.successes && s'.w.applier == s.w.applier && s'.w.writer == s.w.writer
    requires forall k :: k in s'.w.effects && s'.w.effects[k].Completed? ==>
      k in s.w.effects && s.w.effects[k].Completed? && s'.w.effects[k].result == s.w.effects[k].result
    requires forall c :: c != d && c in s'.calls ==> c in s.calls && s'.calls[c] == s.calls[c]
    ensures MemoryInv(s')
  {
    hide Grows, SuccessInv, RecordInv, CallInv;
    forall pid ensures SuccessInv(s', pid) { SuccessStays(s, s', d, pid); }
    forall k ensures RecordInv(s', k) {
      assert RecordInv(s, k);
      if k in s'.w.effects && s'.w.effects[k].Completed? { WriterIsThere(s, k); }
      RecordStays(s, s', d, k);
    }
    forall c ensures CallInv(s', c) {
      if c != d { CallStays(s, s', d, c); }
    }
  }

  lemma WriterIsThere(s: State, k: Key)
    requires RecordInv(s, k) && k in s.w.effects && s.w.effects[k].Completed?
    ensures k in s.w.writer
  {
  }

  /** An event of the approval protocol: approved rows stay, but for what `update_payload` replaces. */
  lemma RowsMoveKeeps(s: State, next: ProtocolRuns.State)
    requires Inv(s) && ProtocolRuns.Next(s.w.p, next)
    ensures Inv(s.(w := s.w.(p := next))) && Grows(s, s.(w := s.w.(p := next)), -1)
  {
    var s' := s.(w := s.w.(p := next));
    var c := ProtocolRuns.NextKeeps(s.w.p, next);
    hide ProtocolRuns.Inv, MemoryInv, ProtocolRuns.Next;
    forall pid
      ensures pid in Rows(s) && Rows(s)[pid].status == Approved ==> Held(s', pid, Rows(s)[pid])
      ensures pid in Rewritten(s) ==> pid in Rewritten(s')
    {
      assert ProtocolInvariant.ProposalGuarantee(s.w.p.w, next.w, c, pid);
    }
    QuietKeeps(s, s', -1);
  }

  /** New reservations and bindings. */
  lemma EffectsKeep(s: State, effects: map<Key, EffectRow>)
    requires MemoryInv(s)
    requires forall k :: k in effects && effects[k].Completed? ==>
      k in s.w.effects && s.w.effects[k].Completed? && effects[k].result == s.w.effects[k].result
    ensures MemoryInv(s.(w := s.w.(effects := effects))) && Grows(s, s.(w := s.w.(effects := effects)), -1)
  {
    QuietKeeps(s, s.(w := s.w.(effects := effects)), -1);
  }

  lemma UserWriteKeeps(s: State, payload: Payload, editor: Editor)
    requires MemoryInv(s) && Applied(s.w.corpus, payload, editor).Ok?
    ensures var s' := s.(w := s.w.(corpus := Applied(s.w.corpus, payload, editor).value.0));
      MemoryInv(s') && Grows(s, s', -1)
  {
    hide MemoryInv;
    CorpusGrows(s.w.corpus, payload, editor);
    QuietKeeps(s, s.(w := s.w.(corpus := Applied(s.w.corpus, payload, editor).value.0)), -1);
  }

  lemma CorpusGrows(corpus: Corpus, payload: Payload, editor: Editor)
    requires Applied(corpus, payload, editor).Ok?
    ensures forall l :: Revision(corpus, l) <= Revision(Applied(corpus, payload, editor).value.0, l)
  {
    hide Applied;
    AppliedMeaning(corpus, payload, editor);
  }

  function Goes(s: State, c: CallId, pc: Pc): State {
    s.(calls := s.calls[c := pc])
  }

  /** A call that only moves on. */
  lemma GoesKeeps(s: State, c: CallId, pc: Pc)
    requires MemoryInv(s) && (c in s.calls ==> s.calls[c].pid == pc.pid)
    requires c in s.calls && !BeforeApply(s.calls[c]) ==> !BeforeApply(pc)
    requires CallInv(Goes(s, c, pc), c)
    ensures MemoryInv(Goes(s, c, pc)) && Grows(s, Goes(s, c, pc), c)
  {
    hide MemoryInv, CallInv;
    QuietKeeps(s, Goes(s, c, pc), c);
  }

  lemma StartKeeps(s: State, c: CallId, pid: ProposalId)
    requires MemoryInv(s) && Enabled(s, Start(c, pid))
    ensures MemoryInv(Happen(s, Start(c, pid))) && Grows(s, Happen(s, Start(c, pid)), c)
  {
    assert SuccessInv(s, pid);
    GoesKeeps(s, c, Reading(pid, Rows(s)[pid]));
  }

  function Advanced(s: State, c: CallId, editor: Editor): State
    requires c in s.calls && !Over(s.calls[c])
  {
    var m := Step(s.w, c, s.calls[c], editor);
    State(m.w, s.calls[c := m.pc])
  }

  /** The reads of a call. */
  lemma ReadsKeep(s: State, c: CallId, editor: Editor)
    requires MemoryInv(s) && c in s.calls && !Over(s.calls[c]) && !s.calls[c].Applying? && !s.calls[c].Writing?
    ensures MemoryInv(Advanced(s, c, editor)) && Grows(s, Advanced(s, c, editor), c)
  {
    hide MemoryInv, Held, IdempotencyKey, Grows;
    var pc := s.calls[c];
    AllOf(s, c, pc.pid, "");
    if pc.Answering? {
      AllOf(s, c, pc.pid, IdempotencyKey(pc.row.payload));
    }
    var next := Step(s.w, c, pc, editor).pc;
    SameButCall(s, Goes(s, c, next));
    GoesKeeps(s, c, next);
  }

  lemma AllOf(s: State, c: CallId, pid: ProposalId, k: Key)
    requires MemoryInv(s)
    ensures CallInv(s, c) && SuccessInv(s, pid) && RecordInv(s, k)
  {
  }

  /** `TrueOf` and `Held` look at a call's own state only through who is past its apply. */
  lemma SameButCall(s: State, s': State)
    requires s'.w == s.w
    ensures forall pid, row :: Held(s, pid, row) ==> Held(s', pid, row)
    ensures forall n :: AppliedBy(s, n) <==> AppliedBy(s', n)
  {
  }

  lemma NotAppliedYet(s: State, c: CallId, pid: ProposalId, row: Proposal, editor: Editor)
    requires CallInv(s, c) && SuccessInv(s, pid) && c in s.calls && s.calls[c] == Applying(pid, row)
    requires Applied(s.w.corpus, row.payload, editor).Ok? && Applied(s.w.corpus, row.payload, editor).value.1.ok
    ensures pid !in Rewritten(s) ==> pid !in s.w.applier && pid !in s.w.successes
  {
    hide LocationOf, ExpectedRevision;
  }

  lemma SuccessKeeps(s: State, c: CallId, pid: ProposalId, row: Proposal, after: Corpus, pc: Pc)
    requires MemoryInv(s) && c in s.calls && s.calls[c] == Applying(pid, row) && CallInv(s, c)
    requires pid !in Rewritten(s) ==> pid !in s.w.applier && pid !in s.w.successes
    requires MovedOn(after, row.payload) && forall l :: Revision(s.w.corpus, l) <= Revision(after, l)
    requires pc.pid == pid && !BeforeApply(pc)
    ensures var s' := State(WithSuccess(s.w, c, pid, after), s.calls[c := pc]);
      Grows(s, s', c) && (CallInv(s', c) ==> MemoryInv(s'))
  {
    hide LocationOf, ExpectedRevision, MovedOn, MemoryInv, RecordInv, CallInv;
    var s' := State(WithSuccess(s.w, c, pid, after), s.calls[c := pc]);
    HeldByCall(s, c);
    assert Grows(s, s', c);
    hide Grows;
    forall q ensures SuccessInv(s', q) {
      AllOf(s, c, q, "");
      if q != pid { SuccessStays(s, s', c, q); }
    }
    forall k ensures RecordInv(s', k) {
      AllOf(s, c, pid, k);
      if k in s.w.effects && s.w.effects[k].Completed? { WriterIsThere(s, k); }
      RecordStays(s, s', c, k);
    }
    forall d ensures d != c ==> CallInv(s', d) {
      AllOf(s, d, pid, "");
      if d != c { CallStays(s, s', c, d); }
    }
    if CallInv(s', c) { AllThere(s'); }
  }

  lemma HeldByCall(s: State, c: CallId)
    requires CallInv(s, c) && c in s.calls && s.calls[c].Applying?
    ensures Held(s, s.calls[c].pid, s.calls[c].row)
  {
  }

  lemma AllThere(s: State)
    requires (forall pid :: SuccessInv(s, pid)) && (forall k :: RecordInv(s, k)) && (forall c :: CallInv(s, c))
    ensures MemoryInv(s)
  {
  }

  /** The apply: a second success of one proposal is impossible, since its slot has moved on. */
  lemma ApplyKeeps(s: State, c: CallId, editor: Editor)
    requires MemoryInv(s) && c in s.calls && s.calls[c].Applying?
    ensures MemoryInv(Advanced(s, c, editor)) && Grows(s, Advanced(s, c, editor), c)
  {
    hide MemoryInv, Applied, IdempotencyKey, LocationOf, ExpectedRevision;
    var pid, row := s.calls[c].pid, s.calls[c].row;
    AllOf(s, c, pid, "");
    var s' := Advanced(s, c, editor);
    if Applied(s.w.corpus, row.payload, editor).Err? {
      GoesKeeps(s, c, Stopped(pid));
    } else {
      var result := Applied(s.w.corpus, row.payload, editor).value.1;
      AppliedMeaning(s.w.corpus, row.payload, editor);
      CorpusGrows(s.w.corpus, row.payload, editor);
      if !result.ok {
        GoesKeeps(s, c, s'.calls[c]);
      } else {
        var after := Applied(s.w.corpus, row.payload, editor).value.0;
        NotAppliedYet(s, c, pid, row, editor);
        SuccessKeeps(s, c, pid, row, after, s'.calls[c]);
      }
    }
  }

  /** The record: it tells of the call that writes it. */
  lemma WriteKeeps(s: State, c: CallId, editor: Editor)
    requires MemoryInv(s) && c in s.calls && s.calls[c].Writing?
    ensures MemoryInv(Advanced(s, c, editor)) && Grows(s, Advanced(s, c, editor), c)
  {
    hide MemoryInv, Applied, IdempotencyKey, LocationOf, ExpectedRevision, SuccessInv;
    var pc := s.calls[c];
    var key := IdempotencyKey(pc.row.payload);
    var s' := Advanced(s, c, editor);
    AllOf(s, c, pc.pid, key);
    assert Grows(s, s', c);
    forall k ensures RecordInv(s', k) {
      AllOf(s, c, pc.pid, k);
      if k != key || key !in s.w.effects {
        RecordStays(s, s', c, k);
      }
    }
    hide Grows, RecordInv, CallInv;
    forall q ensures SuccessInv(s', q) {
      AllOf(s, c, q, "");
      SuccessStays(s, s', c, q);
    }
    forall d ensures CallInv(s', d) {
      AllOf(s, d, pc.pid, "");
      if d != c { CallStays(s, s', c, d); }
    }
    AllThere(s');
  }

  lemma AdvanceKeeps(s: State, c: CallId, editor: Editor)
    requires MemoryInv(s) && c in s.calls && !Over(s.calls[c])
    ensures MemoryInv(Advanced(s, c, editor)) && Grows(s, Advanced(s, c, editor), c)
  {
    hide MemoryInv, Grows, Step;
    if s.calls[c].Applying? { ApplyKeeps(s, c, editor); }
    else if s.calls[c].Writing? { WriteKeeps(s, c, editor); }
    else { ReadsKeep(s, c, editor); }
  }

  lemma SameRows(w: World, c: CallId, pc: Pc, editor: Editor)
    requires !Over(pc)
    ensures Step(w, c, pc, editor).w.p == w.p
  {
    hide Applied, IdempotencyKey;
  }

  predicate InFlightPc(pc: Pc) {
    pc.Applying? || pc.Finding? || pc.Writing?
  }

  /** Every event keeps the invariant and leaves alone what other calls rely on. */
  lemma NextKeeps(s: State, s': State) returns (d: int)
    requires Inv(s) && Next(s, s')
    ensures Inv(s') && Grows(s, s', d)
  {
    hide MemoryInv, Grows, ProtocolRuns.Inv, ProtocolRuns.Next, Applied, Step;
    var e :| Enabled(s, e) && s' == Happen(s, e);
    match e
    case RowsMove(next) => RowsMoveKeeps(s, next); d := -1;
    case Reserve(key) => EffectsKeep(s, s'.w.effects); d := -1;
    case Bind(key, pid) => EffectsKeep(s, s'.w.effects); d := -1;
    case UserWrite(payload, editor) =>
      if Applied(s.w.corpus, payload, editor).Ok? {
        UserWriteKeeps(s, payload, editor);
      } else {
        EffectsKeep(s, s.w.effects);
      }
      d := -1;
    case Start(c, pid) => StartKeeps(s, c, pid); d := c;
    case Advance(c, editor) =>
      SameRows(s.w, c, s.calls[c], editor);
      AdvanceKeeps(s, c, editor);
      d := c;
    case Crash(c) => GoesKeeps(s, c, Stopped(s.calls[c].pid)); d := c;
  }

  lemma InitialInv()
    ensures Inv(InitialState)
  {
  }

  lemma {:induction false} RunInv(tr: seq<State>, i: nat)
    requires Run(tr) && i < |tr|
    ensures Inv(tr[i])
  {
    hide MemoryInv, ProtocolRuns.Inv, Next, InitialState;
    InitialInv();
    if i > 0 {
      RunInv(tr, i - 1);
      assert NextAt(tr, i - 1);
      var _ := NextKeeps(tr[i - 1], tr[i]);
    }
  }

  // ---------------------------------------------------------------- theorems over all runs

  /** Over every run, with calls overlapping and stopping anywhere, an approved proposal is applied
      successfully at most once, unless `update_payload` gave it another payload. */
  lemma AppliedAtMostOnce(tr: seq<State>, i: nat, pid: ProposalId)
    requires Run(tr) && i < |tr| && pid !in Rewritten(tr[i])
    ensures tr[i].w.successes[pid] <= 1
    ensures pid in tr[i].w.successes ==> pid in Rows(tr[i]) && Rows(tr[i])[pid].status == Approved
  {
    RunInv(tr, i);
    assert SuccessInv(tr[i], pid);
  }

  /** What a call reports is true of the call it tells of: its own apply, or that of the call whose
      record it was answered from. */
  lemma ReportsAreTrue(tr: seq<State>, i: nat, c: CallId)
    requires Run(tr) && i < |tr| && c in tr[i].calls && tr[i].calls[c].Reported?
    requires tr[i].calls[c].note.pid !in Rewritten(tr[i])
    ensures tr[i].calls[c].applied <==> AppliedBy(tr[i], tr[i].calls[c].note)
    ensures tr[i].calls[c].applied ==> tr[i].calls[c].note.pid in tr[i].w.successes
  {
    RunInv(tr, i);
    assert CallInv(tr[i], c) && SuccessInv(tr[i], tr[i].calls[c].note.pid);
  }

  /** At most one call reports that it applied the proposal itself. */
  lemma OneReportsItsApply(tr: seq<State>, i: nat, pid: ProposalId, c: CallId, d: CallId)
    requires Run(tr) && i < |tr| && c in tr[i].calls && d in tr[i].calls && pid !in Rewritten(tr[i])
    requires tr[i].calls[c] == Reported(pid, true, Note(c, pid)) && tr[i].calls[d] == Reported(pid, true, Note(d, pid))
    ensures c == d
  {
    ReportsAreTrue(tr, i, c);
    ReportsAreTrue(tr, i, d);
  }

  /** A completed record tells of the call that wrote it last: it says ok exactly if that call made
      the apply. So it is true of the proposal exactly if no other call made it. */
  lemma RecordTellsOfItsWriter(tr: seq<State>, i: nat, k: Key)
    requires Run(tr) && i < |tr| && HasRecord(tr[i].w.effects, k)
    ensures k in tr[i].w.writer
    ensures var ok, n := tr[i].w.effects[k].result.ok, tr[i].w.writer[k];
      n.pid !in Rewritten(tr[i]) ==>
        && n.pid in Rows(tr[i]) && IdempotencyKey(Rows(tr[i])[n.pid].payload) == k
        && (ok <==> AppliedBy(tr[i], n))
        && ((ok <==> n.pid in tr[i].w.successes) <==> (n.pid in tr[i].w.applier ==> tr[i].w.applier[n.pid] == n.call))
  {
    RunInv(tr, i);
    assert RecordInv(tr[i], k) && SuccessInv(tr[i], tr[i].w.writer[k].pid);
  }

  /** A call that did not find the record under `k` and may still write it. */
  predicate InFlight(s: State, c: CallId, k: Key) {
    c in s.calls && InFlightPc(s.calls[c])
    && IdempotencyKey(s.calls[c].row.payload) == k
  }

  ghost predicate NoneInFlight(s: State, k: Key) {
    forall c :: !InFlight(s, c, k)
  }

  lemma SettledStep(s: State, s': State, k: Key)
    requires Next(s, s') && HasRecord(s.w.effects, k) && NoneInFlight(s, k)
    ensures SettledSince(s, s', k)
  {
    hide IdempotencyKey, Applied, Step, ProtocolRuns.Next, Happen, NoneInFlight;
    var e :| Enabled(s, e) && s' == Happen(s, e);
    if e.Advance? {
      SettledByCall(s, e, k);
    } else {
      SettledElse(s, e, k);
    }
  }

  lemma SettledByCall(s: State, e: Event, k: Key)
    requires Enabled(s, e) && e.Advance? && HasRecord(s.w.effects, k) && NoneInFlight(s, k)
    ensures SettledSince(s, Happen(s, e), k)
  {
    hide IdempotencyKey, Applied, Step;
    assert !InFlight(s, e.c, k);
    SettledAdvance(s.w, e.c, s.calls[e.c], e.editor, k);
    forall c ensures !InFlight(Happen(s, e), c, k) {
      assert !InFlight(s, c, k);
    }
  }

  lemma SettledElse(s: State, e: Event, k: Key)
    requires Enabled(s, e) && !e.Advance? && HasRecord(s.w.effects, k) && NoneInFlight(s, k)
    ensures SettledSince(s, Happen(s, e), k)
  {
    hide IdempotencyKey, Applied, ProtocolRuns.Next;
    forall c ensures !InFlight(Happen(s, e), c, k) {
      assert !InFlight(s, c, k);
    }
  }

  ghost predicate SettledSince(s: State, s': State, k: Key) {
    && HasRecord(s'.w.effects, k) && HasRecord(s.w.effects, k) && s'.w.effects[k].result == s.w.effects[k].result
    && NoneInFlight(s', k)
    && (k in s'.w.writer <==> k in s.w.writer) && (k in s.w.writer ==> s'.w.writer[k] == s.w.writer[k])
  }

  lemma SettledAdvance(w: World, c: CallId, pc: Pc, editor: Editor, k: Key)
    requires !Over(pc) && HasRecord(w.effects, k)
    requires !(InFlightPc(pc) && IdempotencyKey(pc.row.payload) == k)
    ensures var m := Step(w, c, pc, editor);
      && HasRecord(m.w.effects, k) && m.w.effects[k].result == w.effects[k].result
      && !(InFlightPc(m.pc) && IdempotencyKey(m.pc.row.payload) == k)
      && (k in m.w.writer <==> k in w.writer) && (k in w.writer ==> m.w.writer[k] == w.writer[k])
  {
    hide IdempotencyKey, Applied;
  }

  /** Once a record is there and no call that missed it is still on its way, it never changes. */
  lemma {:induction false} RecordForever(tr: seq<State>, i: nat, j: nat, k: Key)
    requires Run(tr) && i <= j < |tr| && HasRecord(tr[i].w.effects, k) && NoneInFlight(tr[i], k)
    ensures HasRecord(tr[j].w.effects, k) && NoneInFlight(tr[j], k)
    ensures tr[j].w.effects[k].result == tr[i].w.effects[k].result
  {
    if i < j {
      RecordForever(tr, i, j - 1, k);
      assert NextAt(tr, j - 1);
      SettledStep(tr[j - 1], tr[j], k);
    }
  }

  // ---------------------------------------------------------------- runs in which the record is wrong

  lemma Extend(tr: seq<State>, e: Event) returns (tr': seq<State>)
    requires Run(tr) && Enabled(tr[|tr| - 1], e)
    ensures Run(tr') && |tr'| == |tr| + 1 && tr'[..|tr|] == tr
    ensures tr'[|tr|] == tr'[|tr'| - 1] == Happen(tr[|tr| - 1], e)
  {
    tr' := tr + [Happen(tr[|tr| - 1], e)];
    forall i ensures NextAt(tr', i) {
      assert NextAt(tr, i);
    }
  }

  /** The payload's revision has passed, so applying it is refused as stale. */
  lemma StaleThen(corpus: Corpus, p: Payload, editor: Editor, later: Corpus)
    requires Applied(corpus, p, editor).Ok? && MovedOn(later, p)
    ensures Applied(later, p, editor).Ok?
    ensures Applied(later, p, editor).value.0 == later && !Applied(later, p, editor).value.1.ok
  {
  }

  /** A call makes the apply and stops; whoever approves again records that nothing was applied. */
  lemma StoppedBeforeTheRecord(tr: seq<State>, a: CallId, b: CallId, editor: Editor) returns (tr': seq<State>)
    requires Run(tr) && var s := tr[|tr| - 1];
      && a in s.calls && s.calls[a].Applying? && b !in s.calls
      && var pid, row, key := s.calls[a].pid, s.calls[a].row, IdempotencyKey(s.calls[a].row.payload);
         && pid in Rows(s) && Rows(s)[pid] == row && row.kind == MemoryKind && row.status == Approved
         && key != "" && key in s.w.effects && s.w.effects[key].Reserved?
         && Applied(s.w.corpus, row.payload, editor).Ok? && Applied(s.w.corpus, row.payload, editor).value.1.ok
    ensures Run(tr') && |tr| < |tr'|
    ensures var s, s' := tr[|tr| - 1], tr'[|tr'| - 1]; var pid := s.calls[a].pid;
      && WronglyRecorded(s', pid, IdempotencyKey(s.calls[a].row.payload), b)
      && a in s'.calls && s'.calls[a] == Stopped(pid) && s'.w.p == s.w.p
  {
    hide Applied, IdempotencyKey, LocationOf, ExpectedRevision, NextAt;
    var s := tr[|tr| - 1];
    var row := s.calls[a].row;
    AppliedMeaning(s.w.corpus, row.payload, editor);
    StaleThen(s.w.corpus, row.payload, editor, Applied(s.w.corpus, row.payload, editor).value.0);
    tr' := Extend(tr, Advance(a, editor));
    tr' := Extend(tr', Crash(a));
    tr' := Extend(tr', Start(b, s.calls[a].pid));
    tr' := Extend(tr', Advance(b, editor));
    tr' := Recording(tr', b, editor);
  }

  /** The proposal was applied, its record says that it was not, and a call reports so. */
  ghost predicate WronglyRecorded(s: State, pid: ProposalId, key: Key, b: CallId) {
    && pid in s.w.successes && HasRecord(s.w.effects, key) && !s.w.effects[key].result.ok
    && b in s.calls && s.calls[b] == Reported(pid, false, Note(b, pid))
  }

  /** From its apply on, a call goes through to its report. */
  lemma Recording(tr: seq<State>, b: CallId, editor: Editor) returns (tr': seq<State>)
    requires Run(tr) && var s := tr[|tr| - 1];
      && b in s.calls && s.calls[b].Applying? && Applied(s.w.corpus, s.calls[b].row.payload, editor).Ok?
      && IdempotencyKey(s.calls[b].row.payload) != "" && IdempotencyKey(s.calls[b].row.payload) in s.w.effects
    ensures Run(tr') && |tr| < |tr'|
    ensures var s, s' := tr[|tr| - 1], tr'[|tr'| - 1];
      var pid, key := s.calls[b].pid, IdempotencyKey(s.calls[b].row.payload);
      var (after, result) := Applied(s.w.corpus, s.calls[b].row.payload, editor).value;
      && s'.w.effects == s.w.effects[key := Completed(s.w.effects[key].proposal, result)]
      && s'.calls == s.calls[b := Reported(pid, result.ok, Note(b, pid))]
      && s'.w.writer == s.w.writer[key := Note(b, pid)] && s'.w.p == s.w.p
      && (result.ok ==>
            && s'.w.corpus == after && s'.w.successes == s.w.successes + multiset{pid}
            && s'.w.applier == s.w.applier[pid := b])
      && (!result.ok ==> s'.w.corpus == s.w.corpus && s'.w.successes == s.w.successes && s'.w.applier == s.w.applier)
  {
    hide Applied, IdempotencyKey, Run;
    tr' := Extend(tr, Advance(b, editor));
    tr' := Extend(tr', Advance(b, editor));
    tr' := Extend(tr', Advance(b, editor));
    tr' := Extend(tr', Advance(b, editor));
  }

  /** Nobody stops: two calls both miss the record, and the stale one writes it last. */
  lemma OverlapLosesTheRecord(tr: seq<State>, a: CallId, b: CallId, editor: Editor) returns (tr': seq<State>)
    requires Run(tr) && a != b && var s := tr[|tr| - 1];
      && a in s.calls && s.calls[a].Applying? && b in s.calls && s.calls[b] == s.calls[a]
      && var row, key := s.calls[a].row, IdempotencyKey(s.calls[a].row.payload);
         && key != "" && key in s.w.effects
         && Applied(s.w.corpus, row.payload, editor).Ok? && Applied(s.w.corpus, row.payload, editor).value.1.ok
    ensures Run(tr') && |tr| < |tr'|
    ensures var s, s' := tr[|tr| - 1], tr'[|tr'| - 1]; var pid := s.calls[a].pid;
      && WronglyRecorded(s', pid, IdempotencyKey(s.calls[a].row.payload), b)
      && a in s'.calls && s'.calls[a] == Reported(pid, true, Note(a, pid)) && s'.w.p == s.w.p
  {
    hide Applied, IdempotencyKey, LocationOf, ExpectedRevision, NextAt;
    var s := tr[|tr| - 1];
    var row := s.calls[a].row;
    AppliedMeaning(s.w.corpus, row.payload, editor);
    StaleThen(s.w.corpus, row.payload, editor, Applied(s.w.corpus, row.payload, editor).value.0);
    tr' := Recording(tr, a, editor);
    tr' := Recording(tr', b, editor);
  }

  /** An event of the approval protocol, as one of this system. */
  lemma ExtendRows(tr: seq<State>, e: ProtocolRuns.Event) returns (tr': seq<State>)
    requires Run(tr) && ProtocolRuns.Enabled(tr[|tr| - 1].w.p, e)
    ensures Run(tr') && |tr'| > 0
    ensures var s := tr[|tr| - 1]; tr'[|tr'| - 1] == s.(w := s.w.(p := ProtocolRuns.Apply(s.w.p, e)))
  {
    hide NextAt;
    tr' := Extend(tr, RowsMove(ProtocolRuns.Apply(tr[|tr| - 1].w.p, e)));
  }

  /** A run after which one proposal is there, in the given status. */
  ghost predicate OneRow(tr: seq<State>, payload: Payload, key: Key, status: Status, calls: set<CallId>) {
    && Run(tr)
    && var s := tr[|tr| - 1]; var row := Proposal(MemoryKind, status, "memory.write", payload);
       && Rows(s) == map["p" := row] && Rewritten(s) == {} && s.w.p.calls.Keys == calls && s.calls == map[]
       && s.w.corpus == map[] && s.w.effects == map[key := Reserved("")] && s.w.successes == multiset{}
  }

  lemma Created(payload: Payload, key: Key) returns (tr: seq<State>)
    ensures OneRow(tr, payload, key, Pending, {0})
  {
    hide NextAt;
    tr := [InitialState];
    assert Run(tr) by { forall i ensures NextAt(tr, i) { OnlyOne(tr, i); } }
    tr := Extend(tr, Reserve(key));
    tr := ExtendRows(tr, ProtocolRuns.Start(0, Protocol.Create(MemoryKind, "memory.write", payload)));
    tr := ExtendRows(tr, ProtocolRuns.Advance(0, Protocol.Choice("p", None, None, None)));
  }

  lemma Waiting(payload: Payload, key: Key) returns (tr: seq<State>)
    ensures OneRow(tr, payload, key, Approved, {0, 1})
  {
    hide NextAt;
    var ch := Protocol.Choice("", None, None, None);
    tr := Created(payload, key);
    tr := ExtendRows(tr, ProtocolRuns.Start(1, Protocol.DecideSelect("p", Approve, Protocol.Stop)));
    tr := ExtendRows(tr, ProtocolRuns.Advance(1, ch));
    tr := ExtendRows(tr, ProtocolRuns.Advance(1, ch));
  }

  lemma OnlyOne(tr: seq<State>, i: int)
    requires |tr| == 1
    ensures NextAt(tr, i)
  {
  }

  /** Both ways to a wrong record do happen. */
  lemma RecordCanBeWrong(editor: Editor) returns (stopped: seq<State>, overlapped: seq<State>)
    requires forall l, t, q :: editor(l, t, q) == Some("text")
    ensures Run(stopped) && WronglyRecorded(stopped[|stopped| - 1], "p", "k", 1)
    ensures var s := stopped[|stopped| - 1]; 0 in s.calls && s.calls[0] == Stopped("p") && Rewritten(s) == {}
    ensures Run(overlapped) && WronglyRecorded(overlapped[|overlapped| - 1], "p", "k", 1)
    ensures var s := overlapped[|overlapped| - 1];
      0 in s.calls && s.calls[0] == Reported("p", true, Note(0, "p")) && Rewritten(s) == {}
  {
    hide Applied, IdempotencyKey, LocationOf, ExpectedRevision, NextAt, ModelPayload, WronglyRecorded;
    Applies(editor, "k");
    var payload := ModelPayload("json_memory", NOTE, map[]).value["idempotency_key" := Value("k")];
    var tr := Waiting(payload, "k");
    tr := Extend(tr, Start(0, "p"));
    tr := Extend(tr, Advance(0, editor));
    stopped := StoppedBeforeTheRecord(tr, 0, 1, editor);
    tr := Extend(tr, Start(1, "p"));
    tr := Extend(tr, Advance(1, editor));
    overlapped := OverlapLosesTheRecord(tr, 0, 1, editor);
  }

  /** The corpus, the records and the applies, as `Memory` keeps them. */
  function BooksOf(w: World): Books {
    Books(w.corpus, w.effects, w.successes, {}, map[])
  }

  ghost predicate SameBooks(w: World, b: Books) {
    w.corpus == b.corpus && w.effects == b.effects && w.successes == b.successes
  }

  /** One call on its own, at most `n` steps of it. */
  function Alone(w: World, c: CallId, pc: Pc, editor: Editor, n: nat): Move
    decreases n
  {
    if n == 0 || Over(pc) then Go(w, pc)
    else
      var m := Step(w, c, pc, editor);
      Alone(m.w, c, m.pc, editor, n - 1)
  }

  /** Without other calls in between, the steps of an approval amount to what `ApplyApproved` does. */
  lemma AloneItSettles(w: World, c: CallId, pid: ProposalId, row: Proposal, editor: Editor)
    requires HasRecord(w.effects, IdempotencyKey(row.payload)) ==> IdempotencyKey(row.payload) in w.writer
    ensures var m := Alone(w, c, Reading(pid, row), editor, 5);
      var (b, answer) := Settled(BooksOf(w), pid, row, editor, Never);
      && SameBooks(m.w, b)
      && m.pc == match answer
         case Err(_) => Stopped(pid)
         case Ok(d) =>
           Reported(pid, d.applied, if d.cached then w.writer[IdempotencyKey(row.payload)] else Note(c, pid))
  {
    hide Applied, IdempotencyKey, Alone;
    if HasRecord(w.effects, IdempotencyKey(row.payload)) {
      AnsweredAlone(w, c, pid, row, editor);
    } else {
      ToTheApply(w, c, pid, row, editor, 3);
      var m := Step(w, c, Applying(pid, row), editor);
      assert w.successes + multiset{} == w.successes;
      if Applied(w.corpus, row.payload, editor).Ok? {
        AppliedMeaning(w.corpus, row.payload, editor);
      }
      if m.pc.Finding? {
        FromTheApply(m.w, c, pid, row, m.pc.result, editor);
      } else {
        OverAlone(m.w, c, m.pc, editor, 3);
      }
    }
  }

  lemma ToTheApply(w: World, c: CallId, pid: ProposalId, row: Proposal, editor: Editor, n: nat)
    requires !HasRecord(w.effects, IdempotencyKey(row.payload))
    ensures var m := Step(w, c, Applying(pid, row), editor);
      Alone(w, c, Reading(pid, row), editor, n + 2) == Alone(m.w, c, m.pc, editor, n)
  {
    hide Applied, IdempotencyKey, ApplyStep;
  }

  lemma FromTheApply(w: World, c: CallId, pid: ProposalId, row: Proposal, result: ApplyResult, editor: Editor)
    ensures var key := IdempotencyKey(row.payload);
      Alone(w, c, Finding(pid, row, result), editor, 3) ==
        if key in w.effects then
          Go(WithNote(w, key, Completed(w.effects[key].proposal, result), Note(c, pid)),
             Reported(pid, result.ok, Note(c, pid)))
        else Go(w, Stopped(pid))
  {
    hide IdempotencyKey, ApplyStep;
  }

  lemma OverAlone(w: World, c: CallId, pc: Pc, editor: Editor, n: nat)
    requires n == 0 || Over(pc)
    ensures Alone(w, c, pc, editor, n) == Go(w, pc)
  {
  }

  lemma AnsweredAlone(w: World, c: CallId, pid: ProposalId, row: Proposal, editor: Editor)
    requires HasRecord(w.effects, IdempotencyKey(row.payload)) && IdempotencyKey(row.payload) in w.writer
    ensures var key := IdempotencyKey(row.payload);
      Alone(w, c, Reading(pid, row), editor, 5) ==
        Go(w, Reported(pid, w.effects[key].result.ok, w.writer[key]))
  {
    hide IdempotencyKey;
  }

  /** A call that stops right after its apply leaves what an interrupted `ApplyApproved` leaves. */
  lemma StoppedItSettles(w: World, c: CallId, pid: ProposalId, row: Proposal, editor: Editor)
    requires !HasRecord(w.effects, IdempotencyKey(row.payload))
    ensures var m := Alone(w, c, Reading(pid, row), editor, 2);
      SameBooks(m.w, Settled(BooksOf(w), pid, row, editor, AfterApply).0)
  {
    hide Applied, IdempotencyKey, Alone;
    var m := Step(w, c, Applying(pid, row), editor);
    ToTheApply(w, c, pid, row, editor, 0);
    OverAlone(m.w, c, m.pc, editor, 0);
    assert w.successes + multiset{} == w.successes;
    if Applied(w.corpus, row.payload, editor).Ok? {
      AppliedMeaning(w.corpus, row.payload, editor);
    }
  }
}
