/** The stores in their imperative form: one object holds the three tables, its methods are the
    functions of the program, and a ghost run records that everything they do is a run of the
    protocol, so that the theorems about runs hold of it. */
module Gateway {
  import opened Core
  import opened PassStore
  import opened Protocol
  import opened ProtocolInvariant
  import opened ProtocolRuns
  import ProtocolSteps

  datatype GatewayError =
    | KeyRequired
    | TokenRequired
    | KeyExists(key: Key)
    | NoCheckpoint(key: Key)
    | DuplicateRowId
    | ProposalMissing
    | NotApproved(status: Status)
    | ExecuteRaised
    | Pass(error: PassError)

  /** A decision token as the caller spells it, before it is checked against its payload. */
  datatype Token = ApproveToken | RejectToken | EditToken | ExpireToken

  /** The status of a tool proposal after the rules' verdict. */
  function Verdicted(auto: Option<Decision>): Status {
    if auto.Some? then StatusOf(auto.value) else Pending
  }

  /** What `resume` hands back. */
  datatype Resumption = Resumption(state: ResumeStatus, executed: bool, cached: bool, result: Option<Json>)

  /** The effect row that an opening works with: the one that is reserved already, or a new one. */
  function NewEffect(t: Effects, req: OpenRequest): Effect {
    if req.key in t then t[req.key] else Effect(req.token, req.volatile, Reserved, None, "", "")
  }

  lemma LooksForCheckpoint(w: World, c: CallId, req: OpenRequest)
    ensures Step(w, c, OpenStart(req), Choice("", None, None, None)) ==
      Go(w, if req.key in w.checkpoints then Finished(Opened(req.key)) else OpenReadEffect(req))
  {
  }

  lemma CompleteSteps(w: World, c: CallId, key: Key, row: Checkpoint, result: Json)
    requires key in w.effects
    ensures Step(w, c, ResumeComplete(key, row, result), Choice("", None, None, None)) ==
      Go(w, ResumeStore(key, row, result, w.effects[key].volatile))
    ensures w.effects[key].status == Completed ==>
      Step(w, c, ResumeStored(key, row), Choice("", None, None, None)) ==
      Go(w, ResumeMark(key, row, StoredResult(w.effects[key])))
  {
  }

  lemma StageSteps(w: World, c: CallId, pid: ProposalId, payload: Payload)
    requires pid in w.proposals
    ensures Step(w, c, StageUpdate(pid, payload), Choice("", None, None, None)) ==
      Go(w.(proposals := DecideRow(w.proposals, pid, Pending, payload)), StageConfirm(pid))
    ensures w.proposals[pid].status == Pending ==> Step(w, c, StageConfirm(pid), Choice("", None, None, None)).Go?
    ensures Step(w, c, StageConfirm(pid), Choice("", None, None, None)).Go? ==>
      Step(w, c, StageConfirm(pid), Choice("", None, None, None)).w == w
  {
  }

  lemma RewriteMissing(w: World, c: CallId, pid: ProposalId, payload: Payload)
    requires pid !in w.proposals
    ensures Step(w, c, RewriteSelect(pid, payload), Choice("", None, None, None)) == Go(w, Finished(Raised))
  {
  }

  lemma RewriteSteps(w: World, c: CallId, pid: ProposalId, payload: Payload)
    requires pid in w.proposals
    ensures Step(w, c, RewriteSelect(pid, payload), Choice("", None, None, None)) == Go(w, RewriteUpdate(pid, payload))
    ensures Step(w, c, RewriteUpdate(pid, payload), Choice("", None, None, None)) ==
      Go(w.(proposals := RewriteRow(w.proposals, pid, payload), rewritten := w.rewritten + {pid}), RewriteConfirm(pid))
    ensures Step(w, c, RewriteConfirm(pid), Choice("", None, None, None)) == Go(w, Finished(Rewritten(pid)))
  {
  }

  lemma ApproveSteps(w: World, c: CallId, key: Key, execute: bool)
    requires key in w.checkpoints && w.checkpoints[key].proposalId in w.proposals
    ensures var pid := w.checkpoints[key].proposalId;
      && Step(w, c, ApproveReadCheckpoint(key, execute), Choice("", None, None, None)) ==
           Go(w, ApproveReadProposal(key, pid, execute))
      && Step(w, c, ApproveReadProposal(key, pid, execute), Choice("", None, None, None)) ==
         Go(w, if w.proposals[pid].status == Pending then DecideSelect(pid, Approve, ThenResume(key, execute))
               else ResumeReadEffect(key, execute))
  {
  }

  lemma DecideSteps(w: World, c: CallId, pid: ProposalId, d: Decision, payload: Payload, after: After)
    ensures Step(w, c, DecideUpdate(pid, d, payload, after), Choice("", None, None, None)) ==
      Go(w.(proposals := DecideRow(w.proposals, pid, StatusOf(d), payload)), DecideConfirm(pid, d, after))
  {
  }

  lemma PlainDecision(t: Proposals, pid: ProposalId, d: Decision)
    requires pid in t && t[pid].status == Pending && !d.Edit?
    ensures DecidedRow(t, pid, d) == Ok(t[pid].(status := StatusOf(d)))
  {
  }

  /** Where a caller of `decide` goes on. */
  lemma GoesOn(w: World, pid: ProposalId, status: Status, after: After)
    ensures after.ThenCheckpoint? ==> Continue(w, pid, status, after).pc == OpenCheckpoint(after.req, pid)
    ensures after.ThenResume? ==> Continue(w, pid, status, after).pc == ResumeReadEffect(after.key, after.execute)
  {
  }

  class Store {
    var proposals: Proposals
    var effects: Effects
    var checkpoints: Checkpoints
    ghost var tr: seq<State>
    ghost var nextCall: nat
    ghost var before: seq<State>   // the run as it was when the last call from outside began

    ghost function World(): World
      reads this`tr
    {
      if tr == [] then EmptyWorld else tr[|tr| - 1].w
    }

    ghost function Calls(): map<CallId, Pc>
      reads this`tr
    {
      if tr == [] then map[] else tr[|tr| - 1].calls
    }

    ghost predicate Tables(w: World)
      reads this`proposals, this`effects, this`checkpoints
    {
      w.proposals == proposals && w.effects == effects && w.checkpoints == checkpoints
    }

    ghost predicate Valid()
      reads this
    {
      Run(tr) && before <= tr && Tables(World()) && forall c :: c in Calls() ==> c < nextCall
    }

    constructor ()
      ensures Valid() && proposals == map[] && effects == map[] && checkpoints == map[]
    {
      proposals, effects, checkpoints := map[], map[], map[];
      tr, before := [InitialState], [];
      nextCall := 0;
    }

    /** A new call of the protocol begins. */
    ghost method Begin(pc: Pc) returns (c: CallId)
      requires Valid() && Callable(pc)
      modifies this`tr, this`nextCall, this`before
      ensures Valid() && before == old(tr) && World() == old(World())
      ensures c in Calls() && Calls()[c] == pc
    {
      c := nextCall;
      var s := tr[|tr| - 1];
      assert c !in Calls();
      assert Enabled(s, Start(c, pc));
      nextCall, before := nextCall + 1, tr;
      assert forall d :: d in Apply(s, Start(c, pc)).calls ==> d == c || d in Calls();
      Extend(Apply(s, Start(c, pc)));
    }

    /** The call makes the commit that the tables have just made. */
    ghost method Commit(c: CallId, pc: Pc, ch: Choice, m: Move)
      requires Run(tr) && before <= tr && c in Calls() && Calls()[c] == pc
      requires m == Step(World(), c, pc, ch) && m.Go? && Tables(m.w)
      requires forall d :: d in Calls() ==> d < nextCall
      modifies this`tr
      ensures Valid() && World() == m.w
      ensures c in Calls() && Calls()[c] == m.pc
    {
      var s := tr[|tr| - 1];
      assert Enabled(s, Advance(c, ch));
      Extend(Apply(s, Advance(c, ch)));
    }

    ghost method Extend(s: State)
      requires Run(tr) && before <= tr && Next(tr[|tr| - 1], s) && Tables(s.w)
      requires forall d :: d in s.calls ==> d < nextCall
      modifies this`tr
      ensures Valid() && tr == old(tr) + [s]
    {
      tr := tr + [s];
      forall i ensures NextAt(tr, i) {
        assert NextAt(old(tr), i);
      }
    }

    /** In every state a store can be in, `execute` ran at most once per key. */
    lemma ExecutedAtMostOnce(k: Key)
      requires Valid()
      ensures World().runs[k] <= 1
    {
      AtMostOnce(tr, |tr| - 1, k);
    }

    // -------------------------------------------------------------- pass_store

    /** INSERT a PENDING proposal. */
    method CreatePending(kind: Kind, action: string, payload: Payload, id: ProposalId)
      returns (r: Result<Proposal, PassError>)
      requires Valid()
      modifies this
      ensures Valid() && before == old(tr) && effects == old(effects) && checkpoints == old(checkpoints)
      ensures r.Ok? <==> id !in old(proposals)
      ensures r.Ok? ==>
        r.value == Proposal(kind, Pending, action, payload) && proposals == old(proposals)[id := r.value]
      ensures r.Err? ==> r.error == DuplicateId && proposals == old(proposals)
    {
      ghost var ch := Choice(id, None, None, None);
      ghost var pc := Create(kind, action, payload);
      ghost var c := Begin(pc);
      if id in proposals {
        Commit(c, pc, ch, Step(World(), c, pc, ch));
        return Err(DuplicateId);
      }
      proposals := proposals[id := Proposal(kind, Pending, action, payload)];
      Commit(c, pc, ch, Step(World(), c, pc, ch));
      return Ok(proposals[id]);
    }

    /** SELECT, UPDATE … WHERE status='PENDING', read back. */
    method Decide(pid: ProposalId, token: Token, edited: Option<Payload>) returns (r: Result<Proposal, PassError>)
      requires Valid()
      modifies this
      ensures Valid() && before == old(tr) && effects == old(effects) && checkpoints == old(checkpoints)
      ensures World().runs == old(World().runs)
      ensures r.Ok? <==>
        && (token.EditToken? <==> edited.Some?)
        && pid in old(proposals) && old(proposals)[pid].status == Pending
        && (token.EditToken? ==> !Retargets(old(proposals)[pid].payload, edited.value))
      ensures r.Ok? ==>
        && (token.ApproveToken? ==> r.value.status == Approved) && (token.RejectToken? ==> r.value.status == Rejected)
        && (token.EditToken? ==> r.value.status == Edited) && (token.ExpireToken? ==> r.value.status == Expired)
        && r.value == old(proposals)[pid].(status := r.value.status, payload := r.value.payload)
        && (!token.EditToken? ==> r.value.payload == old(proposals)[pid].payload)
        && (token.EditToken? ==> Merged(old(proposals)[pid].payload, edited.value) == Some(r.value.payload))
      ensures proposals == if r.Ok? then old(proposals)[pid := r.value] else old(proposals)
      ensures r.Err? && pid in proposals && proposals[pid].status != Pending && (token.EditToken? <==> edited.Some?) ==>
        r.error == AlreadyDecided(proposals[pid].status)
    {
      hide Run, Next, NextAt, Continue;
      before := tr;
      if token.EditToken? && edited.None? {
        return Err(EditNeedsPayload);
      }
      if !token.EditToken? && edited.Some? {
        return Err(PayloadOnlyForEdit);
      }
      var d := if token.ApproveToken? then Approve else if token.RejectToken? then Reject
        else if token.ExpireToken? then Expire else Edit(edited.value);
      ghost var c := Begin(DecideSelect(pid, d, Stop));
      r := DecideFrom(pid, d, c, Stop);
    }

    /** The SELECT of `decide`: the payload to write, or the error. */
    method SelectPending(pid: ProposalId, d: Decision, ghost c: CallId, ghost after: After)
      returns (r: Result<Payload, PassError>)
      requires Valid() && c in Calls() && Calls()[c] == DecideSelect(pid, d, after)
      modifies this`tr
      ensures Valid() && World() == old(World())
      ensures r.Ok? ==>
        && c in Calls() && Calls()[c] == DecideUpdate(pid, d, r.value, after)
        && pid in proposals && proposals[pid].status == Pending
        && DecidedRow(proposals, pid, d) == Ok(proposals[pid].(status := StatusOf(d), payload := r.value))
      ensures r.Err? ==> DecidedRow(proposals, pid, d) == Err(r.error)
    {
      ghost var ch := Choice("", None, None, None);
      ghost var m := SelectStep(World(), pid, d, after);
      if pid !in proposals {
        Commit(c, Calls()[c], ch, m);
        return Err(ProposalNotFound);
      }
      var current := proposals[pid];
      if current.status != Pending {
        Commit(c, Calls()[c], ch, m);
        return Err(AlreadyDecided(current.status));
      }
      var payload := Some(current.payload);
      if d.Edit? {
        payload := MergeEdit(current.payload, d.edited);
      }
      Commit(c, Calls()[c], ch, m);
      if payload.None? {
        return Err(CannotRetarget);
      }
      return Ok(payload.value);
    }

    /** The body of `decide`, also when another function calls it and goes on afterwards. */
    method DecideFrom(pid: ProposalId, d: Decision, ghost c: CallId, ghost after: After)
      returns (r: Result<Proposal, PassError>)
      requires Valid() && c in Calls() && Calls()[c] == DecideSelect(pid, d, after)
      modifies this`tr, this`proposals
      ensures Valid() && World().runs == old(World().runs)
      ensures r == DecidedRow(old(proposals), pid, d)
      ensures proposals == if r.Ok? then old(proposals)[pid := r.value] else old(proposals)
      ensures r.Ok? ==> c in Calls() && Calls()[c] == Continue(World(), pid, StatusOf(d), after).pc
    {
      hide Run, Valid, Step, World, Calls, Continue;
      var payload := SelectPending(pid, d, c, after);
      if payload.Err? {
        return Err(payload.error);
      }
      TablesOfTheWorld();
      DecideSteps(World(), c, pid, d, payload.value, after);
      ghost var update, confirm := DecideUpdate(pid, d, payload.value, after), DecideConfirm(pid, d, after);
      UpdatePending(pid, StatusOf(d), payload.value, c, update, confirm);
      Confirm(pid, d, c, after);
      return Ok(proposals[pid]);
    }

    /** The row reads back with the status that was asked for. */
    ghost method Confirm(pid: ProposalId, d: Decision, c: CallId, after: After)
      requires Valid() && c in Calls() && Calls()[c] == DecideConfirm(pid, d, after)
      requires pid in proposals && proposals[pid].status == StatusOf(d)
      modifies this`tr
      ensures Valid() && World().runs == old(World().runs)
      ensures c in Calls() && Calls()[c] == Continue(World(), pid, StatusOf(d), after).pc
    {
      Commit(c, DecideConfirm(pid, d, after), Choice("", None, None, None), ConfirmStep(World(), pid, d, after));
    }

    /** UPDATE … WHERE status='PENDING', of a row that is still PENDING. */
    method UpdatePending(pid: ProposalId, status: Status, payload: Payload, ghost c: CallId, ghost pc: Pc,
                         ghost next: Pc)
      requires Valid() && c in Calls() && Calls()[c] == pc && pid in proposals && proposals[pid].status == Pending
      requires var row := DecideRow(proposals, pid, status, payload);
        Step(World(), c, pc, Choice("", None, None, None)) == Go(World().(proposals := row), next)
      modifies this`tr, this`proposals
      ensures Valid()
      ensures proposals == old(proposals)[pid := old(proposals)[pid].(status := status, payload := payload)]
      ensures World() == old(World()).(proposals := proposals) && c in Calls() && Calls()[c] == next
    {
      ghost var ch := Choice("", None, None, None);
      ghost var m := Step(World(), c, pc, ch);
      proposals := DecideRow(proposals, pid, status, payload);
      Commit(c, pc, ch, m);
    }

    /** Merge an edit into a PENDING proposal; its status stays PENDING. */
    method StageEdit(pid: ProposalId, edited: Payload, actor: string) returns (r: Result<Proposal, PassError>)
      requires Valid()
      modifies this
      ensures Valid() && before == old(tr) && effects == old(effects) && checkpoints == old(checkpoints)
      ensures r.Ok? <==>
        && pid in old(proposals) && old(proposals)[pid].status == Pending
        && !Retargets(old(proposals)[pid].payload, edited)
      ensures r.Ok? ==>
        && r.value == old(proposals)[pid].(payload := r.value.payload)
        && StagedEdit(old(proposals)[pid].payload, edited, actor) == Some(r.value.payload)
      ensures proposals == if r.Ok? then old(proposals)[pid := r.value] else old(proposals)
    {
      hide Run, Step, StagedEdit, Retargets, Merged;
      ghost var pc := StageSelect(pid, edited, actor);
      ghost var c := Begin(pc);
      var payload := SelectStage(pid, edited, actor, c);
      if payload.Err? {
        return Err(payload.error);
      }
      StageSteps(World(), c, pid, payload.value);
      UpdatePending(pid, Pending, payload.value, c, StageUpdate(pid, payload.value), StageConfirm(pid));
      StageSteps(World(), c, pid, payload.value);
      ghost var ch := Choice("", None, None, None);
      ghost var m := Step(World(), c, StageConfirm(pid), ch);
      Commit(c, StageConfirm(pid), ch, m);
      return Ok(proposals[pid]);
    }

    method SelectStage(pid: ProposalId, edited: Payload, actor: string, ghost c: CallId)
      returns (r: Result<Payload, PassError>)
      requires Valid() && c in Calls() && Calls()[c] == StageSelect(pid, edited, actor)
      modifies this`tr
      ensures Valid() && World() == old(World())
      ensures r.Ok? <==>
        pid in proposals && proposals[pid].status == Pending && !Retargets(proposals[pid].payload, edited)
      ensures r.Ok? ==> c in Calls() && Calls()[c] == StageUpdate(pid, r.value)
      ensures r.Ok? ==> StagedEdit(proposals[pid].payload, edited, actor) == Some(r.value)
    {
      ghost var ch := Choice("", None, None, None);
      ghost var m := StageStep(World(), pid, edited, actor);
      if pid !in proposals {
        Commit(c, Calls()[c], ch, m);
        return Err(ProposalNotFound);
      }
      var current := proposals[pid];
      if current.status != Pending {
        Commit(c, Calls()[c], ch, m);
        return Err(AlreadyDecided(current.status));
      }
      var merged := MergeEdit(current.payload, edited);
      Commit(c, Calls()[c], ch, m);
      if merged.None? {
        return Err(CannotRetarget);
      }
      return Ok(if actor != "" then merged.value["staged_by" := Value(Strip(actor))] else merged.value);
    }

    /** `submit` for any kind: the row is written PENDING first. An inadmissible skill evolution is then
        rejected, whatever the rules say; otherwise a conclusive verdict is decided. */
    method Submit(kind: Kind, action: string, payload: Payload, id: ProposalId, admissible: bool, verdict: Option<bool>)
      returns (r: Result<Proposal, PassError>)
      requires Valid()
      modifies this
      ensures Valid() && effects == old(effects) && checkpoints == old(checkpoints)
      ensures r.Ok? <==> id !in old(proposals)
      ensures r.Ok? ==> r.value == Proposal(kind, r.value.status, action, payload)
      ensures r.Ok? && kind == SkillEvolutionKind && !admissible ==> r.value.status == Rejected
      ensures r.Ok? && !(kind == SkillEvolutionKind && !admissible) ==>
        && (verdict == None ==> r.value.status == Pending)
        && (verdict == Some(true) ==> r.value.status == Approved)
        && (verdict == Some(false) ==> r.value.status == Rejected)
      ensures proposals == if r.Ok? then old(proposals)[id := r.value] else old(proposals)
    {
      hide Run, Step;
      r := CreatePending(kind, action, payload, id);
      if r.Err? {
        return;
      }
      if kind == SkillEvolutionKind && !admissible {
        r := Decide(id, RejectToken, None);
      } else if verdict.Some? {
        r := Decide(id, if verdict.value then ApproveToken else RejectToken, None);
      }
    }

    /** Replace the payload of a proposal, whatever its status; nothing else changes. */
    method UpdatePayload(pid: ProposalId, payload: Payload) returns (r: Result<Proposal, PassError>)
      requires Valid()
      modifies this
      ensures Valid() && before == old(tr) && effects == old(effects) && checkpoints == old(checkpoints)
      ensures World().runs == old(World().runs)
      ensures r.Ok? <==> pid in old(proposals)
      ensures r.Ok? ==>
        r.value == old(proposals)[pid].(payload := payload) && proposals == old(proposals)[pid := r.value]
      ensures r.Err? ==> r.error == ProposalNotFound && proposals == old(proposals)
    {
      hide Run, Step;
      ghost var c := Begin(RewriteSelect(pid, payload));
      if pid !in proposals {
        RewriteMissing(World(), c, pid, payload);
        Read(c, RewriteSelect(pid, payload), Finished(Raised));
        return Err(ProposalNotFound);
      }
      r := RewriteFound(pid, payload, c);
    }

    method RewriteFound(pid: ProposalId, payload: Payload, ghost c: CallId) returns (r: Result<Proposal, PassError>)
      requires Valid() && c in Calls() && Calls()[c] == RewriteSelect(pid, payload) && pid in proposals
      modifies this`tr, this`proposals
      ensures Valid() && World().runs == old(World().runs)
      ensures r == Ok(old(proposals)[pid].(payload := payload)) && proposals == old(proposals)[pid := r.value]
    {
      hide Run, Step, Valid, Calls, World;
      ProposalsOfTheWorld();
      RewriteSteps(World(), c, pid, payload);
      Read(c, RewriteSelect(pid, payload), RewriteUpdate(pid, payload));
      RewritePayload(pid, payload, c);
      RewriteSteps(World(), c, pid, payload);
      Read(c, RewriteConfirm(pid), Finished(Rewritten(pid)));
      return Ok(proposals[pid]);
    }

    method RewritePayload(pid: ProposalId, payload: Payload, ghost c: CallId)
      requires Valid() && c in Calls() && Calls()[c] == RewriteUpdate(pid, payload) && pid in proposals
      modifies this`tr, this`proposals
      ensures Valid() && World().runs == old(World().runs)
      ensures proposals == old(proposals)[pid := old(proposals)[pid].(payload := payload)]
      ensures World().proposals == proposals && c in Calls() && Calls()[c] == RewriteConfirm(pid)
    {
      RewriteSteps(World(), c, pid, payload);
      ghost var m := Step(World(), c, RewriteUpdate(pid, payload), Choice("", None, None, None));
      proposals := RewriteRow(proposals, pid, payload);
      Commit(c, RewriteUpdate(pid, payload), Choice("", None, None, None), m);
    }

    // -------------------------------------------------------------- side_effects

    /** `get`, then `reserve` when there is no row; a row of another tool is refused. */
    method ReserveOnce(req: OpenRequest, ghost c: CallId) returns (refused: bool)
      requires Valid() && c in Calls() && Calls()[c] == OpenReadEffect(req)
      modifies this`tr, this`effects
      ensures Valid() && World().runs == old(World().runs)
      ensures refused <==>
        req.key in old(effects) && old(effects)[req.key].token != "" && old(effects)[req.key].token != req.token
      ensures effects == if req.key in old(effects) then old(effects)
        else old(effects)[req.key := Effect(req.token, req.volatile, Reserved, None, "", "")]
      ensures !refused ==> c in Calls() && Calls()[c] == OpenPropose(req)
    {
      ghost var ch := Choice("", None, None, None);
      ghost var m := OpenStep(World(), c, OpenReadEffect(req), ch);
      Commit(c, OpenReadEffect(req), ch, m);
      if req.key in effects {
        return effects[req.key].token != "" && effects[req.key].token != req.token;
      }
      m := OpenStep(World(), c, OpenReserve(req), ch);
      effects := effects[req.key := Effect(req.token, req.volatile, Reserved, None, "", "")];
      Commit(c, OpenReserve(req), ch, m);
      return false;
    }

    /** Attach the proposal and checkpoint ids to the reservation. */
    method Bind(req: OpenRequest, pid: ProposalId, id: RowId, ghost c: CallId)
      requires Valid() && c in Calls() && Calls()[c] == OpenBind(req, pid, id)
      modifies this`tr, this`effects
      ensures Valid() && World().runs == old(World().runs)
      ensures req.key in old(effects)
      ensures effects == old(effects)[req.key := old(effects)[req.key].(proposalId := pid, checkpointId := id)]
    {
      hide Run;
      BoundHasEffect(req, pid, id, c);
      ghost var ch := Choice("", None, None, None);
      ghost var m := OpenStep(World(), c, OpenBind(req, pid, id), ch);
      effects := BindRow(effects, req.key, pid, id);
      Commit(c, OpenBind(req, pid, id), ch, m);
      Read(c, OpenReadBack(req), Finished(Opened(req.key)));
    }

    /** A claimed key has its effect row, so `complete` cannot miss it. */
    lemma ClaimedHasEffect(key: Key, row: Checkpoint, result: Json, c: CallId)
      requires Valid() && c in Calls() && Calls()[c] == ResumeComplete(key, row, result)
      ensures key in effects
    {
      RunCall(tr, |tr| - 1, c);
    }

    /** A checkpoint has its effect row, so `bind` cannot miss it. */
    lemma BoundHasEffect(req: OpenRequest, pid: ProposalId, id: RowId, c: CallId)
      requires Valid() && c in Calls() && Calls()[c] == OpenBind(req, pid, id)
      ensures req.key in effects && req.key in checkpoints
    {
      RunCall(tr, |tr| - 1, c);
      RunKeyInv(tr, |tr| - 1, req.key);
    }

    /** Read the row, mark it completed with its result (none for a volatile tool), read it back. */
    method Complete(key: Key, row: Checkpoint, result: Json, ghost c: CallId) returns (stored: Option<Json>)
      requires Valid() && c in Calls() && Calls()[c] == ResumeComplete(key, row, result)
      modifies this`tr, this`effects
      ensures Valid() && World().runs == old(World().runs)
      ensures key in old(effects)
      ensures stored == if old(effects)[key].volatile then None else Some(result)
      ensures effects == old(effects)[key := old(effects)[key].(status := Completed, result := stored)]
      ensures c in Calls() && Calls()[c] == ResumeMark(key, row, stored)
    {
      hide Run, Step;
      ClaimedHasEffect(key, row, result, c);
      var volatile := effects[key].volatile;
      CompleteSteps(World(), c, key, row, result);
      Read(c, ResumeComplete(key, row, result), ResumeStore(key, row, result, volatile));
      StoreResult(key, row, result, volatile, c);
      stored := if effects[key].volatile then None else effects[key].result;
      CompleteSteps(World(), c, key, row, result);
      Read(c, ResumeStored(key, row), ResumeMark(key, row, stored));
    }

    /** A step that only reads. */
    ghost method Read(c: CallId, pc: Pc, next: Pc)
      requires Valid() && c in Calls() && Calls()[c] == pc
      requires Step(World(), c, pc, Choice("", None, None, None)) == Go(World(), next)
      modifies this`tr
      ensures Valid() && World() == old(World())
      ensures c in Calls() && Calls()[c] == next
    {
      Commit(c, pc, Choice("", None, None, None), Go(World(), next));
    }

    method StoreResult(key: Key, row: Checkpoint, result: Json, volatile: bool, ghost c: CallId)
      requires Valid() && c in Calls() && Calls()[c] == ResumeStore(key, row, result, volatile) && key in effects
      modifies this`tr, this`effects
      ensures Valid() && World().runs == old(World().runs)
      ensures effects ==
        old(effects)[key := old(effects)[key].(status := Completed, result := if volatile then None else Some(result))]
      ensures c in Calls() && Calls()[c] == ResumeStored(key, row)
    {
      ghost var m := StoreStep(World(), key, row, result, volatile);
      effects := CompleteRow(effects, key, if volatile then None else Some(result));
      Commit(c, ResumeStore(key, row, result, volatile), Choice("", None, None, None), m);
    }

    // -------------------------------------------------------------- checkpoints: open

    method InsertPending(req: OpenRequest, pid: ProposalId, ghost c: CallId) returns (ok: bool)
      requires Valid() && c in Calls() && Calls()[c] == OpenPropose(req)
      modifies this`tr, this`proposals
      ensures Valid() && World().runs == old(World().runs)
      ensures ok <==> pid !in old(proposals)
      ensures proposals ==
        if ok then old(proposals)[pid := Proposal(ToolKind, Pending, req.token, req.payload)]
        else old(proposals)
      ensures ok ==> c in Calls() && Calls()[c] == OpenAuto(req, pid)
    {
      ghost var ch := Choice(pid, None, None, None);
      ghost var m := OpenStep(World(), c, OpenPropose(req), ch);
      if pid in proposals {
        Commit(c, OpenPropose(req), ch, m);
        return false;
      }
      proposals := proposals[pid := Proposal(ToolKind, Pending, req.token, req.payload)];
      Commit(c, OpenPropose(req), ch, m);
      return true;
    }

    /** The proposal is written first; a conclusive verdict of the approval rules is then decided. */
    method SubmitTool(req: OpenRequest, pid: ProposalId, auto: Option<Decision>, ghost c: CallId)
      returns (r: Result<(), PassError>)
      requires Valid() && c in Calls() && Calls()[c] == OpenPropose(req)
      requires auto.Some? ==> auto.value.Approve? || auto.value.Reject?
      modifies this`tr, this`proposals
      ensures Valid() && World().runs == old(World().runs)
      ensures r.Ok? <==> pid !in old(proposals)
      ensures proposals == if pid in old(proposals) then old(proposals)
        else old(proposals)[pid := Proposal(ToolKind, Verdicted(auto), req.token, req.payload)]
      ensures r.Ok? ==> c in Calls() && Calls()[c] == OpenCheckpoint(req, pid)
    {
      hide Run, Valid, Step, World, Calls, Tables, Verdicted;
      var ok := InsertPending(req, pid, c);
      if !ok {
        return Err(DuplicateId);
      }
      FollowVerdict(req, pid, auto, c);
      return Ok(());
    }

    method FollowVerdict(req: OpenRequest, pid: ProposalId, auto: Option<Decision>, ghost c: CallId)
      requires Valid() && c in Calls() && Calls()[c] == OpenAuto(req, pid)
      requires pid in proposals && proposals[pid].status == Pending
      requires auto.Some? ==> auto.value.Approve? || auto.value.Reject?
      modifies this`tr, this`proposals
      ensures Valid() && World().runs == old(World().runs)
      ensures proposals == old(proposals)[pid := old(proposals)[pid].(status := Verdicted(auto))]
      ensures c in Calls() && Calls()[c] == OpenCheckpoint(req, pid)
    {
      hide Run, Valid, Step, World, Calls, Tables, StatusOf;
      Verdict(req, pid, auto, c);
      if auto.Some? {
        DecideAuto(req, pid, auto.value, c);
      }
      assert auto.None? ==> proposals == old(proposals)[pid := old(proposals)[pid].(status := Pending)];
    }

    method DecideAuto(req: OpenRequest, pid: ProposalId, d: Decision, ghost c: CallId)
      requires Valid() && c in Calls() && Calls()[c] == DecideSelect(pid, d, ThenCheckpoint(req))
      requires pid in proposals && proposals[pid].status == Pending && !d.Edit?
      modifies this`tr, this`proposals
      ensures Valid() && World().runs == old(World().runs)
      ensures proposals == old(proposals)[pid := old(proposals)[pid].(status := StatusOf(d))]
      ensures c in Calls() && Calls()[c] == OpenCheckpoint(req, pid)
    {
      hide Run, Valid, Step, Continue, DecidedRow, World, Calls, Tables, StatusOf;
      PlainDecision(proposals, pid, d);
      var decided := DecideFrom(pid, d, c, ThenCheckpoint(req));
      GoesOn(World(), pid, StatusOf(d), ThenCheckpoint(req));
    }

    ghost method Verdict(req: OpenRequest, pid: ProposalId, auto: Option<Decision>, c: CallId)
      requires Valid() && c in Calls() && Calls()[c] == OpenAuto(req, pid)
      requires auto.Some? ==> auto.value.Approve? || auto.value.Reject?
      modifies this`tr
      ensures Valid() && World() == old(World()) && c in Calls()
      ensures Calls()[c] ==
        if auto.Some? then DecideSelect(pid, auto.value, ThenCheckpoint(req))
        else OpenCheckpoint(req, pid)
    {
      ghost var ch := Choice("", auto, None, None);
      Commit(c, OpenAuto(req, pid), ch, OpenStep(World(), c, OpenAuto(req, pid), ch));
    }

    /** INSERT the checkpoint row; its id must be new. */
    method InsertCheckpoint(req: OpenRequest, pid: ProposalId, id: RowId, ghost c: CallId) returns (ok: bool)
      requires Valid() && c in Calls() && Calls()[c] == OpenCheckpoint(req, pid) && req.key !in checkpoints
      modifies this`tr, this`checkpoints
      ensures Valid() && World().runs == old(World().runs)
      ensures ok <==> !RowIdTaken(old(checkpoints), id)
      ensures checkpoints == if ok then old(checkpoints)[req.key := Checkpoint(id, pid, Open)] else old(checkpoints)
      ensures ok ==> c in Calls() && Calls()[c] == OpenBind(req, pid, id)
    {
      ghost var ch := Choice(id, None, None, None);
      ghost var m := OpenStep(World(), c, OpenCheckpoint(req, pid), ch);
      if RowIdTaken(checkpoints, id) {
        Commit(c, OpenCheckpoint(req, pid), ch, m);
        return false;
      }
      checkpoints := checkpoints[req.key := Checkpoint(id, pid, Open)];
      Commit(c, OpenCheckpoint(req, pid), ch, m);
      return true;
    }

    /** Persist the reservation, the proposal and the checkpoint, in that order and before any
        effect. Opening the same key again returns the checkpoint there is and changes nothing. */
    method OpenPendingTool(rawKey: string, rawToken: string, volatile: bool, payload: Payload,
                           pid: ProposalId, id: RowId, auto: Option<Decision>)
      returns (r: Result<Checkpoint, GatewayError>)
      requires Valid()
      requires auto.Some? ==> auto.value.Approve? || auto.value.Reject?
      modifies this
      ensures Valid() && before == old(tr) && World().runs == old(World().runs)
      ensures var key, token := Strip(rawKey), Strip(rawToken);
        && (key == "" || token == "" ==>
              r.Err? && proposals == old(proposals) && effects == old(effects) && checkpoints == old(checkpoints))
        && (key != "" && token != "" && key in old(checkpoints) ==>
              && r == Ok(old(checkpoints)[key])
              && proposals == old(proposals) && effects == old(effects) && checkpoints == old(checkpoints))
        && (r.Ok? && key !in old(checkpoints) ==>
              && r.value == Checkpoint(id, pid, Open) && checkpoints == old(checkpoints)[key := r.value]
              && pid !in old(proposals)
              && pid in proposals && proposals == old(proposals)[pid := proposals[pid]]
              && (auto.None? ==> proposals[pid].status == Pending)
              && (auto == Some(Approve) ==> proposals[pid].status == Approved)
              && (auto == Some(Reject) ==> proposals[pid].status == Rejected)
              && proposals[pid].kind == ToolKind && proposals[pid].action == token
              && key in effects && effects == old(effects)[key := effects[key]]
              && effects[key].status == Reserved && effects[key].proposalId == pid && effects[key].checkpointId == id
              && effects[key].result.None?
              && (key !in old(effects) ==> effects[key].token == token && effects[key].volatile == volatile)
              && (key in old(effects) ==>
                    && effects[key].token == old(effects)[key].token
                    && effects[key].volatile == old(effects)[key].volatile))
        && (r.Err? ==> checkpoints == old(checkpoints))
      // what the approver will see and `execute` will get: the caller's arguments and the tool's token
      ensures var token := Strip(rawToken);
        r.Ok? && Strip(rawKey) !in old(checkpoints) ==>
          var parked := proposals[pid].payload;
          && (forall k :: k in payload ==> k in parked && parked[k] == payload[k])
          && "token" in parked && ("token" !in payload ==> parked["token"] == Value(token))
          && (forall k :: k in parked ==> k in payload || k == "token")
      // a key opens unless another tool reserved it or an id is taken; opened before, it is found again
      ensures var key, token := Strip(rawKey), Strip(rawToken);
        r.Ok? <==>
          && key != "" && token != ""
          && (key in old(checkpoints)
              || (!(key in old(effects) && old(effects)[key].token != "" && old(effects)[key].token != token)
                  && pid !in old(proposals) && !RowIdTaken(old(checkpoints), id)))
      ensures (forall k :: k in old(checkpoints) ==> k != "" && Strip(k) == k) ==> forall k :: k in checkpoints ==>
        k != "" && Strip(k) == k
    {
      hide Strip, Run, Valid, World, Calls, RowIdTaken;
      StripEnds(rawKey);
      var key := Strip(rawKey);
      if key == "" {
        Untouched();
        return Err(KeyRequired);
      }
      var token := Strip(rawToken);
      if token == "" {
        Untouched();
        return Err(TokenRequired);
      }
      var body := if "token" in payload then payload else payload["token" := Value(token)];
      r := OpenKey(OpenRequest(key, token, volatile, body), pid, id, auto);
    }

    /** A call that commits nothing. */
    ghost method Untouched()
      requires Valid()
      modifies this`before
      ensures Valid() && before == tr
    {
      before := tr;
    }

    /** The same for a request whose key and tool are not blank. */
    method OpenKey(req: OpenRequest, pid: ProposalId, id: RowId, auto: Option<Decision>)
      returns (r: Result<Checkpoint, GatewayError>)
      requires Valid()
      requires auto.Some? ==> auto.value.Approve? || auto.value.Reject?
      modifies this
      ensures Valid() && before == old(tr) && World().runs == old(World().runs)
      ensures req.key in old(checkpoints) ==> r == Ok(old(checkpoints)[req.key]) && TablesUnchanged()
      ensures r.Ok? && req.key !in old(checkpoints) ==>
        && r.value == Checkpoint(id, pid, Open) && checkpoints == old(checkpoints)[req.key := r.value]
        && pid !in old(proposals)
        && proposals == old(proposals)[pid := Proposal(ToolKind, Verdicted(auto), req.token, req.payload)]
        && req.key in effects && effects == old(effects)[req.key := effects[req.key]]
        && effects[req.key] == NewEffect(old(effects), req).(proposalId := pid, checkpointId := id)
        && effects[req.key].status == Reserved && effects[req.key].result.None?
      ensures r.Ok? <==>
        || req.key in old(checkpoints)
        || (!(req.key in old(effects) && old(effects)[req.key].token != "" && old(effects)[req.key].token != req.token)
            && pid !in old(proposals) && !RowIdTaken(old(checkpoints), id))
      ensures r.Err? ==> checkpoints == old(checkpoints)
    {
      hide Run, Valid, World, Calls, RowIdTaken, Verdicted, Step;
      ghost var c := Begin(OpenStart(req));
      TablesOfTheWorld();
      LooksForCheckpoint(World(), c, req);
      if req.key in checkpoints {
        Read(c, OpenStart(req), Finished(Opened(req.key)));
        return Ok(checkpoints[req.key]);
      }
      Read(c, OpenStart(req), OpenReadEffect(req));
      r := OpenFresh(req, pid, id, auto, c);
    }

    /** Without a checkpoint, a reservation is all there can be. */
    lemma UnopenedIsReserved(key: Key)
      requires Valid() && key !in checkpoints
      ensures key in effects ==> effects[key].status == Reserved && effects[key].result.None?
    {
      RunKeyInv(tr, |tr| - 1, key);
    }

    method OpenFresh(req: OpenRequest, pid: ProposalId, id: RowId, auto: Option<Decision>, ghost c: CallId)
      returns (r: Result<Checkpoint, GatewayError>)
      requires Valid() && c in Calls() && Calls()[c] == OpenReadEffect(req) && req.key !in checkpoints
      requires auto.Some? ==> auto.value.Approve? || auto.value.Reject?
      modifies this`tr, this`proposals, this`effects, this`checkpoints
      ensures Valid() && World().runs == old(World().runs)
      ensures r.Ok? ==>
        && r.value == Checkpoint(id, pid, Open) && checkpoints == old(checkpoints)[req.key := r.value]
        && pid !in old(proposals)
        && proposals == old(proposals)[pid := Proposal(ToolKind, Verdicted(auto), req.token, req.payload)]
        && req.key in effects && effects == old(effects)[req.key := effects[req.key]]
        && effects[req.key] == NewEffect(old(effects), req).(proposalId := pid, checkpointId := id)
        && effects[req.key].status == Reserved && effects[req.key].result.None?
      ensures r.Ok? <==>
        && !(req.key in old(effects) && old(effects)[req.key].token != "" && old(effects)[req.key].token != req.token)
        && pid !in old(proposals) && !RowIdTaken(old(checkpoints), id)
      ensures r.Err? ==> checkpoints == old(checkpoints)
    {
      hide Run, Step, Valid, World, Calls;
      UnopenedIsReserved(req.key);
      var refused := ReserveOnce(req, c);
      if refused {
        return Err(KeyExists(req.key));
      }
      r := OpenReserved(req, pid, id, auto, c);
    }

    method OpenReserved(req: OpenRequest, pid: ProposalId, id: RowId, auto: Option<Decision>, ghost c: CallId)
      returns (r: Result<Checkpoint, GatewayError>)
      requires Valid() && c in Calls() && Calls()[c] == OpenPropose(req) && req.key !in checkpoints
      requires req.key in effects
      requires auto.Some? ==> auto.value.Approve? || auto.value.Reject?
      modifies this`tr, this`proposals, this`effects, this`checkpoints
      ensures Valid() && World().runs == old(World().runs)
      ensures r.Ok? ==>
        && r.value == Checkpoint(id, pid, Open) && checkpoints == old(checkpoints)[req.key := r.value]
        && pid !in old(proposals)
        && proposals == old(proposals)[pid := Proposal(ToolKind, Verdicted(auto), req.token, req.payload)]
        && effects == old(effects)[req.key := old(effects)[req.key].(proposalId := pid, checkpointId := id)]
      ensures r.Ok? <==> pid !in old(proposals) && !RowIdTaken(old(checkpoints), id)
      ensures r.Err? ==> checkpoints == old(checkpoints)
    {
      hide Run, Step, Valid, World, Calls, RowIdTaken, Tables, StatusOf, Verdicted;
      var submitted := SubmitTool(req, pid, auto, c);
      if submitted.Err? {
        return Err(Pass(submitted.error));
      }
      r := CheckpointAndBind(req, pid, id, c);
    }

    method CheckpointAndBind(req: OpenRequest, pid: ProposalId, id: RowId, ghost c: CallId)
      returns (r: Result<Checkpoint, GatewayError>)
      requires Valid() && c in Calls() && Calls()[c] == OpenCheckpoint(req, pid) && req.key !in checkpoints
      requires req.key in effects
      modifies this`tr, this`effects, this`checkpoints
      ensures Valid() && World().runs == old(World().runs)
      ensures r == if RowIdTaken(old(checkpoints), id) then Err(DuplicateRowId) else Ok(Checkpoint(id, pid, Open))
      ensures checkpoints == if r.Ok? then old(checkpoints)[req.key := r.value] else old(checkpoints)
      ensures r.Ok? ==>
        effects == old(effects)[req.key := old(effects)[req.key].(proposalId := pid, checkpointId := id)]
    {
      hide Run, Step, Valid, World, Calls, RowIdTaken, Tables;
      var ok := InsertCheckpoint(req, pid, id, c);
      if !ok {
        return Err(DuplicateRowId);
      }
      Bind(req, pid, id, c);
      return Ok(checkpoints[req.key]);
    }

    // -------------------------------------------------------------- checkpoints: resume

    /** The compare-and-swap `open` -> `resuming`. */
    method ClaimResume(key: Key, execute: bool, row: Checkpoint, ghost c: CallId) returns (claimed: bool)
      requires Valid() && c in Calls() && Calls()[c] == ResumeClaim(key, execute, row)
      requires key in checkpoints && checkpoints[key].id == row.id
      modifies this`tr, this`checkpoints
      ensures Valid() && World().runs == old(World().runs)
      ensures claimed <==> old(checkpoints)[key].status == Open
      ensures checkpoints ==
        if claimed then old(checkpoints)[key := old(checkpoints)[key].(status := Resuming)]
        else old(checkpoints)
      ensures c in Calls() && Calls()[c] == if claimed then ResumeExecute(key, execute, row) else ResumeLost(key)
    {
      RunInv(tr, |tr| - 1);
      ProtocolSteps.ClaimRowMeaning(World(), key, row.id);
      ghost var m := ClaimStep(World(), c, key, execute, row);
      claimed := ClaimCount(checkpoints, row.id) == 1;
      checkpoints := ClaimRow(checkpoints, row.id);
      Commit(c, ResumeClaim(key, execute, row), Choice("", None, None, None), m);
    }

    method MarkResumed(key: Key, row: Checkpoint, stored: Option<Json>, ghost c: CallId)
      requires Valid() && c in Calls() && Calls()[c] == ResumeMark(key, row, stored)
      requires key in checkpoints && checkpoints[key].id == row.id
      modifies this`tr, this`checkpoints
      ensures Valid() && World().runs == old(World().runs)
      ensures checkpoints == old(checkpoints)[key := old(checkpoints)[key].(status := Resumed)]
    {
      RunInv(tr, |tr| - 1);
      ProtocolSteps.MarkRowMeaning(World(), key, row.id);
      ghost var m := MarkStep(World(), key, row, stored);
      checkpoints := MarkRow(checkpoints, row.id);
      Commit(c, ResumeMark(key, row, stored), Choice("", None, None, None), m);
    }

    /** The tables are as they were. */
    twostate predicate TablesUnchanged()
      reads this
    {
      proposals == old(proposals) && effects == old(effects) && checkpoints == old(checkpoints)
    }

    /** The proposal that a resume of `key` looks at. */
    ghost function ProposalFor(key: Key): Option<Proposal>
      reads this`proposals, this`checkpoints
      requires key in checkpoints
    {
      var pid := checkpoints[key].proposalId;
      if pid in proposals then Some(proposals[pid]) else None
    }

    /** What an uninterrupted resume answers without claiming anything; None when it goes on to claim. */
    ghost function Answer(key: Key): Option<Result<Resumption, GatewayError>>
      reads this`proposals, this`effects, this`checkpoints
    {
      if key !in effects || key !in checkpoints then Some(Err(NoCheckpoint(key)))
      else if effects[key].status == Completed then
        var cached := CachedResult(effects[key]);
        Some(Ok(Resumption(StatusCompleted, false, cached.Some?, cached)))
      else if checkpoints[key].status != Open then
        Some(Ok(Resumption(StatusCheckpoint(checkpoints[key].status), false, false, None)))
      else match ProposalFor(key)
        case None => Some(Err(ProposalMissing))
        case Some(p) =>
          match p.status
          case Pending => Some(Ok(Resumption(StatusPendingApproval, false, false, None)))
          case Rejected => Some(Ok(Resumption(StatusRejected, false, false, None)))
          case Expired => Some(Ok(Resumption(StatusRejected, false, false, None)))
          case Edited => Some(Err(NotApproved(Edited)))
          case Approved => None
    }

    /** Read the three rows and answer from them, or find out that the claim is to be tried. */
    method ReadForResume(key: Key, execute: bool, ghost c: CallId)
      returns (answer: Option<Result<Resumption, GatewayError>>)
      requires Valid() && c in Calls() && Calls()[c] == ResumeReadEffect(key, execute)
      modifies this`tr
      ensures Valid() && World() == old(World())
      ensures answer == Answer(key)
      ensures answer.None? ==>
        && key in effects && key in checkpoints && checkpoints[key].proposalId in proposals
        && c in Calls() && Calls()[c] == ResumeClaim(key, execute, checkpoints[key])
    {
      if key !in effects {
        Read(c, ResumeReadEffect(key, execute), Finished(Raised));
        return Some(Err(NoCheckpoint(key)));
      }
      var completed := effects[key].status == Completed;
      Read(c, ResumeReadEffect(key, execute), ResumeReadCheckpoint(key, execute, completed));
      if key !in checkpoints {
        Read(c, ResumeReadCheckpoint(key, execute, completed), Finished(Raised));
        return Some(Err(NoCheckpoint(key)));
      }
      var row := checkpoints[key];
      Read(c, ResumeReadCheckpoint(key, execute, completed), ResumeReadProposal(key, execute, completed, row));
      answer := ReadProposalForResume(key, execute, completed, row, c);
    }

    method ReadProposalForResume(key: Key, execute: bool, completed: bool, row: Checkpoint, ghost c: CallId)
      returns (answer: Option<Result<Resumption, GatewayError>>)
      requires Valid() && key in effects && key in checkpoints && row == checkpoints[key]
      requires completed <==> effects[key].status == Completed
      requires c in Calls() && Calls()[c] == ResumeReadProposal(key, execute, completed, row)
      modifies this`tr
      ensures Valid() && World() == old(World())
      ensures answer == Answer(key)
      ensures answer.None? ==>
        row.proposalId in proposals && c in Calls() && Calls()[c] == ResumeClaim(key, execute, row)
    {
      ghost var m :=
        ResumeStep(World(), c, ResumeReadProposal(key, execute, completed, row), Choice("", None, None, None));
      Read(c, ResumeReadProposal(key, execute, completed, row), m.pc);
      if completed {
        var cached := CachedResult(effects[key]);
        Read(c, ResumeReadCached(key), Finished(ResumeResult(key, StatusCompleted, false, cached.Some?, cached)));
        return Some(Ok(Resumption(StatusCompleted, false, cached.Some?, cached)));
      }
      if row.status != Open {
        return Some(Ok(Resumption(StatusCheckpoint(row.status), false, false, None)));
      }
      if row.proposalId !in proposals {
        return Some(Err(ProposalMissing));
      }
      match proposals[row.proposalId].status {
        case Pending => return Some(Ok(Resumption(StatusPendingApproval, false, false, None)));
        case Rejected => return Some(Ok(Resumption(StatusRejected, false, false, None)));
        case Expired => return Some(Ok(Resumption(StatusRejected, false, false, None)));
        case Edited => return Some(Err(NotApproved(Edited)));
        case Approved => return None;
      }
    }

    /** Call `execute` on the approved proposal; None when it raised. */
    method Execute(key: Key, row: Checkpoint, execute: Option<Proposal -> Option<Json>>, ghost c: CallId)
      returns (result: Option<Json>)
      requires Valid() && c in Calls() && Calls()[c] == ResumeExecute(key, execute.Some?, row)
      requires row.proposalId in proposals
      modifies this`tr
      ensures Valid() && TablesUnchanged()
      ensures World().runs == old(World().runs) + (if execute.Some? then multiset{key} else multiset{})
      ensures result == if execute.Some? then execute.value(proposals[row.proposalId]) else Some(Null)
      ensures result.Some? ==> c in Calls() && Calls()[c] == ResumeComplete(key, row, result.value)
    {
      result := if execute.Some? then execute.value(proposals[row.proposalId]) else Some(Null);
      ghost var m := ExecuteStep(World(), key, execute.Some?, row, result);
      Commit(c, ResumeExecute(key, execute.Some?, row), Choice("", None, result, None), m);
    }

    /** What follows a won claim. */
    method RunClaimed(key: Key, row: Checkpoint, execute: Option<Proposal -> Option<Json>>, ghost c: CallId)
      returns (r: Result<Resumption, GatewayError>)
      requires Valid() && c in Calls() && Calls()[c] == ResumeExecute(key, execute.Some?, row)
      requires row.proposalId in proposals && key in effects && key in checkpoints && checkpoints[key].id == row.id
      modifies this`tr, this`effects, this`checkpoints
      ensures Valid() && World().runs == old(World().runs) + (if execute.Some? then multiset{key} else multiset{})
      ensures r.Err? ==> r.error == ExecuteRaised && TablesUnchanged()
      ensures r.Err? <==> execute.Some? && execute.value(proposals[row.proposalId]).None?
      ensures r.Ok? ==>
        var result := if execute.Some? then execute.value(proposals[row.proposalId]).value else Null;
        var stored := if old(effects)[key].volatile then None else Some(result);
        && r.value == Resumption(StatusCompleted, true, stored.Some?, stored)
        && effects == old(effects)[key := old(effects)[key].(status := Completed, result := stored)]
        && checkpoints == old(checkpoints)[key := old(checkpoints)[key].(status := Resumed)]
    {
      hide Run, Valid, Step, World, Calls, Tables;
      var result := Execute(key, row, execute, c);
      if result.None? {
        return Err(ExecuteRaised);
      }
      var stored := RecordClaimed(key, row, result.value, c);
      return Ok(Resumption(StatusCompleted, true, stored.Some?, stored));
    }

    /** Complete the effect, then mark the checkpoint resumed. */
    method RecordClaimed(key: Key, row: Checkpoint, result: Json, ghost c: CallId) returns (stored: Option<Json>)
      requires Valid() && c in Calls() && Calls()[c] == ResumeComplete(key, row, result)
      requires key in effects && key in checkpoints && checkpoints[key].id == row.id
      modifies this`tr, this`effects, this`checkpoints
      ensures Valid() && World().runs == old(World().runs)
      ensures stored == if old(effects)[key].volatile then None else Some(result)
      ensures effects == old(effects)[key := old(effects)[key].(status := Completed, result := stored)]
      ensures checkpoints == old(checkpoints)[key := old(checkpoints)[key].(status := Resumed)]
    {
      hide Run, Valid, Step, World, Calls, Tables;
      stored := Complete(key, row, result, c);
      MarkResumed(key, row, stored, c);
    }

    lemma BeforeTheClaim(key: Key)
      requires Valid() && Answer(key).None?
      ensures key in effects && effects[key].status == Reserved && World().runs[key] == 0
      ensures key in checkpoints && checkpoints[key].status == Open && checkpoints[key].proposalId in proposals
      ensures ProposalFor(key) == Some(proposals[checkpoints[key].proposalId])
      ensures ProposalFor(key).value.status == Approved
    {
      RunKeyInv(tr, |tr| - 1, key);
    }

    /** Take the claim of an approved, open checkpoint and run what follows. */
    method ClaimAndRun(key: Key, execute: Option<Proposal -> Option<Json>>, ghost c: CallId)
      returns (r: Result<Resumption, GatewayError>)
      requires Valid() && key in effects && key in checkpoints && checkpoints[key].status == Open
      requires checkpoints[key].proposalId in proposals
      requires c in Calls() && Calls()[c] == ResumeClaim(key, execute.Some?, checkpoints[key])
      modifies this`tr, this`effects, this`checkpoints
      ensures Valid() && World().runs == old(World().runs) + (if execute.Some? then multiset{key} else multiset{})
      ensures r.Err? <==> execute.Some? && execute.value(proposals[old(checkpoints)[key].proposalId]).None?
      ensures r.Err? ==>
        && r.error == ExecuteRaised && effects == old(effects)
        && checkpoints == old(checkpoints)[key := old(checkpoints)[key].(status := Resuming)]
      ensures r.Ok? ==>
        var result := if execute.Some? then execute.value(proposals[old(checkpoints)[key].proposalId]).value else Null;
        var stored := if old(effects)[key].volatile then None else Some(result);
        && r.value == Resumption(StatusCompleted, true, stored.Some?, stored)
        && effects == old(effects)[key := old(effects)[key].(status := Completed, result := stored)]
        && checkpoints == old(checkpoints)[key := old(checkpoints)[key].(status := Resumed)]
    {
      hide Run, Valid, Step;
      var row := checkpoints[key];
      var claimed := ClaimResume(key, execute.Some?, row, c);
      r := RunClaimed(key, row, execute, c);
    }

    /** `resume` once the call has begun. It executes exactly when the checkpoint is open and its
        proposal APPROVED; then it leaves the effect completed with the result of this very call and
        the checkpoint resumed. If `execute` raises, the claim is spent. Otherwise it only answers. */
    method ResumeFrom(key: Key, execute: Option<Proposal -> Option<Json>>, ghost c: CallId)
      returns (r: Result<Resumption, GatewayError>)
      requires Valid() && c in Calls() && Calls()[c] == ResumeReadEffect(key, execute.Some?)
      modifies this`tr, this`effects, this`checkpoints
      ensures Valid()
      ensures old(Answer(key)).Some? ==>
        r == old(Answer(key)).value && TablesUnchanged() && World().runs == old(World().runs)
      ensures old(Answer(key)).None? ==>
        && key in old(effects) && key in old(checkpoints) && old(ProposalFor(key)).Some?
        && old(ProposalFor(key)).value.status == Approved
        && old(effects)[key].status == Reserved && old(World()).runs[key] == 0
        && World().runs == old(World().runs) + (if execute.Some? then multiset{key} else multiset{})
        && (r.Err? <==> execute.Some? && execute.value(old(ProposalFor(key)).value).None?)
      ensures old(Answer(key)).None? && r.Err? ==>
        && r.error == ExecuteRaised && effects == old(effects)
        && checkpoints == old(checkpoints)[key := old(checkpoints)[key].(status := Resuming)]
      ensures old(Answer(key)).None? && r.Ok? ==>
        var result := if execute.Some? then execute.value(old(ProposalFor(key)).value).value else Null;
        var stored := if old(effects)[key].volatile then None else Some(result);
        && r.value == Resumption(StatusCompleted, true, stored.Some?, stored)
        && effects == old(effects)[key := old(effects)[key].(status := Completed, result := stored)]
        && checkpoints == old(checkpoints)[key := old(checkpoints)[key].(status := Resumed)]
    {
      hide Run, Valid, Step, Answer;
      var answer := ReadForResume(key, execute.Some?, c);
      if answer.Some? {
        return answer.value;
      }
      BeforeTheClaim(key);
      r := ClaimAndRun(key, execute, c);
    }

    /** Once a result is recorded, every further resume answers with it and executes nothing. */
    lemma CompletedAnswers(key: Key)
      requires Valid() && key in effects && effects[key].status == Completed
      ensures var row := effects[key]; var readable := !row.volatile && row.result.Some? && row.result != Some(Null);
        Answer(key) ==
          Some(Ok(Resumption(StatusCompleted, false, readable, if readable then row.result else None)))
    {
      RunKeyInv(tr, |tr| - 1, key);
    }

    /** Once `execute` was called without a result being recorded, every further resume answers that
        the key is resuming and executes nothing. */
    lemma SpentClaimAnswers(key: Key)
      requires Valid() && World().runs[key] > 0 && !IsCompleted(World(), key)
      ensures Answer(key) == Some(Ok(Resumption(StatusCheckpoint(Resuming), false, false, None)))
    {
      RunKeyInv(tr, |tr| - 1, key);
    }

    /** How a resume of a key without a recorded result answers: a claim that is taken is reported; a
        waiting, a refused and an edited proposal are told apart, each reported exactly while it stands
        so; only an approved one gets to the claim. */
    predicate Unanswered(row: Checkpoint, proposal: Option<Proposal>, r: Result<Resumption, GatewayError>) {
      if row.status != Open then r == Ok(Resumption(StatusCheckpoint(row.status), false, false, None))
      else
        && proposal.Some?
        && var status := proposal.value.status;
           && (r == Ok(Resumption(StatusPendingApproval, false, false, None)) <==> status == Pending)
           && (r == Ok(Resumption(StatusRejected, false, false, None)) <==> status == Rejected || status == Expired)
           && (r == Err(NotApproved(Edited)) <==> status == Edited)
           && ((r.Ok? && r.value.executed) || r == Err(ExecuteRaised) <==> status == Approved)
    }

    /** What an answer from the rows is, told from the rows. */
    lemma Resumable(key: Key)
      requires Valid()
      ensures Answer(key).None? <==>
        && key in effects && key in checkpoints && effects[key].status != Completed && checkpoints[key].status == Open
        && ProposalFor(key).Some? && ProposalFor(key).value.status == Approved
      ensures key !in effects || key !in checkpoints ==> Answer(key) == Some(Err(NoCheckpoint(key)))
      ensures key in effects && key in checkpoints && effects[key].status == Completed ==>
        var row := effects[key]; var readable := !row.volatile && row.result.Some? && row.result != Some(Null);
        Answer(key) ==
          Some(Ok(Resumption(StatusCompleted, false, readable, if readable then row.result else None)))
      ensures key in effects && key in checkpoints && effects[key].status != Completed && Answer(key).Some? ==>
        Unanswered(checkpoints[key], ProposalFor(key), Answer(key).value)
    {
      RunKeyInv(tr, |tr| - 1, key);
    }

    /** Resume by key: it executes exactly when there is nothing to answer from the rows, and then
        the proposal stood APPROVED and `execute` had never been called for the key. */
    method Resume(rawKey: string, execute: Option<Proposal -> Option<Json>>)
      returns (r: Result<Resumption, GatewayError>)
      requires Valid()
      modifies this
      ensures Valid() && before == old(tr) && proposals == old(proposals)
      ensures checkpoints.Keys == old(checkpoints).Keys
      ensures Strip(rawKey) == "" ==> r == Err(KeyRequired) && TablesUnchanged()
      ensures var key := Strip(rawKey);
        key != "" && old(Answer(key)).Some? ==>
          r == old(Answer(key)).value && TablesUnchanged() && World().runs == old(World().runs)
      ensures var key := Strip(rawKey);
        key != "" && old(Answer(key)).None? ==>
          && old(World()).runs[key] == 0 && old(ProposalFor(key)).Some?
          && old(ProposalFor(key)).value.status == Approved
          && World().runs == old(World().runs) + (if execute.Some? then multiset{key} else multiset{})
          && (r.Err? ==> r.error == ExecuteRaised && effects == old(effects))
          && (r.Ok? ==>
                && r.value.executed && IsCompleted(World(), key) && IsResumed(World(), key)
                && effects[key].result == r.value.result)
      // what `execute` returned on the approved proposal is recorded and reported, but for a volatile tool
      ensures var key := Strip(rawKey);
        r.Ok? && r.value.executed ==>
          && key in old(effects) && old(ProposalFor(key)).Some?
          && var v := if execute.Some? then execute.value(old(ProposalFor(key)).value) else Some(Null);
             && v.Some?
             && effects == old(effects)[key := old(effects)[key].(status := Completed,
                  result := if old(effects)[key].volatile then None else v)]
             && r.value == Resumption(StatusCompleted, true, !old(effects)[key].volatile, effects[key].result)
      // a recorded result is answered from, unless it is a volatile tool's or `null`
      ensures var key := Strip(rawKey);
        key != "" && key in old(effects) && key in old(checkpoints) && old(effects)[key].status == Completed ==>
          var row := old(effects)[key];
          var readable := !row.volatile && row.result.Some? && row.result != Some(Null);
          r == Ok(Resumption(StatusCompleted, false, readable, if readable then row.result else None))
      // without one, the checkpoint and then the proposal decide
      ensures var key := Strip(rawKey);
        key != "" && (key !in old(effects) || key !in old(checkpoints)) ==> r == Err(NoCheckpoint(key))
      ensures var key := Strip(rawKey);
        key != "" && key in old(effects) && key in old(checkpoints) && old(effects)[key].status != Completed ==>
          Unanswered(old(checkpoints)[key], old(ProposalFor(key)), r)
    {
      hide Strip, Step, World, Calls, CachedResult;
      Resumable(Strip(rawKey));
      before := tr;
      var key := Strip(rawKey);
      if key == "" {
        return Err(KeyRequired);
      }
      ghost var c := Begin(ResumeReadEffect(key, execute.Some?));
      r := ResumeFrom(key, execute, c);
    }

    /** Decide APPROVED first if the proposal is still PENDING, then resume the same key. */
    method ApproveAndResume(rawKey: string, execute: Option<Proposal -> Option<Json>>)
      returns (r: Result<Resumption, GatewayError>)
      requires Valid()
      modifies this
      ensures Valid() && before == old(tr) && checkpoints.Keys == old(checkpoints).Keys
      ensures Strip(rawKey) == "" ==> r == Err(KeyRequired)
      ensures r.Ok? && r.value.executed ==>
        var key := Strip(rawKey);
        && key in old(checkpoints) && old(checkpoints)[key].status == Open && old(World()).runs[key] == 0
        && IsResumed(World(), key) && HasStatus(World(), checkpoints[key].proposalId, Approved)
        && old(ProposalFor(key)).Some? && old(ProposalFor(key)).value.status in {Pending, Approved}
      // a waiting proposal of an open checkpoint is approved and executed in one call, unless `execute` raises
      ensures var key := Strip(rawKey);
        key != "" && key in old(checkpoints) && old(checkpoints)[key].status == Open
        && old(ProposalFor(key)).Some? && old(ProposalFor(key)).value.status == Pending ==>
          && ((r.Ok? && r.value.executed) || r == Err(ExecuteRaised)) && key in checkpoints
          && proposals ==
               old(proposals)[checkpoints[key].proposalId := old(ProposalFor(key)).value.(status := Approved)]
      // so is one that was approved before, and its proposal stays as it is
      ensures var key := Strip(rawKey);
        key != "" && key in old(checkpoints) && old(checkpoints)[key].status == Open
        && old(ProposalFor(key)).Some? && old(ProposalFor(key)).value.status == Approved ==>
          ((r.Ok? && r.value.executed) || r == Err(ExecuteRaised)) && proposals == old(proposals)
      // no other row changes, and a decided one does not
      ensures var key := Strip(rawKey);
        proposals ==
          if key != "" && key in old(checkpoints) && old(ProposalFor(key)).Some?
             && old(ProposalFor(key)).value.status == Pending
          then old(proposals)[old(checkpoints)[key].proposalId := old(ProposalFor(key)).value.(status := Approved)]
          else old(proposals)
    {
      hide Strip, Run;
      before := tr;
      var key := Strip(rawKey);
      if key == "" {
        return Err(KeyRequired);
      }
      ghost var c := Begin(ApproveReadCheckpoint(key, execute.Some?));
      if key !in checkpoints {
        Read(c, ApproveReadCheckpoint(key, execute.Some?), Finished(Raised));
        return Err(NoCheckpoint(key));
      }
      r := ApproveFrom(key, execute, c);
    }

    lemma ProposalsOfTheWorld()
      requires Valid()
      ensures World().proposals == proposals
    {
    }

    lemma TablesOfTheWorld()
      requires Valid()
      ensures Tables(World())
    {
    }

    lemma CheckpointHasProposal(key: Key)
      requires Valid() && key in checkpoints
      ensures World().checkpoints == checkpoints && World().proposals == proposals
      ensures checkpoints[key].proposalId in proposals
    {
      RunKeyInv(tr, |tr| - 1, key);
    }

    /** Nothing has been claimed for a proposal that is not APPROVED. */
    lemma UnapprovedIsOpen(key: Key)
      requires Valid() && key in checkpoints && checkpoints[key].proposalId in proposals
      requires proposals[checkpoints[key].proposalId].status != Approved
      ensures key in effects && effects[key].status == Reserved && checkpoints[key].status == Open
    {
      RunKeyInv(tr, |tr| - 1, key);
    }

    /** The first half of `approve_and_resume`: the decision is persisted. */
    method ApproveFirst(key: Key, execute: bool, ghost c: CallId)
      requires Valid() && c in Calls() && Calls()[c] == ApproveReadCheckpoint(key, execute) && key in checkpoints
      modifies this`tr, this`proposals
      ensures Valid() && World().runs == old(World().runs) && c in Calls()
      ensures Calls()[c] == ResumeReadEffect(key, execute)
      ensures old(ProposalFor(key)).Some?
      ensures proposals ==
        if old(ProposalFor(key)).value.status != Pending then old(proposals)
        else old(proposals)[checkpoints[key].proposalId := old(ProposalFor(key)).value.(status := Approved)]
    {
      hide Run, Step, Valid, Continue, DecidedRow;
      var pid := checkpoints[key].proposalId;
      CheckpointHasProposal(key);
      ApproveSteps(World(), c, key, execute);
      Read(c, ApproveReadCheckpoint(key, execute), ApproveReadProposal(key, pid, execute));
      if proposals[pid].status == Pending {
        Read(c, ApproveReadProposal(key, pid, execute), DecideSelect(pid, Approve, ThenResume(key, execute)));
        PlainDecision(proposals, pid, Approve);
        var decided := DecideFrom(pid, Approve, c, ThenResume(key, execute));
        GoesOn(World(), pid, Approved, ThenResume(key, execute));
      } else {
        Read(c, ApproveReadProposal(key, pid, execute), ResumeReadEffect(key, execute));
      }
    }

    /** An open checkpoint's key is not completed. */
    lemma OpenIsNotCompleted(key: Key)
      requires Valid() && key in checkpoints && checkpoints[key].status == Open
      ensures key in effects && effects[key].status == Reserved && World().runs[key] == 0
    {
      RunKeyInv(tr, |tr| - 1, key);
    }

    method ApproveFrom(key: Key, execute: Option<Proposal -> Option<Json>>, ghost c: CallId)
      returns (r: Result<Resumption, GatewayError>)
      requires Valid() && c in Calls() && Calls()[c] == ApproveReadCheckpoint(key, execute.Some?) && key in checkpoints
      modifies this`tr, this`proposals, this`effects, this`checkpoints
      ensures Valid() && checkpoints.Keys == old(checkpoints).Keys
      ensures r.Ok? && r.value.executed ==>
        && old(checkpoints)[key].status == Open && old(World()).runs[key] == 0
        && IsResumed(World(), key) && HasStatus(World(), checkpoints[key].proposalId, Approved)
        && old(ProposalFor(key)).Some? && old(ProposalFor(key)).value.status in {Pending, Approved}
      ensures
        && old(checkpoints)[key].status == Open
        && old(ProposalFor(key)).Some? && old(ProposalFor(key)).value.status == Pending ==>
        && ((r.Ok? && r.value.executed) || r == Err(ExecuteRaised)) && key in checkpoints
        && proposals == old(proposals)[checkpoints[key].proposalId := old(ProposalFor(key)).value.(status := Approved)]
      ensures
        && old(checkpoints)[key].status == Open
        && old(ProposalFor(key)).Some? && old(ProposalFor(key)).value.status == Approved ==>
        ((r.Ok? && r.value.executed) || r == Err(ExecuteRaised)) && proposals == old(proposals)
      ensures old(ProposalFor(key)).Some?
      ensures proposals ==
        if old(ProposalFor(key)).value.status != Pending then old(proposals)
        else old(proposals)[old(checkpoints)[key].proposalId := old(ProposalFor(key)).value.(status := Approved)]
    {
      hide Run, Step, Valid;
      ApproveFirst(key, execute.Some?, c);
      if checkpoints[key].status == Open {
        OpenIsNotCompleted(key);
      }
      r := ResumeFrom(key, execute, c);
      TablesOfTheWorld();
    }
  }

  /** Two resumes of one key in a row: when the first one executes, the second one does not, and hands
      out what `execute` returned to the first, unless the tool is volatile or it was `null`. */
  method ResumeTwice(store: Store, rawKey: string, execute: Proposal -> Option<Json>,
                     again: Option<Proposal -> Option<Json>>)
    returns (first: Result<Resumption, GatewayError>, second: Result<Resumption, GatewayError>)
    requires store.Valid()
    modifies store
    ensures store.Valid()
    ensures first.Ok? && first.value.executed ==>
      var key := Strip(rawKey);
      && key in old(store.effects) && key in old(store.checkpoints) && old(store.ProposalFor(key)).Some?
      && execute(old(store.ProposalFor(key)).value).Some?
      && var v := execute(old(store.ProposalFor(key)).value).value;
         var volatile := old(store.effects)[key].volatile; var readable := !volatile && v != Null;
         && first == Ok(Resumption(StatusCompleted, true, !volatile, if volatile then None else Some(v)))
         && second == Ok(Resumption(StatusCompleted, false, readable, if readable then Some(v) else None))
  {
    hide Strip, Run;
    first := store.Resume(rawKey, Some(execute));
    second := store.Resume(rawKey, again);
  }
}
