/** Run-scoped browser grants: a grant is asked for through a proposal, becomes live only on
    approval of that proposal, and dies with its run. */
module BrowserGrant {
  import opened Core

  type RunId = r: int | 1 <= r witness 1
  type ProposalId = string
  type GrantId = string

  datatype Status = Pending | Approved | Rejected | Expired

  /** A tool proposal, as far as grants go: whether its action is the browser token, whether its
      payload names that token, and the payload's run if it has one. Only the payload can be edited. */
  datatype Proposal = Proposal(browser: bool, named: bool, run: Option<RunId>, status: Status)

  datatype Grant = Grant(run: RunId, live: bool, proposal: ProposalId)

  type Proposals = map<ProposalId, Proposal>
  type Grants = map<GrantId, Grant>

  /** The runs there are, true once a run has ended; the tool proposals, with the order in which the
      inbox lists them; the grants. */
  datatype Tables = Tables(finished: map<RunId, bool>, proposals: Proposals, inbox: seq<ProposalId>, grants: Grants)

  const NoTables := Tables(map[], map[], [], map[])

  datatype GrantError =
    RunNotFound | RunFinished | DeadGrant | BadUrl | BadRun | DuplicateId | ProposalNotFound | AlreadyDecided

  /** What `request` and `approve` report. */
  datatype Issue = Issue(proposal: ProposalId, grant: Option<GrantId>)

  // ---------------------------------------------------------------- reading the tables

  predicate Open(t: Tables, run: RunId) {
    run in t.finished && !t.finished[run]
  }

  predicate Ended(t: Tables, run: RunId) {
    run in t.finished && t.finished[run]
  }

  predicate HasGrant(gs: Grants, pid: ProposalId) {
    exists g :: g in gs && gs[g].proposal == pid
  }

  predicate IsLive(gs: Grants, g: GrantId, run: RunId) {
    g in gs && gs[g].live && gs[g].run == run
  }

  predicate HasLive(gs: Grants, run: RunId) {
    exists g :: g in gs && IsLive(gs, g, run)
  }

  /** `_proposal_targets_run` */
  predicate Targets(p: Proposal, run: RunId) {
    (p.browser || p.named) && p.run == Some(run)
  }

  predicate Is(ps: Proposals, pid: ProposalId, run: RunId, status: Status) {
    pid in ps && Targets(ps[pid], run) && ps[pid].status == status
  }

  predicate IsPending(ps: Proposals, pid: ProposalId) {
    pid in ps && ps[pid].status == Pending
  }

  predicate HasPending(ps: Proposals, run: RunId) {
    exists pid :: pid in ps && Is(ps, pid, run, Pending)
  }

  /** The first approved proposal of the run in inbox order. */
  function FirstApproved(inbox: seq<ProposalId>, ps: Proposals, run: RunId): Option<ProposalId> {
    if inbox == [] then None
    else if Is(ps, inbox[0], run, Approved) then Some(inbox[0])
    else FirstApproved(inbox[1..], ps, run)
  }

  /** The inbox scan of `_materialize_approved` would create no grant for the run. */
  predicate NothingToMaterialize(t: Tables, run: RunId) {
    var first := FirstApproved(t.inbox, t.proposals, run);
    first.Some? ==> HasGrant(t.grants, first.value)
  }

  /** The run has no live grant, no pending proposal, and nothing waiting to be materialized. */
  predicate Idle(t: Tables, run: RunId) {
    !HasLive(t.grants, run) && !HasPending(t.proposals, run) && NothingToMaterialize(t, run)
  }

  // ---------------------------------------------------------------- what the operations do

  /** The grants after `_persist_live` of a proposal. */
  function Persisted(t: Tables, pid: ProposalId, newId: GrantId): Grants
    requires pid in t.proposals
  {
    var run := t.proposals[pid].run;
    if HasGrant(t.grants, pid) || run.None? || !Open(t, run.value) || newId in t.grants then t.grants
    else t.grants[newId := Grant(run.value, true, pid)]
  }

  /** `get_live`: an approved proposal without a grant is materialized when nothing is live. */
  function Looked(t: Tables, run: RunId, newId: GrantId): Tables {
    var first := FirstApproved(t.inbox, t.proposals, run);
    if !Open(t, run) || HasLive(t.grants, run) || first.None? || first.value !in t.proposals then t
    else t.(grants := Persisted(t, first.value, newId))
  }

  /** `decide` on its own. */
  function Decided(t: Tables, pid: ProposalId, status: Status): Tables {
    if IsPending(t.proposals, pid) then t.(proposals := t.proposals[pid := t.proposals[pid].(status := status)])
    else t
  }

  /** `decide` with the callback that makes the grant live if it can. */
  function Activated(t: Tables, pid: ProposalId, newId: GrantId): Tables {
    var t' := Decided(t, pid, Approved);
    if IsPending(t.proposals, pid) then t'.(grants := Persisted(t', pid, newId)) else t'
  }

  /** `approve` */
  function WithApproval(t: Tables, pid: ProposalId, newId: GrantId, newId2: GrantId): Tables {
    if IsPending(t.proposals, pid) && t.proposals[pid].run.Some? then
      Looked(Activated(t, pid, newId), t.proposals[pid].run.value, newId2)
    else Activated(t, pid, newId)
  }

  function Min(a: nat, b: nat): nat {
    if a < b then a else b
  }

  /** A new proposal, wherever it lands in the inbox order. */
  function Inserted(t: Tables, pid: ProposalId, p: Proposal, at: nat): Tables {
    if pid in t.proposals then t
    else
      var i := Min(at, |t.inbox|);
      t.(proposals := t.proposals[pid := p], inbox := t.inbox[..i] + [pid] + t.inbox[i..])
  }

  /** What the approval rules' answer makes of a new proposal. */
  function Answered(verdict: Option<bool>): Status {
    match verdict
    case None => Pending
    case Some(allowed) => if allowed then Approved else Rejected
  }

  /** `submit` of a proposal for a run; `verdict` is the answer of the approval rules. */
  function Submitted(t: Tables, run: RunId, verdict: Option<bool>, pid: ProposalId, at: nat, newId: GrantId,
                     newId2: GrantId): Tables
  {
    var t' := Inserted(t, pid, Proposal(true, true, Some(run), Pending), at);
    match verdict
    case None => t'
    case Some(allowed) =>
      if allowed then Looked(Activated(t', pid, newId), run, newId2) else Decided(t', pid, Rejected)
  }

  /** `request` */
  function Requested(t: Tables, run: RunId, urlOk: bool, verdict: Option<bool>, pid: ProposalId, at: nat,
                     newId: GrantId, newId2: GrantId): Tables
  {
    var t' := Looked(t, run, newId);
    if !Idle(t', run) || !Open(t, run) || !urlOk || pid in t.proposals then t'
    else Submitted(t', run, verdict, pid, at, newId, newId2)
  }

  /** UPDATE browser_grants SET status='dead' WHERE run_id=? AND status='live' */
  function Dead(gs: Grants, run: RunId): Grants {
    map g | g in gs :: if IsLive(gs, g, run) then gs[g].(live := false) else gs[g]
  }

  function Expiring(ps: Proposals, run: RunId): Proposals {
    map pid | pid in ps :: if Is(ps, pid, run, Pending) then ps[pid].(status := Expired) else ps[pid]
  }

  /** `revoke_for_run` */
  function Revoked(t: Tables, run: RunId): Tables {
    t.(grants := Dead(t.grants, run), proposals := Expiring(t.proposals, run))
  }

  function Started(t: Tables, run: RunId): Tables {
    if run in t.finished then t else t.(finished := t.finished[run := false])
  }

  function Ending(t: Tables, run: RunId): Tables {
    if run in t.finished then t.(finished := t.finished[run := true]) else t
  }

  /** `complete_run`; the revocation is best effort. */
  function Completed(t: Tables, run: RunId, revokes: bool): Tables {
    if revokes then Revoked(Ending(t, run), run) else Ending(t, run)
  }

  /** `stage_edit` of a payload: neither the token nor `run_id` is a frozen key. */
  function Edited(t: Tables, pid: ProposalId, named: bool, run: Option<RunId>): Tables {
    if IsPending(t.proposals, pid) then
      t.(proposals := t.proposals[pid := t.proposals[pid].(named := named, run := run)])
    else t
  }

  datatype Op =
    | StartRun(run: RunId)
    | CompleteRun(run: RunId, revokes: bool)
    | RevokeForRun(run: RunId)
    | Request(run: RunId, urlOk: bool, verdict: Option<bool>, pid: ProposalId, at: nat, newId: GrantId, newId2: GrantId)
    | GetLive(run: RunId, newId: GrantId)
    | Decide(pid: ProposalId, status: Status)
    | Approve(pid: ProposalId, newId: GrantId, newId2: GrantId)
    | ProposeOther(pid: ProposalId, at: nat)                          // of another tool
    | StageEdit(pid: ProposalId, named: bool, target: Option<RunId>)

  function Do(t: Tables, op: Op): Tables {
    match op
    case StartRun(run) => Started(t, run)
    case CompleteRun(run, revokes) => Completed(t, run, revokes)
    case RevokeForRun(run) => Revoked(t, run)
    case Request(run, urlOk, verdict, pid, at, newId, newId2) =>
      Requested(t, run, urlOk, verdict, pid, at, newId, newId2)
    case GetLive(run, newId) => Looked(t, run, newId)
    case Decide(pid, status) => if status == Pending then t else Decided(t, pid, status)
    case Approve(pid, newId, newId2) => WithApproval(t, pid, newId, newId2)
    case ProposeOther(pid, at) => Inserted(t, pid, Proposal(false, false, None, Pending), at)
    case StageEdit(pid, named, target) => Edited(t, pid, named, target)
  }

  function After(t: Tables, ops: seq<Op>): Tables {
    if ops == [] then t else Do(After(t, ops[..|ops| - 1]), ops[|ops| - 1])
  }

  // ---------------------------------------------------------------- the rule and what keeps it

  /** A grant belongs to an approved proposal with its run, and a proposal has one grant at most. */
  ghost predicate GrantInv(t: Tables, g: GrantId) {
    g in t.grants ==>
      && t.grants[g].proposal in t.proposals && t.proposals[t.grants[g].proposal].status == Approved
      && t.proposals[t.grants[g].proposal].run == Some(t.grants[g].run)
      && forall h :: h in t.grants && h != g ==> t.grants[h].proposal != t.grants[g].proposal
  }

  /** What every operation keeps, whatever edits there were. */
  ghost predicate Sound(t: Tables) {
    && (forall g :: GrantInv(t, g))
    && (forall pid :: pid in t.inbox <==> pid in t.proposals)
  }

  predicate OneLive(t: Tables, run: RunId) {
    forall g, h :: g in t.grants && h in t.grants && IsLive(t.grants, g, run) && IsLive(t.grants, h, run) ==> g == h
  }

  /** While a proposal for a run that has not ended is pending, it can be seen to be for that run and
      is the only one, the run has no live grant, and none can be materialized. */
  ghost predicate PendingInv(t: Tables, pid: ProposalId) {
    IsPending(t.proposals, pid) && t.proposals[pid].run.Some? && !Ended(t, t.proposals[pid].run.value) ==>
      var run := t.proposals[pid].run.value;
      && Targets(t.proposals[pid], run) && !HasLive(t.grants, run) && NothingToMaterialize(t, run)
      && forall q :: Is(t.proposals, q, run, Pending) ==> q == pid
  }

  ghost predicate Valid(t: Tables) {
    && Sound(t)
    && (forall run :: OneLive(t, run))
    && (forall pid :: PendingInv(t, pid))
  }

  /** Every operation but some edits: an edit that points a pending proposal at a run keeps the rule
      if that run has ended, or if the proposal is seen to be for it and was before, or nothing else
      is going on for that run. */
  predicate Harmless(t: Tables, op: Op) {
    op.StageEdit? && IsPending(t.proposals, op.pid) && op.target.Some? && !Ended(t, op.target.value) ==>
      && (t.proposals[op.pid].browser || op.named)
      && (Targets(t.proposals[op.pid], op.target.value) || Idle(t, op.target.value))
  }

  // ---------------------------------------------------------------- what the inbox scan meets

  lemma {:induction false} FirstApprovedIs(inbox: seq<ProposalId>, ps: Proposals, run: RunId)
    ensures FirstApproved(inbox, ps, run).Some? ==>
      FirstApproved(inbox, ps, run).value in inbox && Is(ps, FirstApproved(inbox, ps, run).value, run, Approved)
  {
    if inbox != [] && !Is(ps, inbox[0], run, Approved) {
      FirstApprovedIs(inbox[1..], ps, run);
    }
  }

  lemma {:induction false} FirstApprovedSame(inbox: seq<ProposalId>, ps: Proposals, ps': Proposals, run: RunId)
    requires forall pid :: pid in inbox ==> (Is(ps, pid, run, Approved) <==> Is(ps', pid, run, Approved))
    ensures FirstApproved(inbox, ps, run) == FirstApproved(inbox, ps', run)
  {
    if inbox != [] {
      assert inbox[0] in inbox;
      FirstApprovedSame(inbox[1..], ps, ps', run);
    }
  }

  /** A new row that is not approved does not change what the scan meets first, wherever it lands. */
  lemma {:induction false} FirstApprovedInserted(inbox: seq<ProposalId>, at: nat, pid: ProposalId, ps: Proposals,
                                                 run: RunId)
    requires at <= |inbox| && !Is(ps, pid, run, Approved)
    ensures FirstApproved(inbox[..at] + [pid] + inbox[at..], ps, run) == FirstApproved(inbox, ps, run)
  {
    var longer := inbox[..at] + [pid] + inbox[at..];
    if at == 0 {
      assert longer[1..] == inbox;
    } else {
      assert longer[1..] == inbox[1..][..at - 1] + [pid] + inbox[1..][at - 1..];
      FirstApprovedInserted(inbox[1..], at - 1, pid, ps, run);
    }
  }

  // ---------------------------------------------------------------- each operation keeps the tables sound

  /** A step that neither takes a grant away nor changes an approved proposal. */
  ghost predicate Onward(t: Tables, t': Tables) {
    && (forall g :: g in t.grants ==>
          && g in t'.grants && t'.grants[g].run == t.grants[g].run && t'.grants[g].proposal == t.grants[g].proposal
          && (t'.grants[g].live ==> t.grants[g].live))
    && (forall pid :: pid in t.proposals && t.proposals[pid].status == Approved ==>
          pid in t'.proposals && t'.proposals[pid] == t.proposals[pid])
    && (forall run :: Ended(t, run) ==> Ended(t', run))
    && (forall g :: g in t'.grants && g !in t.grants ==> Open(t', t'.grants[g].run))
  }

  lemma OnwardTwice(t: Tables, t1: Tables, t2: Tables)
    requires Onward(t, t1) && Onward(t1, t2)
    requires forall run :: Open(t1, run) ==> Open(t2, run)
    ensures Onward(t, t2)
  {
  }

  /** The grants stay as they are. */
  lemma SameGrantsSound(t: Tables, t': Tables)
    requires Sound(t) && t'.grants == t.grants && Onward(t, t')
    requires forall pid :: pid in t'.inbox <==> pid in t'.proposals
    ensures Sound(t')
  {
    forall g ensures GrantInv(t', g) { assert GrantInv(t, g); }
  }

  lemma PersistedSound(t: Tables, pid: ProposalId, newId: GrantId)
    requires Sound(t) && pid in t.proposals && t.proposals[pid].status == Approved
    ensures Sound(t.(grants := Persisted(t, pid, newId))) && Onward(t, t.(grants := Persisted(t, pid, newId)))
  {
    var t' := t.(grants := Persisted(t, pid, newId));
    forall g ensures GrantInv(t', g) {
      assert GrantInv(t, g);
      if t'.grants != t.grants && g in t.grants {
        assert t.grants[g].proposal != pid;
      }
    }
  }

  lemma LookedSound(t: Tables, run: RunId, newId: GrantId)
    requires Sound(t)
    ensures Sound(Looked(t, run, newId)) && Onward(t, Looked(t, run, newId))
  {
    FirstApprovedIs(t.inbox, t.proposals, run);
    var first := FirstApproved(t.inbox, t.proposals, run);
    if first.Some? {
      PersistedSound(t, first.value, newId);
    }
  }

  lemma DecidedSound(t: Tables, pid: ProposalId, status: Status)
    requires Sound(t)
    ensures Sound(Decided(t, pid, status)) && Onward(t, Decided(t, pid, status))
  {
    SameGrantsSound(t, Decided(t, pid, status));
  }

  lemma ActivatedSound(t: Tables, pid: ProposalId, newId: GrantId)
    requires Sound(t)
    ensures Sound(Activated(t, pid, newId)) && Onward(t, Activated(t, pid, newId))
  {
    DecidedSound(t, pid, Approved);
    if IsPending(t.proposals, pid) {
      PersistedSound(Decided(t, pid, Approved), pid, newId);
      OnwardTwice(t, Decided(t, pid, Approved), Activated(t, pid, newId));
    }
  }

  lemma ApprovalSound(t: Tables, pid: ProposalId, newId: GrantId, newId2: GrantId)
    requires Sound(t)
    ensures Sound(WithApproval(t, pid, newId, newId2)) && Onward(t, WithApproval(t, pid, newId, newId2))
  {
    hide Sound, Onward;
    ActivatedSound(t, pid, newId);
    if IsPending(t.proposals, pid) && t.proposals[pid].run.Some? {
      var run := t.proposals[pid].run.value;
      LookedSound(Activated(t, pid, newId), run, newId2);
      OnwardTwice(t, Activated(t, pid, newId), Looked(Activated(t, pid, newId), run, newId2));
    }
  }

  lemma InsertedSound(t: Tables, pid: ProposalId, p: Proposal, at: nat)
    requires Sound(t)
    ensures Sound(Inserted(t, pid, p, at)) && Onward(t, Inserted(t, pid, p, at))
  {
    SameGrantsSound(t, Inserted(t, pid, p, at));
  }

  lemma SubmittedSound(t: Tables, run: RunId, verdict: Option<bool>, pid: ProposalId, at: nat, newId: GrantId,
                       newId2: GrantId)
    requires Sound(t)
    ensures var t' := Submitted(t, run, verdict, pid, at, newId, newId2); Sound(t') && Onward(t, t')
  {
    hide Sound, Onward;
    var t1 := Inserted(t, pid, Proposal(true, true, Some(run), Pending), at);
    InsertedSound(t, pid, Proposal(true, true, Some(run), Pending), at);
    if verdict == Some(true) {
      var t2 := Activated(t1, pid, newId);
      ActivatedSound(t1, pid, newId);
      LookedSound(t2, run, newId2);
      OnwardTwice(t, t1, t2);
      OnwardTwice(t, t2, Looked(t2, run, newId2));
    } else if verdict == Some(false) {
      DecidedSound(t1, pid, Rejected);
      OnwardTwice(t, t1, Decided(t1, pid, Rejected));
    }
  }

  lemma RequestedSound(t: Tables, run: RunId, urlOk: bool, verdict: Option<bool>, pid: ProposalId, at: nat,
                       newId: GrantId, newId2: GrantId)
    requires Sound(t)
    ensures var t' := Requested(t, run, urlOk, verdict, pid, at, newId, newId2); Sound(t') && Onward(t, t')
  {
    hide Sound, Onward, Submitted, Idle;
    LookedSound(t, run, newId);
    SubmittedSound(Looked(t, run, newId), run, verdict, pid, at, newId, newId2);
    SameRuns(Looked(t, run, newId), run, verdict, pid, at, newId, newId2);
    OnwardTwice(t, Looked(t, run, newId), Submitted(Looked(t, run, newId), run, verdict, pid, at, newId, newId2));
  }

  lemma SameRuns(t: Tables, run: RunId, verdict: Option<bool>, pid: ProposalId, at: nat, newId: GrantId,
                 newId2: GrantId)
    ensures Submitted(t, run, verdict, pid, at, newId, newId2).finished == t.finished
  {
  }

  lemma DeadSound(t: Tables, run: RunId)
    requires Sound(t)
    ensures Sound(t.(grants := Dead(t.grants, run)))
  {
    var t' := t.(grants := Dead(t.grants, run));
    forall g ensures GrantInv(t', g) { assert GrantInv(t, g); }
  }

  lemma RevokedSound(t: Tables, run: RunId)
    requires Sound(t)
    ensures Sound(Revoked(t, run)) && Onward(t, Revoked(t, run))
  {
    var t' := Revoked(t, run);
    forall g ensures GrantInv(t', g) { assert GrantInv(t, g); }
  }

  lemma CompletedSound(t: Tables, run: RunId, revokes: bool)
    requires Sound(t)
    ensures Sound(Completed(t, run, revokes)) && Onward(t, Completed(t, run, revokes))
  {
    var t1 := Ending(t, run);
    SameGrantsSound(t, t1);
    if revokes {
      RevokedSound(t1, run);
      OnwardTwice(t, t1, Revoked(t1, run));
    }
  }

  /** Whatever is done, edits included: the tables stay sound, no dead grant comes back, no approved
      proposal changes, no run reopens, and new grants are for open runs. */
  lemma DoSound(t: Tables, op: Op)
    requires Sound(t)
    ensures Sound(Do(t, op)) && Onward(t, Do(t, op))
  {
    match op
    case StartRun(run) => SameGrantsSound(t, Started(t, run));
    case CompleteRun(run, revokes) => CompletedSound(t, run, revokes);
    case RevokeForRun(run) => RevokedSound(t, run);
    case Request(run, urlOk, verdict, pid, at, newId, newId2) =>
      RequestedSound(t, run, urlOk, verdict, pid, at, newId, newId2);
    case GetLive(run, newId) => LookedSound(t, run, newId);
    case Decide(pid, status) => DecidedSound(t, pid, status);
    case Approve(pid, newId, newId2) => ApprovalSound(t, pid, newId, newId2);
    case ProposeOther(pid, at) => InsertedSound(t, pid, Proposal(false, false, None, Pending), at);
    case StageEdit(pid, named, target) => SameGrantsSound(t, Edited(t, pid, named, target));
  }

  /** Over any history, a dead grant never becomes live again, and a run that has ended without a
      live grant never gets one. */
  lemma {:induction false} DeadForever(t: Tables, ops: seq<Op>)
    requires Sound(t)
    ensures Sound(After(t, ops))
    ensures var t' := After(t, ops);
      && (forall g :: g in t.grants && !t.grants[g].live ==> g in t'.grants && !t'.grants[g].live)
      && (forall run :: Ended(t, run) && !HasLive(t.grants, run) ==> Ended(t', run) && !HasLive(t'.grants, run))
  {
    if ops != [] {
      var last := After(t, ops[..|ops| - 1]);
      DeadForever(t, ops[..|ops| - 1]);
      DoSound(last, ops[|ops| - 1]);
      var t' := After(t, ops);
      forall run | Ended(t, run) && !HasLive(t.grants, run) ensures !HasLive(t'.grants, run) {
        forall g | g in t'.grants ensures !IsLive(t'.grants, g, run) {
          assert Ended(last, run);
          assert g in last.grants ==> !IsLive(last.grants, g, run);
        }
      }
    }
  }

  // ---------------------------------------------------------------- each operation keeps the rule

  /** Nothing new is live, nothing new is pending, and what the inbox scan meets first keeps its
      grant. */
  lemma QuietKeeps(t: Tables, t': Tables)
    requires Valid(t) && Sound(t') && Onward(t, t')
    requires forall g :: g in t'.grants ==> g in t.grants
    requires forall pid :: IsPending(t'.proposals, pid) ==>
      && IsPending(t.proposals, pid) && t'.proposals[pid] == t.proposals[pid]
      && (t.proposals[pid].run.Some? && !Ended(t, t.proposals[pid].run.value) ==>
            FirstApproved(t'.inbox, t'.proposals, t.proposals[pid].run.value) ==
              FirstApproved(t.inbox, t.proposals, t.proposals[pid].run.value))
    ensures Valid(t')
  {
    forall run ensures OneLive(t', run) {
      assert OneLive(t, run);
    }
    forall pid ensures PendingInv(t', pid) {
      assert PendingInv(t, pid);
      if IsPending(t'.proposals, pid) && t'.proposals[pid].run.Some? && !Ended(t', t'.proposals[pid].run.value) {
        var run := t'.proposals[pid].run.value;
        forall g | g in t'.grants ensures !IsLive(t'.grants, g, run) {
          assert !IsLive(t.grants, g, run);
        }
        forall q ensures Is(t'.proposals, q, run, Pending) ==> q == pid {
          assert Is(t'.proposals, q, run, Pending) ==> Is(t.proposals, q, run, Pending);
        }
        if FirstApproved(t.inbox, t.proposals, run).Some? {
          var g :| g in t.grants && t.grants[g].proposal == FirstApproved(t.inbox, t.proposals, run).value;
          assert g in t'.grants && t'.grants[g].proposal == t.grants[g].proposal;
        }
      }
    }
  }

  lemma DecidedValid(t: Tables, pid: ProposalId, status: Status)
    requires Valid(t) && status != Pending
    ensures Valid(Decided(t, pid, status))
  {
    var t' := Decided(t, pid, status);
    DecidedSound(t, pid, status);
    forall q | IsPending(t'.proposals, q) && t.proposals[q].run.Some?
      ensures FirstApproved(t'.inbox, t'.proposals, t.proposals[q].run.value) ==
        FirstApproved(t.inbox, t.proposals, t.proposals[q].run.value) || Ended(t, t.proposals[q].run.value)
    {
      var run := t.proposals[q].run.value;
      assert PendingInv(t, q);
      if !Ended(t, run) {
        assert Is(t.proposals, pid, run, Pending) ==> pid == q;
        FirstApprovedSame(t.inbox, t.proposals, t'.proposals, run);
      }
    }
    QuietKeeps(t, t');
  }

  /** A grant for an approved proposal of a run that has nothing live and nothing pending. */
  lemma PersistedValid(t: Tables, pid: ProposalId, newId: GrantId)
    requires Valid(t) && pid in t.proposals && t.proposals[pid].status == Approved
    requires t.proposals[pid].run.Some? ==>
      var run := t.proposals[pid].run.value;
      !HasLive(t.grants, run) && forall q :: !(IsPending(t.proposals, q) && t.proposals[q].run == Some(run))
    ensures Valid(t.(grants := Persisted(t, pid, newId)))
  {
    var t' := t.(grants := Persisted(t, pid, newId));
    PersistedSound(t, pid, newId);
    if t'.grants != t.grants {
      forall run ensures OneLive(t', run) {
        assert OneLive(t, run);
        assert forall g :: g in t'.grants && IsLive(t'.grants, g, run) ==> g == newId || IsLive(t.grants, g, run);
      }
      forall q ensures PendingInv(t', q) {
        assert PendingInv(t, q);
        if IsPending(t'.proposals, q) && t'.proposals[q].run.Some? && !Ended(t', t'.proposals[q].run.value) {
          var run := t'.proposals[q].run.value;
          forall g | g in t'.grants ensures !IsLive(t'.grants, g, run) {
            assert g in t.grants ==> !IsLive(t.grants, g, run);
          }
          if FirstApproved(t.inbox, t.proposals, run).Some? {
            var g :| g in t.grants && t.grants[g].proposal == FirstApproved(t.inbox, t.proposals, run).value;
            assert g in t'.grants && t'.grants[g].proposal == t.grants[g].proposal;
          }
        }
      }
    }
  }

  lemma LookedValid(t: Tables, run: RunId, newId: GrantId)
    requires Valid(t)
    ensures Valid(Looked(t, run, newId))
  {
    FirstApprovedIs(t.inbox, t.proposals, run);
    var first := FirstApproved(t.inbox, t.proposals, run);
    if first.Some? && Open(t, run) && !HasLive(t.grants, run) && !HasGrant(t.grants, first.value) {
      forall q ensures !(IsPending(t.proposals, q) && t.proposals[q].run == Some(run)) {
        assert PendingInv(t, q);
      }
      PersistedValid(t, first.value, newId);
    }
  }

  lemma ActivatedValid(t: Tables, pid: ProposalId, newId: GrantId)
    requires Valid(t)
    ensures Valid(Activated(t, pid, newId))
  {
    DecidedValid(t, pid, Approved);
    if IsPending(t.proposals, pid) {
      var t1 := Decided(t, pid, Approved);
      assert PendingInv(t, pid);
      if t.proposals[pid].run.Some? && !Ended(t, t.proposals[pid].run.value) {
        var run := t.proposals[pid].run.value;
        forall q ensures !(IsPending(t1.proposals, q) && t1.proposals[q].run == Some(run)) {
          assert PendingInv(t, q);
          assert Is(t.proposals, pid, run, Pending);
        }
        PersistedValid(t1, pid, newId);
      }
    }
  }

  lemma ApprovalValid(t: Tables, pid: ProposalId, newId: GrantId, newId2: GrantId)
    requires Valid(t)
    ensures Valid(WithApproval(t, pid, newId, newId2))
  {
    hide Valid;
    ActivatedValid(t, pid, newId);
    if IsPending(t.proposals, pid) && t.proposals[pid].run.Some? {
      LookedValid(Activated(t, pid, newId), t.proposals[pid].run.value, newId2);
    }
  }

  lemma SameBut(t: Tables, t': Tables, pid: ProposalId, q: ProposalId, run: RunId)
    requires q != pid && q in t'.proposals ==> q in t.proposals && t'.proposals[q] == t.proposals[q]
    ensures q != pid && Is(t'.proposals, q, run, Pending) ==> Is(t.proposals, q, run, Pending)
  {
  }

  /** A new pending proposal for no run, or seen to be for an idle one. */
  lemma InsertedValid(t: Tables, pid: ProposalId, p: Proposal, at: nat)
    requires Valid(t) && pid !in t.proposals && p.status == Pending
    requires p.run.Some? ==> Targets(p, p.run.value) && Idle(t, p.run.value)
    ensures Valid(Inserted(t, pid, p, at))
  {
    var t' := Inserted(t, pid, p, at);
    InsertedSound(t, pid, p, at);
    forall run ensures OneLive(t', run) { assert OneLive(t, run); }
    forall q ensures PendingInv(t', q) {
      assert PendingInv(t, q);
      if IsPending(t'.proposals, q) && t'.proposals[q].run.Some? && !Ended(t, t'.proposals[q].run.value) {
        var run := t'.proposals[q].run.value;
        FirstApprovedInserted(t.inbox, Min(at, |t.inbox|), pid, t'.proposals, run);
        FirstApprovedSame(t.inbox, t.proposals, t'.proposals, run);
        forall r ensures Is(t'.proposals, r, run, Pending) ==> r == q {
          SameBut(t, t', pid, r, run);
          SameBut(t, t', pid, q, run);
        }
      }
    }
  }

  lemma SubmittedValid(t: Tables, run: RunId, verdict: Option<bool>, pid: ProposalId, at: nat, newId: GrantId,
                       newId2: GrantId)
    requires Valid(t) && pid !in t.proposals && Idle(t, run)
    ensures Valid(Submitted(t, run, verdict, pid, at, newId, newId2))
  {
    hide Valid, Idle;
    var t1 := Inserted(t, pid, Proposal(true, true, Some(run), Pending), at);
    InsertedValid(t, pid, Proposal(true, true, Some(run), Pending), at);
    if verdict == Some(true) {
      ActivatedValid(t1, pid, newId);
      LookedValid(Activated(t1, pid, newId), run, newId2);
    } else if verdict == Some(false) {
      DecidedValid(t1, pid, Rejected);
    }
  }

  lemma RequestedValid(t: Tables, run: RunId, urlOk: bool, verdict: Option<bool>, pid: ProposalId, at: nat,
                       newId: GrantId, newId2: GrantId)
    requires Valid(t)
    ensures Valid(Requested(t, run, urlOk, verdict, pid, at, newId, newId2))
  {
    hide Valid, Idle, Submitted;
    LookedValid(t, run, newId);
    var t1 := Looked(t, run, newId);
    if pid !in t.proposals && Idle(t1, run) {
      SubmittedValid(t1, run, verdict, pid, at, newId, newId2);
    }
  }

  lemma RevokedValid(t: Tables, run: RunId)
    requires Valid(t)
    ensures Valid(Revoked(t, run))
    ensures !HasLive(Revoked(t, run).grants, run) && !HasPending(Revoked(t, run).proposals, run)
  {
    var t' := Revoked(t, run);
    RevokedSound(t, run);
    forall pid | IsPending(t'.proposals, pid) && t.proposals[pid].run.Some? {
      FirstApprovedSame(t.inbox, t.proposals, t'.proposals, t.proposals[pid].run.value);
    }
    QuietKeeps(t, t');
  }

  lemma EndingValid(t: Tables, run: RunId)
    requires Valid(t)
    ensures Valid(Ending(t, run))
  {
    SameGrantsSound(t, Ending(t, run));
    QuietKeeps(t, Ending(t, run));
  }

  lemma StartedValid(t: Tables, run: RunId)
    requires Valid(t)
    ensures Valid(Started(t, run))
  {
    SameGrantsSound(t, Started(t, run));
    QuietKeeps(t, Started(t, run));
  }

  /** An edit keeps the rule exactly when it is harmless. */
  lemma EditedValidIff(t: Tables, pid: ProposalId, named: bool, target: Option<RunId>)
    requires Valid(t)
    ensures Valid(Edited(t, pid, named, target)) <==> Harmless(t, StageEdit(pid, named, target))
  {
    var t' := Edited(t, pid, named, target);
    SameGrantsSound(t, t');
    forall run { FirstApprovedSame(t.inbox, t.proposals, t'.proposals, run); }
    if Harmless(t, StageEdit(pid, named, target)) {
      EditedValid(t, pid, named, target);
    } else if Valid(t') {
      var run := target.value;
      assert PendingInv(t', pid);
      forall q | q in t.proposals ensures !Is(t.proposals, q, run, Pending) {
        assert Is(t.proposals, q, run, Pending) && q != pid ==> Is(t'.proposals, q, run, Pending);
      }
    }
  }

  lemma EditedValid(t: Tables, pid: ProposalId, named: bool, target: Option<RunId>)
    requires Valid(t) && Harmless(t, StageEdit(pid, named, target))
    ensures Valid(Edited(t, pid, named, target))
  {
    hide PendingInv, Harmless;
    var t' := Edited(t, pid, named, target);
    SameGrantsSound(t, t');
    forall run ensures OneLive(t', run) { assert OneLive(t, run); }
    forall q ensures PendingInv(t', q) {
      assert PendingInv(t, q) && PendingInv(t, pid);
      EditedPending(t, pid, named, target, q);
    }
  }

  lemma EditedPending(t: Tables, pid: ProposalId, named: bool, target: Option<RunId>, q: ProposalId)
    requires PendingInv(t, q) && PendingInv(t, pid) && Harmless(t, StageEdit(pid, named, target))
    ensures PendingInv(Edited(t, pid, named, target), q)
  {
    var t' := Edited(t, pid, named, target);
    if IsPending(t'.proposals, q) && t'.proposals[q].run.Some? && !Ended(t, t'.proposals[q].run.value) {
      var run := t'.proposals[q].run.value;
      FirstApprovedSame(t.inbox, t.proposals, t'.proposals, run);
      forall r ensures Is(t'.proposals, r, run, Pending) ==> r == q {
        SameBut(t, t', pid, r, run);
        SameBut(t, t', pid, q, run);
      }
    }
  }

  /** Every operation but a harmful edit keeps the rule. */
  lemma DoValid(t: Tables, op: Op)
    requires Valid(t) && Harmless(t, op)
    ensures Valid(Do(t, op))
  {
    hide Valid, Harmless;
    match op
    case StartRun(run) => StartedValid(t, run);
    case CompleteRun(run, revokes) =>
      EndingValid(t, run);
      if revokes { RevokedValid(Ending(t, run), run); }
    case RevokeForRun(run) => RevokedValid(t, run);
    case Request(run, urlOk, verdict, pid, at, newId, newId2) =>
      RequestedValid(t, run, urlOk, verdict, pid, at, newId, newId2);
    case GetLive(run, newId) => LookedValid(t, run, newId);
    case Decide(pid, status) => if status != Pending { DecidedValid(t, pid, status); }
    case Approve(pid, newId, newId2) => ApprovalValid(t, pid, newId, newId2);
    case ProposeOther(pid, at) =>
      if pid !in t.proposals { InsertedValid(t, pid, Proposal(false, false, None, Pending), at); }
    case StageEdit(pid, named, target) => EditedValid(t, pid, named, target);
  }

  predicate HarmlessAll(t: Tables, ops: seq<Op>) {
    forall i :: 0 <= i < |ops| ==> Harmless(After(t, ops[..i]), ops[i])
  }

  /** Over any history without a harmful edit every run has at most one live grant, and that one
      was approved. */
  lemma {:induction false} OneLiveGrantPerRun(t: Tables, ops: seq<Op>)
    requires Valid(t) && HarmlessAll(t, ops)
    ensures Valid(After(t, ops))
    ensures forall run: RunId, g, h :: var gs := After(t, ops).grants;
      IsLive(gs, g, run) && IsLive(gs, h, run) ==>
        g == h && gs[g].proposal in After(t, ops).proposals
        && After(t, ops).proposals[gs[g].proposal].status == Approved
        && After(t, ops).proposals[gs[g].proposal].run == Some(run)
  {
    hide Harmless, Do, Valid;
    var t' := After(t, ops);
    if ops != [] {
      var n := |ops| - 1;
      assert forall i :: 0 <= i < n ==> ops[..n][..i] == ops[..i] && ops[..n][i] == ops[i];
      OneLiveGrantPerRun(t, ops[..n]);
      assert Harmless(After(t, ops[..n]), ops[n]);
      DoValid(After(t, ops[..n]), ops[n]);
    }
    OneLiveGrant(t');
  }

  lemma OneLiveGrant(t: Tables)
    requires Valid(t)
    ensures forall run: RunId, g, h :: IsLive(t.grants, g, run) && IsLive(t.grants, h, run) ==>
      && g == h && t.grants[g].proposal in t.proposals
      && t.proposals[t.grants[g].proposal].status == Approved
      && t.proposals[t.grants[g].proposal].run == Some(run)
  {
    forall run: RunId, g, h | IsLive(t.grants, g, run) && IsLive(t.grants, h, run)
      ensures g == h && t.grants[g].proposal in t.proposals
        && t.proposals[t.grants[g].proposal].status == Approved
        && t.proposals[t.grants[g].proposal].run == Some(run)
    {
      assert OneLive(t, run) && GrantInv(t, g);
    }
  }

  // ---------------------------------------------------------------- exactly which edits break the rule

  predicate NoEdits(ops: seq<Op>) {
    forall i :: 0 <= i < |ops| ==> !ops[i].StageEdit?
  }

  ghost predicate TwoLive(t: Tables) {
    exists run: RunId, g, h :: g != h && IsLive(t.grants, g, run) && IsLive(t.grants, h, run)
  }

  /** From tables that keep the rule: after an edit, two live grants of one run can be reached by
      some operations without any further edit if and only if the edit is not harmless. */
  lemma TwoLiveReachableIff(t: Tables, pid: ProposalId, named: bool, target: Option<RunId>)
    requires Valid(t)
    ensures (exists ops :: NoEdits(ops) && TwoLive(After(Edited(t, pid, named, target), ops))) <==>
      !Harmless(t, StageEdit(pid, named, target))
  {
    var t' := Edited(t, pid, named, target);
    if Harmless(t, StageEdit(pid, named, target)) {
      EditedValid(t, pid, named, target);
      forall ops | NoEdits(ops) ensures !TwoLive(After(t', ops)) {
        NeverTwo(t', ops);
      }
    } else {
      var ops := BreaksTheRule(t, pid, named, target);
      assert NoEdits(ops) && TwoLive(After(t', ops));
    }
  }

  lemma NeverTwo(t: Tables, ops: seq<Op>)
    requires Valid(t) && NoEdits(ops)
    ensures !TwoLive(After(t, ops))
  {
    assert HarmlessAll(t, ops);
    OneLiveGrantPerRun(t, ops);
  }

  /** After a harmful edit: start the run if it is not there yet, get one grant of it live, and
      approve the edited proposal. */
  lemma BreaksTheRule(t: Tables, pid: ProposalId, named: bool, target: Option<RunId>) returns (ops: seq<Op>)
    requires Valid(t) && !Harmless(t, StageEdit(pid, named, target))
    ensures NoEdits(ops) && TwoLive(After(Edited(t, pid, named, target), ops))
  {
    hide Valid, Onward;
    var run := target.value;
    var t' := Edited(t, pid, named, target);
    DoSound(t, StageEdit(pid, named, target)) by { ValidIsSound(t); }
    FirstApprovedSame(t.inbox, t.proposals, t'.proposals, run);
    var t1 := Do(t', StartRun(run));
    DoSound(t', StartRun(run));
    if HasPending(t.proposals, run) && !Targets(t.proposals[pid], run) {
      var q :| q in t.proposals && Is(t.proposals, q, run, Pending);
      assert q != pid && Is(t1.proposals, q, run, Pending);
    }
    var first, g := OneGrantLive(t1, pid, run);
    var t2 := After(t1, first);
    var second, h := ItsGrantLive(t2, pid, run, g);
    ops := [StartRun(run)] + first + second;
    AfterOne(t', StartRun(run));
    AfterBoth(t', [StartRun(run)], first);
    AfterBoth(t', [StartRun(run)] + first, second);
    assert g != h && IsLive(After(t', ops).grants, g, run) && IsLive(After(t', ops).grants, h, run);
  }

  lemma ValidIsSound(t: Tables)
    requires Valid(t)
    ensures Sound(t)
  {
  }

  /** Something else than `pid` can get a live grant of the run. */
  predicate Rivalled(t: Tables, pid: ProposalId, run: RunId) {
    || HasLive(t.grants, run)
    || !NothingToMaterialize(t, run)
    || (exists q :: q in t.proposals && q != pid && Is(t.proposals, q, run, Pending))
    || (IsPending(t.proposals, pid) && !Targets(t.proposals[pid], run))
  }

  lemma OneGrantLive(t: Tables, pid: ProposalId, run: RunId) returns (ops: seq<Op>, g: GrantId)
    requires Sound(t) && Open(t, run) && IsPending(t.proposals, pid) && t.proposals[pid].run == Some(run)
    requires Rivalled(t, pid, run)
    ensures NoEdits(ops)
    ensures var t' := After(t, ops);
      && Sound(t') && Open(t', run) && IsLive(t'.grants, g, run)
      && pid in t'.proposals && t'.proposals[pid] == t.proposals[pid]
  {
    hide Sound, Onward, Looked, WithApproval, Requested, NothingToMaterialize, After;
    g := Fresh(t.grants.Keys);
    if HasLive(t.grants, run) {
      g :| g in t.grants && IsLive(t.grants, g, run);
      ops := [];
      AfterNothing(t);
    } else if !NothingToMaterialize(t, run) {
      ops := [GetLive(run, g)];
      AfterOne(t, ops[0]);
      LookedIsGranted(t, run, g);
      LookedSound(t, run, g);
    } else if exists q :: q in t.proposals && q != pid && Is(t.proposals, q, run, Pending) {
      var q :| q in t.proposals && q != pid && Is(t.proposals, q, run, Pending);
      ops := [Approve(q, g, g)];
      AfterOne(t, ops[0]);
      PendingIsGranted(t, q, run, g, g);
      ApprovalSound(t, q, g, g);
    } else {
      NothingElse(t, pid, run);
      var p := Fresh(t.proposals.Keys);
      ops := [Request(run, true, Some(true), p, 0, g, g)];
      AfterOne(t, ops[0]);
      RequestIsGranted(t, run, p, g);
      RequestedSound(t, run, true, Some(true), p, 0, g, g);
    }
  }

  lemma NothingElse(t: Tables, pid: ProposalId, run: RunId)
    requires Rivalled(t, pid, run) && !HasLive(t.grants, run) && NothingToMaterialize(t, run)
    requires !(exists q :: q in t.proposals && q != pid && Is(t.proposals, q, run, Pending))
    ensures Idle(t, run)
  {
  }

  lemma LookedIsGranted(t: Tables, run: RunId, g: GrantId)
    requires Open(t, run) && !HasLive(t.grants, run) && !NothingToMaterialize(t, run) && g !in t.grants
    ensures IsLive(Looked(t, run, g).grants, g, run) && Looked(t, run, g) == t.(grants := Looked(t, run, g).grants)
  {
    FirstApprovedIs(t.inbox, t.proposals, run);
  }

  /** Approving a pending proposal of an open run makes its grant live. */
  lemma PendingIsGranted(t: Tables, pid: ProposalId, run: RunId, g: GrantId, g2: GrantId)
    requires Sound(t) && Open(t, run) && IsPending(t.proposals, pid) && t.proposals[pid].run == Some(run)
    requires g !in t.grants
    ensures g in Activated(t, pid, g).grants && IsLive(Activated(t, pid, g).grants, g, run)
    ensures WithApproval(t, pid, g, g2) == Activated(t, pid, g) == t.(
      proposals := t.proposals[pid := t.proposals[pid].(status := Approved)],
      grants := t.grants[g := Grant(run, true, pid)])
  {
    NoGrantYet(t, pid);
    assert g in Activated(t, pid, g).grants && IsLive(Activated(t, pid, g).grants, g, run);
  }

  lemma NoGrantYet(t: Tables, pid: ProposalId)
    requires Sound(t) && (pid in t.proposals ==> t.proposals[pid].status != Approved)
    ensures !HasGrant(t.grants, pid)
  {
    forall g | g in t.grants ensures t.grants[g].proposal != pid {
      assert GrantInv(t, g);
    }
  }

  lemma RequestIsGranted(t: Tables, run: RunId, pid: ProposalId, g: GrantId)
    requires Sound(t) && Open(t, run) && Idle(t, run) && pid !in t.proposals && g !in t.grants
    ensures var t' := Requested(t, run, true, Some(true), pid, 0, g, g);
      && t'.finished == t.finished && t'.grants == t.grants[g := Grant(run, true, pid)]
      && forall q :: q in t.proposals ==> q in t'.proposals && t'.proposals[q] == t.proposals[q]
  {
    NoGrantYet(t, pid);
    FirstApprovedIs(t.inbox, t.proposals, run);
    assert Looked(t, run, g) == t;
    var t1 := Inserted(t, pid, Proposal(true, true, Some(run), Pending), 0);
    assert g in Activated(t1, pid, g).grants && IsLive(Activated(t1, pid, g).grants, g, run);
  }

  lemma ItsGrantLive(t: Tables, pid: ProposalId, run: RunId, g: GrantId) returns (ops: seq<Op>, h: GrantId)
    requires Sound(t) && Open(t, run) && IsPending(t.proposals, pid) && t.proposals[pid].run == Some(run)
    requires IsLive(t.grants, g, run)
    ensures NoEdits(ops) && g != h
    ensures IsLive(After(t, ops).grants, g, run) && IsLive(After(t, ops).grants, h, run)
  {
    h := Fresh(t.grants.Keys);
    ops := [Approve(pid, h, h)];
    AfterOne(t, ops[0]);
    PendingIsGranted(t, pid, run, h, h);
  }

  lemma AfterNothing(t: Tables)
    ensures After(t, []) == t
  {
  }

  lemma AfterOne(t: Tables, op: Op)
    ensures After(t, [op]) == Do(t, op)
  {
    assert [op][..0] == [];
  }

  lemma {:induction false} AfterBoth(t: Tables, a: seq<Op>, b: seq<Op>)
    ensures After(t, a + b) == After(After(t, a), b)
  {
    if b == [] {
      assert a + b == a;
    } else {
      var n := |b| - 1;
      assert (a + b)[..|a + b| - 1] == a + b[..n];
      AfterBoth(t, a, b[..n]);
    }
  }

  /** There is always another id. */
  lemma Fresh(s: set<string>) returns (id: string)
    ensures id !in s
  {
    var longest := Longer(s);
    id := longest;
  }

  lemma {:induction false} Longer(s: set<string>) returns (id: string)
    ensures forall x :: x in s ==> |x| < |id|
  {
    if s == {} {
      id := "";
    } else {
      var x :| x in s;
      id := Longer(s - {x});
      id := id + x + "+";
      forall y | y in s ensures |y| < |id| {
        assert y != x ==> y in s - {x};
      }
    }
  }

  // ---------------------------------------------------------------- the store

  lemma InboxLists(t: Tables)
    requires Sound(t)
    ensures forall pid :: pid in t.inbox <==> pid in t.proposals
  {
  }

  class GrantStore {
    var finished: map<RunId, bool>
    var proposals: Proposals
    var inbox: seq<ProposalId>
    var grants: Grants

    ghost function State(): Tables
      reads this
    {
      Tables(finished, proposals, inbox, grants)
    }

    ghost predicate Consistent()
      reads this
    {
      Sound(State())
    }

    constructor ()
      ensures State() == NoTables && Consistent() && Valid(State())
    {
      finished, proposals, inbox, grants := map[], map[], [], map[];
    }

    method StartRun(run: RunId)
      requires Consistent()
      modifies this`finished
      ensures Consistent() && State() == Do(old(State()), Op.StartRun(run))
      ensures finished == if run in old(finished) then old(finished) else old(finished)[run := false]
    {
      DoSound(State(), Op.StartRun(run));
      if run !in finished {
        finished := finished[run := false];
      }
    }

    /** Make the grant of an approved proposal live, unless its grant has died or its run has ended. It
        does not look at other grants of the run: what keeps them apart is the rule. */
    method PersistLive(pid: ProposalId, newId: GrantId) returns (r: Result<GrantId, GrantError>)
      requires Consistent() && pid in proposals && proposals[pid].status == Approved
      modifies this`grants
      ensures Consistent() && grants == Persisted(old(State()), pid, newId)
      ensures forall g :: g in old(grants) && old(grants)[g].proposal == pid ==>
        r == if old(grants)[g].live then Ok(g) else Err(DeadGrant)
      ensures !HasGrant(old(grants), pid) ==>
        r == if proposals[pid].run.None? then Err(BadRun)
          else if proposals[pid].run.value !in finished then Err(RunNotFound)
          else if finished[proposals[pid].run.value] then Err(RunFinished)
          else if newId in old(grants) then Err(DuplicateId)
          else Ok(newId)
      ensures r.Ok? ==>
        proposals[pid].run.Some? && IsLive(grants, r.value, proposals[pid].run.value) && grants[r.value].proposal == pid
    {
      PersistedSound(State(), pid, newId);
      if HasGrant(grants, pid) {
        var g :| g in grants && grants[g].proposal == pid;
        assert GrantInv(State(), g);
        return if grants[g].live then Ok(g) else Err(DeadGrant);
      }
      var target := proposals[pid].run;
      if target.None? {
        return Err(BadRun);
      }
      var run := target.value;
      if run !in finished {
        return Err(RunNotFound);
      }
      if finished[run] {
        return Err(RunFinished);
      }
      if newId in grants {
        return Err(DuplicateId);
      }
      grants := grants[newId := Grant(run, true, pid)];
      return Ok(newId);
    }

    /** The live grant of a run; an approved proposal without a grant is materialized on the way. */
    method GetLive(run: RunId, newId: GrantId) returns (r: Result<Option<GrantId>, GrantError>)
      requires Consistent()
      modifies this`grants
      ensures Consistent() && State() == Do(old(State()), Op.GetLive(run, newId))
      ensures !Open(State(), run) ==> r == Ok(None)
      ensures r.Ok? && r.value.Some? ==> IsLive(grants, r.value.value, run) && Open(State(), run)
      ensures Open(State(), run) && HasLive(old(grants), run) ==> r.Ok? && r.value.Some? && grants == old(grants)
      ensures Open(State(), run) && !HasLive(old(grants), run) ==>
        r == if old(NothingToMaterialize(State(), run)) then Ok(None)
          else if newId in old(grants) then Err(DuplicateId)
          else Ok(Some(newId))
    {
      if run !in finished || finished[run] {
        return Ok(None);
      }
      if g :| g in grants && IsLive(grants, g, run) {
        return Ok(Some(g));
      }
      r := MaterializeApproved(run, newId);
    }

    /** Only the first approved proposal of the run counts, even if its grant is dead. */
    method MaterializeApproved(run: RunId, newId: GrantId) returns (r: Result<Option<GrantId>, GrantError>)
      requires Consistent() && Open(State(), run) && !HasLive(grants, run)
      modifies this`grants
      ensures Consistent() && State() == Looked(old(State()), run, newId)
      ensures r == if old(NothingToMaterialize(State(), run)) then Ok(None)
        else if newId in old(grants) then Err(DuplicateId)
        else Ok(Some(newId))
      ensures r == Ok(Some(newId)) ==>
        grants == old(grants)[newId := Grant(run, true, FirstApproved(inbox, proposals, run).value)]
    {
      var i := 0;
      while i < |inbox|
        invariant 0 <= i <= |inbox| && grants == old(grants)
        invariant FirstApproved(inbox[i..], proposals, run) == FirstApproved(inbox, proposals, run)
      {
        assert inbox[i..][1..] == inbox[i + 1..];
        var pid := inbox[i];
        if Is(proposals, pid, run, Approved) {
          if HasGrant(grants, pid) {
            // no live grant of the run, so this one is dead
            var g :| g in grants && grants[g].proposal == pid;
            assert GrantInv(State(), g) && !IsLive(grants, g, run);
            return Ok(None);
          }
          var persisted := PersistLive(pid, newId);
          return if persisted.Ok? then Ok(Some(persisted.value)) else Err(persisted.error);
        }
        i := i + 1;
      }
      return Ok(None);
    }

    method PendingFor(run: RunId) returns (pid: Option<ProposalId>)
      requires Consistent()
      ensures pid.Some? ==> Is(proposals, pid.value, run, Pending)
      ensures pid.None? <==> !HasPending(proposals, run)
    {
      var i := 0;
      while i < |inbox|
        invariant 0 <= i <= |inbox|
        invariant forall j :: 0 <= j < i ==> !Is(proposals, inbox[j], run, Pending)
      {
        if Is(proposals, inbox[i], run, Pending) {
          return Some(inbox[i]);
        }
        i := i + 1;
      }
      forall q | q in proposals ensures !Is(proposals, q, run, Pending) {
        assert q in inbox;
      }
      return None;
    }

    /** Persist a decision; nothing else happens. */
    method Decide(pid: ProposalId, status: Status) returns (r: Result<(), GrantError>)
      requires Consistent() && status != Pending
      modifies this`proposals
      ensures Consistent() && State() == Do(old(State()), Op.Decide(pid, status))
      ensures r == if pid !in old(proposals) then Err(ProposalNotFound)
        else if old(proposals)[pid].status != Pending then Err(AlreadyDecided)
        else Ok(())
      ensures proposals ==
        if r.Ok? then old(proposals)[pid := old(proposals)[pid].(status := status)]
        else old(proposals)
    {
      DecidedSound(State(), pid, status);
      if pid !in proposals {
        return Err(ProposalNotFound);
      }
      if proposals[pid].status != Pending {
        return Err(AlreadyDecided);
      }
      proposals := proposals[pid := proposals[pid].(status := status)];
      return Ok(());
    }

    /** Decide APPROVED; the callback then makes the grant live if it can. It swallows every refusal
        but that of a payload without a run. */
    method DecideAndActivate(pid: ProposalId, newId: GrantId) returns (r: Result<(), GrantError>)
      requires Consistent()
      modifies this`proposals, this`grants
      ensures Consistent() && State() == Activated(old(State()), pid, newId)
      ensures proposals == if IsPending(old(proposals), pid)
        then old(proposals)[pid := old(proposals)[pid].(status := Approved)]
        else old(proposals)
      ensures r == if pid !in old(proposals) then Err(ProposalNotFound)
        else if old(proposals)[pid].status != Pending then Err(AlreadyDecided)
        else if proposals[pid].run.None? then Err(BadRun)
        else Ok(())
    {
      if IsPending(proposals, pid) {
        NoGrantYet(State(), pid);
      }
      r := Decide(pid, Approved);
      if r.Ok? {
        var persisted := PersistLive(pid, newId);
        if persisted == Err(BadRun) {
          return Err(BadRun);
        }
      }
    }

    /** Human approval; an automatic one goes the same way. */
    method Approve(pid: ProposalId, newId: GrantId, newId2: GrantId) returns (r: Result<Issue, GrantError>)
      requires Consistent()
      modifies this`proposals, this`grants
      ensures Consistent() && State() == Do(old(State()), Op.Approve(pid, newId, newId2))
      ensures r.Ok? ==> r.value.proposal == pid
      ensures proposals == if IsPending(old(proposals), pid)
        then old(proposals)[pid := old(proposals)[pid].(status := Approved)]
        else old(proposals)
      ensures r.Ok? && r.value.grant.Some? ==>
        && r.value.proposal == pid && pid in proposals && proposals[pid].run.Some?
        && IsLive(grants, r.value.grant.value, proposals[pid].run.value) && Open(State(), proposals[pid].run.value)
      ensures
        && IsPending(old(proposals), pid) && old(proposals)[pid].run.Some?
        && Open(State(), old(proposals)[pid].run.value) && newId !in old(grants) ==>
        && r.Ok? && r.value.grant.Some?
        && grants == old(grants)[newId := Grant(old(proposals)[pid].run.value, true, pid)]
        && (!HasLive(old(grants), old(proposals)[pid].run.value) ==> r == Ok(Issue(pid, Some(newId))))
    {
      if
        && IsPending(proposals, pid) && proposals[pid].run.Some? && Open(State(), proposals[pid].run.value)
        && newId !in grants
      {
        PendingIsGranted(State(), pid, proposals[pid].run.value, newId, newId2);
      }
      hide Sound;
      var decided := DecideAndActivate(pid, newId);
      if decided.Err? {
        return Err(decided.error);
      }
      var live := GetLive(proposals[pid].run.value, newId2);
      if live.Err? {
        return Err(live.error);
      }
      return Ok(Issue(pid, live.value));
    }

    /** A new proposal for a run that has nothing pending, nothing live and nothing to materialize. */
    method Submit(run: RunId, verdict: Option<bool>, pid: ProposalId, at: nat, newId: GrantId, newId2: GrantId)
      returns (r: Result<Issue, GrantError>)
      requires Consistent() && Open(State(), run) && at <= |inbox| && pid !in proposals && Idle(State(), run)
      modifies this`proposals, this`inbox, this`grants
      ensures Consistent() && State() == Submitted(old(State()), run, verdict, pid, at, newId, newId2)
      ensures r.Ok? ==> r.value.proposal == pid
      ensures r.Ok? && r.value.grant.Some? ==> IsLive(grants, r.value.grant.value, run)
      ensures verdict != Some(true) ==> r == Ok(Issue(pid, None)) && grants == old(grants)
      ensures verdict == Some(true) && newId !in old(grants) ==> r == Ok(Issue(pid, Some(newId)))
      ensures proposals == old(proposals)[pid := Proposal(true, true, Some(run), Answered(verdict))]
    {
      assert !HasLive(grants, run);
      hide Sound, Idle, Activated, Decided, Looked, Inserted, NothingToMaterialize, HasLive, HasGrant, Targets;
      var created := CreatePending(pid, Proposal(true, true, Some(run), Pending), at);
      if verdict == Some(false) {
        var denied := Decide(pid, Rejected);
      } else if verdict == Some(true) {
        r := Approve(pid, newId, newId2);
        return;
      }
      return Ok(Issue(pid, None));
    }

    /** Ask for a grant of a run. `verdict` is the answer of the approval rules; `at` is where the
        new proposal lands in the inbox order. */
    method Request(run: RunId, urlOk: bool, verdict: Option<bool>, pid: ProposalId, at: nat, newId: GrantId,
                   newId2: GrantId)
      returns (r: Result<Issue, GrantError>)
      requires Consistent() && at <= |inbox|
      modifies this`proposals, this`inbox, this`grants
      ensures Consistent()
      ensures State() == Do(old(State()), Op.Request(run, urlOk, verdict, pid, at, newId, newId2))
      ensures !Open(State(), run) ==> r.Err? && State() == old(State())
      ensures r.Ok? && r.value.grant.Some? ==> IsLive(grants, r.value.grant.value, run) && Open(State(), run)
      ensures Open(State(), run) && HasLive(old(grants), run) ==>
        && r.Ok? && r.value.grant.Some? && r.value.proposal == grants[r.value.grant.value].proposal
        && State() == old(State())
      ensures
        && Open(State(), run) && !HasLive(old(grants), run) && old(NothingToMaterialize(State(), run))
        && HasPending(old(proposals), run) ==>
        r.Ok? && r.value.grant.None? && Is(proposals, r.value.proposal, run, Pending) && State() == old(State())
      ensures
        && Open(State(), run) && old(Idle(State(), run)) && urlOk && pid !in old(proposals)
        && newId !in old(grants) ==>
        && proposals == old(proposals)[pid := Proposal(true, true, Some(run), Answered(verdict))]
        && r == Ok(Issue(pid, if verdict == Some(true) then Some(newId) else None))
        && (verdict != Some(true) ==> grants == old(grants))
    {
      hide Sound;
      if run !in finished {
        return Err(RunNotFound);
      }
      if finished[run] {
        return Err(RunFinished);
      }
      var live := GetLive(run, newId);
      if live.Err? {
        return Err(live.error);
      }
      if live.value.Some? {
        return Ok(Issue(grants[live.value.value].proposal, live.value));
      }
      var pending := PendingFor(run);
      if pending.Some? {
        return Ok(Issue(pending.value, None));
      }
      if !urlOk {
        return Err(BadUrl);
      }
      if pid in proposals {
        return Err(DuplicateId);
      }
      r := Submit(run, verdict, pid, at, newId, newId2);
    }

    /** Insert a proposal under a new id. */
    method CreatePending(pid: ProposalId, p: Proposal, at: nat) returns (r: Result<(), GrantError>)
      requires Consistent() && at <= |inbox|
      modifies this`proposals, this`inbox
      ensures Consistent() && State() == Inserted(old(State()), pid, p, at)
      ensures r == if pid in old(proposals) then Err(DuplicateId) else Ok(())
      ensures r.Ok? ==> proposals == old(proposals)[pid := p]
    {
      InsertedSound(State(), pid, p, at);
      if pid in proposals {
        return Err(DuplicateId);
      }
      proposals := proposals[pid := p];
      inbox := inbox[..at] + [pid] + inbox[at..];
      return Ok(());
    }

    /** Another tool's proposal. */
    method ProposeOther(pid: ProposalId, at: nat) returns (r: Result<(), GrantError>)
      requires Consistent() && at <= |inbox|
      modifies this`proposals, this`inbox
      ensures Consistent() && State() == Do(old(State()), Op.ProposeOther(pid, at))
      ensures r == if pid in old(proposals) then Err(DuplicateId) else Ok(())
      ensures r.Ok? ==> proposals == old(proposals)[pid := Proposal(false, false, None, Pending)]
    {
      r := CreatePending(pid, Proposal(false, false, None, Pending), at);
    }

    /** Stage an edit that sets the payload's token and run, which are not frozen. It keeps the rule
        exactly when it is harmless. */
    method StageEdit(pid: ProposalId, named: bool, target: Option<RunId>) returns (r: Result<(), GrantError>)
      requires Consistent()
      modifies this`proposals
      ensures Consistent() && State() == Do(old(State()), Op.StageEdit(pid, named, target))
      ensures r == if pid !in old(proposals) then Err(ProposalNotFound)
        else if old(proposals)[pid].status != Pending then Err(AlreadyDecided)
        else Ok(())
      ensures proposals ==
        if r.Ok? then old(proposals)[pid := old(proposals)[pid].(named := named, run := target)]
        else old(proposals)
      ensures old(Valid(State())) ==> (Valid(State()) <==> Harmless(old(State()), Op.StageEdit(pid, named, target)))
    {
      DoSound(State(), Op.StageEdit(pid, named, target));
      if Valid(State()) {
        EditedValidIff(State(), pid, named, target);
      }
      hide Sound, Valid, Harmless;
      if pid !in proposals {
        return Err(ProposalNotFound);
      }
      if proposals[pid].status != Pending {
        return Err(AlreadyDecided);
      }
      proposals := proposals[pid := proposals[pid].(named := named, run := target)];
      return Ok(());
    }

    /** End every live grant of the run, then expire its pending proposals. */
    method RevokeForRun(run: RunId)
      requires Consistent()
      modifies this`proposals, this`grants
      ensures Consistent() && State() == Do(old(State()), Op.RevokeForRun(run))
      ensures !HasLive(grants, run) && !HasPending(proposals, run)
      // other runs keep their live grants and their pending proposals, and nothing else changes at all
      ensures forall g :: g in old(grants) ==>
        && g in grants
        && grants[g] == if old(grants)[g].run == run then old(grants)[g].(live := false) else old(grants)[g]
      ensures forall q :: q in old(proposals) ==>
        && q in proposals
        && var was := old(proposals)[q];
           proposals[q] == if was.run == Some(run) && (was.browser || was.named) && was.status == Pending
             then was.(status := Expired) else was
      ensures grants.Keys == old(grants).Keys && proposals.Keys == old(proposals).Keys
    {
      DeadSound(State(), run);
      RevokedSound(State(), run);
      hide Sound;
      grants := Dead(grants, run);
      ExpirePending(run);
    }

    method ExpirePending(run: RunId)
      requires Consistent()
      modifies this`proposals
      ensures Consistent() && proposals == Expiring(old(proposals), run)
    {
      hide Decided;
      var i := 0;
      while i < |inbox|
        invariant 0 <= i <= |inbox| && Consistent() && proposals.Keys == old(proposals).Keys
        invariant forall j :: 0 <= j < i ==> !Is(proposals, inbox[j], run, Pending)
        invariant forall q :: q in proposals && proposals[q] != old(proposals)[q] ==>
          Is(old(proposals), q, run, Pending) && proposals[q] == old(proposals)[q].(status := Expired)
      {
        InboxLists(State());
        hide Sound;
        if Is(proposals, inbox[i], run, Pending) {
          var expired := Decide(inbox[i], Expired);
        }
        i := i + 1;
      }
      InboxLists(State());
      forall q | q in proposals ensures proposals[q] == Expiring(old(proposals), run)[q] {
        assert q in inbox;
      }
    }

    /** End of a run. The revocation is best effort: an exception in it is swallowed, and then the
        grants stay as they are; but no later call returns one of them. */
    method CompleteRun(run: RunId, revokes: bool)
      requires Consistent()
      modifies this
      ensures Consistent() && State() == Do(old(State()), Op.CompleteRun(run, revokes))
      ensures revokes ==> !HasLive(grants, run) && !HasPending(proposals, run)
      ensures !revokes ==> grants == old(grants) && proposals == old(proposals)
      // other runs keep their live grants and their pending proposals
      ensures forall g :: g in old(grants) && old(grants)[g].run != run ==> g in grants && grants[g] == old(grants)[g]
      ensures forall q :: q in old(proposals) && old(proposals)[q].run != Some(run) ==>
        q in proposals && proposals[q] == old(proposals)[q]
      ensures forall other :: other != run ==> (Open(State(), other) <==> old(Open(State(), other)))
      ensures run in old(finished) ==> Ended(State(), run)
    {
      DoSound(State(), Op.CompleteRun(run, false));
      hide Sound;
      if run in finished {
        finished := finished[run := true];
      }
      if revokes {
        RevokeForRun(run);
      }
    }
  }

  /** A run that has asked for a grant, and beside it another run that has, or another tool. */
  method TwoWaiting(other: bool) returns (s: GrantStore)
    ensures fresh(s) && s.Consistent() && Open(s.State(), 1) && s.grants == map[]
    ensures s.proposals == map[
      "p" := Proposal(true, true, Some(1), Pending),
      "q" := if other then Proposal(false, false, None, Pending) else Proposal(true, true, Some(2), Pending)]
  {
    hide Sound, Do, FirstApproved;
    assert "p" != "q" && Min(0, 0) == 0;
    s := new GrantStore();
    s.StartRun(1);
    s.StartRun(2);
    NobodyApproved(s.State(), 1);
    var first := s.Request(1, true, None, "p", 0, "a", "b");
    if other {
      var second := s.ProposeOther("q", 0);
    } else {
      NobodyApproved(s.State(), 2);
      var second := s.Request(2, true, None, "q", 0, "a", "b");
    }
  }

  /** The second proposal is pointed at the first run, and made to look like one for the browser if it
      is not; both are approved, and one run has two live grants. */
  method StagedEditMakesTwoLiveGrants(other: bool) returns (s: GrantStore)
    ensures fresh(s) && s.Consistent() && Open(s.State(), 1)
    ensures IsLive(s.grants, "g", 1) && IsLive(s.grants, "h", 1) && TwoLive(s.State())
  {
    hide Sound, Do;
    assert "p" != "q" && "g" != "h";
    s := TwoWaiting(other);
    var staged := s.StageEdit("q", true, Some(1));
    hide Valid, Harmless;
    var one := s.Approve("p", "g", "a");
    var two := s.Approve("q", "h", "a");
    assert s.grants == map["g" := Grant(1, true, "p"), "h" := Grant(1, true, "q")];
  }

  lemma NobodyApproved(t: Tables, run: RunId)
    requires forall pid :: pid in t.proposals ==> t.proposals[pid].status != Approved
    ensures NothingToMaterialize(t, run)
  {
    FirstApprovedIs(t.inbox, t.proposals, run);
  }
}
