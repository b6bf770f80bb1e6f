/** Approval cards on two surfaces: a card binds an approval to its owner for a while, and one
    decision path serves both surfaces. */
module Presenter {
  import opened Core
  import opened PassStore
  import Protocol
  import ProtocolInvariant
  import ProtocolRuns
  import Gateway
  import Memory

  const TTL_SECONDS: nat := 900

  datatype Verdict = ToApprove | ToReject | ToEdit

  /** A presented card; it can be used until `expires`. */
  datatype Card = Card(owner: string, expires: int)

  datatype PresenterError =
    | IdRequired
    | OwnerRequired
    | NotPending(status: Status)
    | OwnedByOther
    | NotYours
    | Missing
    | CorpusRequired
    | EditOnlyMemory
    | Tool(tool: Gateway.GatewayError)
    | MemoryFailed(memory: Memory.MemoryError)

  /** What `decide_approval` returns. */
  datatype ApprovalDecision = ApprovalDecision(proposal: Proposal, resumed: bool, cached: bool)

  // ---------------------------------------------------------------- callback data

  const CALLBACK_PREFIX := "pass"

  /** `normalize_decision`; None is the refusal. */
  function NormalizeDecision(raw: string): Option<Verdict> {
    var cleaned := Lower(Strip(raw));
    if cleaned == "approve" || cleaned == "approved" then Some(ToApprove)
    else if cleaned == "reject" || cleaned == "rejected" || cleaned == "deny" || cleaned == "denied" then Some(ToReject)
    else if cleaned == "edit" || cleaned == "edited" then Some(ToEdit)
    else None
  }

  function CallbackToken(v: Verdict): string {
    match v
    case ToApprove => "approve"
    case ToReject => "deny"
    case ToEdit => "edit"
  }

  /** None when there is no id. */
  function CallbackData(v: Verdict, approvalId: string): Option<string> {
    if Strip(approvalId) == "" then None
    else Some(CALLBACK_PREFIX + ":" + (CallbackToken(v) + ":" + Strip(approvalId)))
  }

  /** `s.split(":", 1)`. */
  function SplitOnce(s: string): (r: Option<(string, string)>)
    ensures r.Some? ==> s == r.value.0 + ":" + r.value.1 && ':' !in r.value.0
    ensures r.None? <==> ':' !in s
  {
    if s == "" then None
    else if s[0] == ':' then Some(("", s[1..]))
    else
      var rest := SplitOnce(s[1..]);
      if rest.None? then None
      else Some(([s[0]] + rest.value.0, rest.value.1))
  }

  /** None for anything that is not a callback of this kind. */
  function ParseCallback(data: string): Option<(Verdict, string)> {
    var first := SplitOnce(Strip(data));
    if first.None? || first.value.0 != CALLBACK_PREFIX then None
    else
      var second := SplitOnce(first.value.1);
      if second.None? then None
      else
        var verdict, approvalId := NormalizeDecision(second.value.0), Strip(second.value.1);
        if verdict.None? || approvalId == "" then None else Some((verdict.value, approvalId))
  }

  lemma {:induction false} SplitAt(a: string, b: string)
    requires ':' !in a
    ensures SplitOnce(a + ":" + b) == Some((a, b))
  {
    if a == "" {
      assert a + ":" + b == ":" + b && (":" + b)[1..] == b;
    } else {
      SplitAt(a[1..], b);
      assert (a + ":" + b)[1..] == a[1..] + ":" + b && (a + ":" + b)[0] == a[0] != ':';
      assert [a[0]] + a[1..] == a;
    }
  }

  lemma TokenReadsBack(v: Verdict)
    ensures NormalizeDecision(CallbackToken(v)) == Some(v) && ':' !in CallbackToken(v)
  {
    hide Strip, Lower;
    var token := CallbackToken(v);
    StripStripped(token);
    LowerSame(token);
    assert |"approve"| == 7 && |"deny"| == 4 && |"edit"| == 4 && "deny"[0] == 'd' && "edit"[0] == 'e';
  }

  lemma Enclosed(s: string, t: string)
    requires s != "" && t != "" && !IsSpace(s[0]) && !IsSpace(t[|t| - 1])
    ensures Strip(s + t) == s + t
  {
    hide Strip;
    assert (s + t)[0] == s[0] && (s + t)[|s + t| - 1] == t[|t| - 1];
    StripStripped(s + t);
  }

  /** Both surfaces name the same approval: what a button sends reads back as the decision and the
      id it was made from. */
  lemma CallbackRoundTrip(v: Verdict, approvalId: string)
    ensures CallbackData(v, approvalId).Some? <==> Strip(approvalId) != ""
    ensures CallbackData(v, approvalId).Some? ==>
      ParseCallback(CallbackData(v, approvalId).value) == Some((v, Strip(approvalId)))
  {
    hide Strip, SplitOnce, NormalizeDecision;
    var id, token := Strip(approvalId), CallbackToken(v);
    StripEnds(approvalId);
    if id != "" {
      var rest := token + ":" + id;
      var prefix := CALLBACK_PREFIX + ":";
      assert rest[|rest| - 1] == id[|id| - 1];
      Enclosed(prefix, rest);
      SplitAt(CALLBACK_PREFIX, rest);
      TokenReadsBack(v);
      SplitAt(token, id);
    }
  }

  // ---------------------------------------------------------------- the cards

  /** Owner-checked confirmations with expiry. */
  class PendingConfirmations {
    var cards: map<ProposalId, Card>

    constructor ()
      ensures cards == map[]
    {
      cards := map[];
    }

    predicate Usable(pid: ProposalId, requester: string, now: int)
      reads this
    {
      requester != "" && pid in cards && cards[pid].owner == requester && now <= cards[pid].expires
    }

    lemma UsableIsThere(pid: ProposalId, requester: string, now: int)
      requires Usable(pid, requester, now)
      ensures pid in cards
    {
    }

    /** True exactly for the owner of an unexpired card. An expired card is dropped; somebody else's
        is left alone. */
    method Resolve(pid: ProposalId, requester: string, now: int) returns (found: bool)
      modifies this
      ensures found == old(Usable(pid, requester, now))
      ensures cards ==
        if requester != "" && pid in old(cards) && now > old(cards)[pid].expires then old(cards) - {pid}
        else old(cards)
    {
      if requester == "" || pid !in cards {
        return false;
      }
      if now > cards[pid].expires {
        cards := cards - {pid};
        return false;
      }
      return cards[pid].owner == requester;
    }

    method Keep(pid: ProposalId, owner: string, now: int)
      modifies this
      ensures cards == if owner == "" then old(cards) else old(cards)[pid := Card(owner, now + TTL_SECONDS)]
    {
      if owner != "" {
        cards := cards[pid := Card(owner, now + TTL_SECONDS)];
      }
    }

    method Discard(pid: ProposalId)
      modifies this
      ensures cards == old(cards) - {pid}
    {
      cards := cards - {pid};
    }
  }

  // ---------------------------------------------------------------- what a spent tool approval is

  /** A checkpoint of the approval was claimed, and the approval stands APPROVED. */
  ghost predicate Spent(w: Protocol.World, pid: ProposalId) {
    && ProtocolInvariant.HasStatus(w, pid, Approved)
    && exists k :: k in w.checkpoints && w.checkpoints[k].proposalId == pid && w.checkpoints[k].status != Protocol.Open
  }

  lemma SpentKey(w: Protocol.World, pid: ProposalId, k: Protocol.Key)
    requires ProtocolInvariant.HasStatus(w, pid, Approved)
    requires k in w.checkpoints && w.checkpoints[k].proposalId == pid && w.checkpoints[k].status != Protocol.Open
    ensures Spent(w, pid)
  {
  }

  /** Whatever happens to the stores, a spent approval stays spent. */
  lemma SpentForever(tr: seq<ProtocolRuns.State>, i: nat, j: nat, pid: ProposalId)
    requires ProtocolRuns.Run(tr) && i <= j < |tr| && Spent(tr[i].w, pid)
    ensures Spent(tr[j].w, pid)
  {
    var t := tr[i].w.checkpoints;
    var k :| k in t && t[k].proposalId == pid && t[k].status != Protocol.Open;
    ProtocolRuns.CheckpointForever(tr, i, j, k);
    ClaimedForever(tr, i, j, k);
    ProtocolRuns.DecidedForever(tr, i, j, pid);
    SpentKey(tr[j].w, pid, k);
  }

  lemma {:induction false} ClaimedForever(tr: seq<ProtocolRuns.State>, i: nat, j: nat, k: Protocol.Key)
    requires ProtocolRuns.Run(tr) && i <= j < |tr| && k in tr[i].w.checkpoints
    requires tr[i].w.checkpoints[k].status != Protocol.Open
    ensures k in tr[j].w.checkpoints && tr[j].w.checkpoints[k].status != Protocol.Open
  {
    if i < j {
      ClaimedForever(tr, i, j - 1, k);
      var _ := ProtocolRuns.RunKey(tr, j - 1, k);
    }
  }

  /** A spent approval has no checkpoint left to claim. */
  lemma SpentHasNothingOpen(tr: seq<ProtocolRuns.State>, i: nat, pid: ProposalId, k: Protocol.Key)
    requires ProtocolRuns.Run(tr) && i < |tr| && Spent(tr[i].w, pid)
    requires k in tr[i].w.checkpoints && tr[i].w.checkpoints[k].proposalId == pid
    ensures tr[i].w.checkpoints[k].status != Protocol.Open
  {
    var t := tr[i].w.checkpoints;
    var l :| l in t && t[l].proposalId == pid && t[l].status != Protocol.Open;
    ProtocolRuns.RunInv(tr, i);
    assert ProtocolInvariant.RowsApart(tr[i].w, k, l);
  }

  lemma SpentLater(earlier: seq<ProtocolRuns.State>, later: seq<ProtocolRuns.State>, pid: ProposalId)
    requires ProtocolRuns.Run(later) && earlier <= later && earlier != [] && Spent(earlier[|earlier| - 1].w, pid)
    ensures Spent(later[|later| - 1].w, pid)
  {
    hide ProtocolRuns.Run, Spent;
    SpentForever(later, |earlier| - 1, |later| - 1, pid);
  }

  lemma AllSpentLater(earlier: seq<ProtocolRuns.State>, later: seq<ProtocolRuns.State>, w: Protocol.World,
                      w': Protocol.World)
    requires ProtocolRuns.Run(later) && earlier <= later && earlier != []
    requires w == earlier[|earlier| - 1].w && w' == later[|later| - 1].w
    ensures forall p :: Spent(w, p) ==> Spent(w', p)
  {
    hide ProtocolRuns.Run, Spent;
    forall p | Spent(w, p) ensures Spent(w', p) {
      SpentLater(earlier, later, p);
    }
  }

  lemma NotEmpty(tr: seq<ProtocolRuns.State>)
    requires ProtocolRuns.Run(tr)
    ensures tr != []
  {
  }

  lemma SameCheckpoint(earlier: seq<ProtocolRuns.State>, later: seq<ProtocolRuns.State>, k: Protocol.Key)
    requires ProtocolRuns.Run(later) && earlier <= later && earlier != [] && k in earlier[|earlier| - 1].w.checkpoints
    ensures k in later[|later| - 1].w.checkpoints
    ensures later[|later| - 1].w.checkpoints[k].proposalId == earlier[|earlier| - 1].w.checkpoints[k].proposalId
  {
    hide ProtocolRuns.Run;
    ProtocolRuns.CheckpointForever(later, |earlier| - 1, |later| - 1, k);
  }

  /** A resume that executed has spent its approval, which was not spent before. */
  lemma ExecutedIsSpent(earlier: seq<ProtocolRuns.State>, later: seq<ProtocolRuns.State>, pid: ProposalId,
                        k: Protocol.Key)
    requires ProtocolRuns.Run(later) && earlier <= later && earlier != [] && ProtocolRuns.Run(earlier)
    requires var w := earlier[|earlier| - 1].w;
      k in w.checkpoints && w.checkpoints[k].proposalId == pid && w.checkpoints[k].status == Protocol.Open
    requires var w := later[|later| - 1].w;
      ProtocolInvariant.IsResumed(w, k) && ProtocolInvariant.HasStatus(w, w.checkpoints[k].proposalId, Approved)
    ensures !Spent(earlier[|earlier| - 1].w, pid) && Spent(later[|later| - 1].w, pid)
  {
    hide ProtocolRuns.Run, Spent;
    SameCheckpoint(earlier, later, k);
    if Spent(earlier[|earlier| - 1].w, pid) {
      SpentHasNothingOpen(earlier, |earlier| - 1, pid, k);
    }
    SpentKey(later[|later| - 1].w, pid, k);
  }

  /** What a decision on a card that is not for memory leaves: a waiting proposal takes the status that
      was decided and is otherwise as it was, a decided one stays, and so do all others. A denial goes
      through exactly on a waiting one. */
  ghost predicate ToolRows(t: Proposals, t': Proposals, pid: ProposalId, approve: bool, ok: bool) {
    && t' == (if pid in t && t[pid].status == Pending
              then t[pid := t[pid].(status := if approve then Approved else Rejected)]
              else t)
    && (!approve ==> (ok <==> pid in t && t[pid].status == Pending))
    && (ok ==> pid in t)
  }

  /** What a decision on a memory card leaves: all rows but the waiting one stay. A denied one is
      REJECTED, an approved one APPROVED, with the edit if there is one; an edited one stays PENDING with
      the edit; an edit of a frozen target changes nothing. */
  ghost predicate MemoryRows(t: Proposals, t': Proposals, pid: ProposalId, verdict: Verdict, edited: Option<Payload>,
                             actor: string, ok: bool)
  {
    if pid !in t || t[pid].kind != MemoryKind then t' == t && !ok
    else if t[pid].status != Pending then t' == t && (ok ==> verdict.ToApprove?)
    else if verdict.ToReject? then ok && t' == t[pid := t[pid].(status := Rejected)]
    else if edited.Some? && Retargets(t[pid].payload, edited.value) then t' == t && !ok
    else if verdict.ToEdit? then
      if edited.None? then t' == t && !ok
      else
        && ok && pid in t' && t' == t[pid := t[pid].(payload := t'[pid].payload)]
        && TakenEdit(t[pid].payload, edited.value, actor, t'[pid].payload)
    else
      && pid in t' && t' == t[pid := t[pid].(status := Approved, payload := t'[pid].payload)]
      && (edited.None? ==> t'[pid].payload == t[pid].payload)
      && (edited.Some? ==> TakenEdit(t[pid].payload, edited.value, actor, t'[pid].payload))
  }

  lemma PromisedRows(t: Proposals, b: Memory.Books, t': Proposals, b': Memory.Books, pid: ProposalId,
                     token: Memory.DecisionToken, actor: string, edited: Option<Payload>,
                     r: Result<Memory.MemoryDecision, Memory.MemoryError>, verdict: Verdict)
    requires Memory.Promised(t, b, t', b', pid, token, actor, edited, r)
    requires match verdict
      case ToApprove => token == Memory.ApproveToken
      case ToReject => token == Memory.RejectToken
      case ToEdit => token == Memory.EditToken
    ensures MemoryRows(t, t', pid, verdict, edited, actor, r.Ok?)
    ensures r.Ok? ==> pid in t' && r.value.proposal == t'[pid]
    ensures !verdict.ToApprove? ==> b' == b
  {
    hide Retargets, TakenEdit;
  }

  /** Keys are stored stripped. */
  ghost predicate CleanKeys(t: Protocol.Checkpoints) {
    forall k :: k in t ==> k != "" && Strip(k) == k
  }

  // ---------------------------------------------------------------- the desk

  class Desk {
    const store: Gateway.Store
    const memory: Memory.MemoryService          // holds the memory proposals of the inbox
    const pending: PendingConfirmations
    ghost var toolResumed: multiset<ProposalId> // decisions that came back with resumed = true
    ghost var memoryResumed: multiset<ProposalId>
    ghost var stale: set<ProposalId>            // decided memory proposals presented from an outdated copy
    ghost var overlapped: set<ProposalId>       // those decided once more by a call whose owner check came before

    ghost predicate ToolInv(pid: ProposalId)
      reads this`toolResumed, store`tr
    {
      pid in toolResumed ==> toolResumed[pid] == 1 && Spent(store.World(), pid)
    }

    /** A memory approval that came back resumed is done; it came back so once and its card is gone,
        unless it was presented again from an outdated copy or a call overlapped the decision. */
    ghost predicate MemoryInv(pid: ProposalId)
      reads this`memoryResumed, this`stale, this`overlapped, pending, memory
    {
      pid in memoryResumed ==>
        && memory.Done(pid)
        && (pid !in stale ==> pid !in pending.cards && (pid !in overlapped ==> memoryResumed[pid] == 1))
    }

    ghost predicate ToolsFine()
      reads this`toolResumed, store`tr
    {
      forall pid :: ToolInv(pid)
    }

    ghost predicate MemoriesFine()
      reads this`memoryResumed, this`stale, this`overlapped, pending, memory
    {
      forall pid :: MemoryInv(pid)
    }

    ghost predicate Valid()
      reads this, store, memory, pending
    {
      && store.Valid() && memory.Valid() && CleanKeys(store.checkpoints)
      && ToolsFine() && MemoriesFine()
    }

    constructor ()
      ensures Valid() && fresh(store) && fresh(memory) && fresh(pending)
      ensures toolResumed == multiset{} && memoryResumed == multiset{} && stale == {} && overlapped == {}
      ensures pending.cards == map[]
      ensures memory.corpus == map[] && memory.proposals == map[] && memory.effects == map[]
    {
      store := new Gateway.Store();
      memory := new Memory.MemoryService();
      pending := new PendingConfirmations();
      toolResumed, memoryResumed, stale, overlapped := multiset{}, multiset{}, {}, {};
    }

    /** At most one decision per approval comes back resumed, whichever surface it came from, and
        only for an approval that stands APPROVED. For memory approvals this holds of those that
        were not presented again from an outdated copy and whose completed decision no other call
        overlapped. */
    lemma OneResumePerApproval(pid: ProposalId)
      requires Valid()
      ensures toolResumed[pid] <= 1
      ensures pid in toolResumed ==> pid in store.proposals && store.proposals[pid].status == Approved
      ensures pid !in stale && pid !in overlapped ==> memoryResumed[pid] <= 1
      ensures pid in memoryResumed ==> pid in memory.proposals && memory.proposals[pid].status == Approved
    {
      assert ToolInv(pid) && MemoryInv(pid);
    }

    /** The stored row of an approval. */
    function Stored(pid: ProposalId): Option<Proposal>
      reads store`proposals, memory`proposals
    {
      if pid in memory.proposals then Some(memory.proposals[pid])
      else if pid in store.proposals then Some(store.proposals[pid])
      else None
    }

    /** Cards come and go; one that comes back for a resumed approval counts as outdated. */
    twostate lemma CardShown(new pid: ProposalId)
      requires old(Valid()) && unchanged(store) && unchanged(memory) && toolResumed == old(toolResumed)
      requires memoryResumed == old(memoryResumed) && overlapped == old(overlapped) && old(stale) <= stale
      requires pending.cards.Keys <= old(pending.cards).Keys + {pid}
      requires pid in memoryResumed && pid in pending.cards ==> pid in old(pending.cards) || pid in stale
      ensures Valid()
    {
      hide ProtocolRuns.Run, Spent, CleanKeys, Gateway.Store.Valid, Memory.MemoryService.Valid,
        Memory.MemoryService.Done;
      forall q ensures MemoryInv(q) {
        assert old(MemoryInv(q));
      }
      forall q ensures ToolInv(q) {
        assert old(ToolInv(q));
      }
    }

    /** Bind owner and expiry. The caller passes the proposal as it last read it. */
    method Present(pid: ProposalId, copy: Proposal, owner: string, now: int) returns (r: Result<(), PresenterError>)
      requires Valid()
      modifies this`stale, pending
      ensures Valid()
      ensures r.Ok? <==>
        && owner != "" && copy.status == Pending
        && (pid in old(pending.cards) && now <= old(pending.cards)[pid].expires ==>
              old(pending.cards)[pid].owner == owner)
      ensures r.Ok? ==> pending.Usable(pid, owner, now)
      ensures r.Ok? ==>
        pending.cards == if old(pending.Usable(pid, owner, now)) then old(pending.cards)
          else old(pending.cards)[pid := Card(owner, now + TTL_SECONDS)]
      ensures r.Err? ==> pending.cards == old(pending.cards) || pending.cards == old(pending.cards) - {pid}
      // nobody takes over a card that has not expired
      ensures pid in old(pending.cards) && now <= old(pending.cards)[pid].expires ==>
        pending.cards == old(pending.cards)
      ensures owner == "" || copy.status != Pending ==> r.Err? && pending.cards == old(pending.cards)
      ensures stale == old(stale) + (if r.Ok? && pid in memoryResumed then {pid} else {})
      // a copy that is up to date never revives a decided approval
      ensures pid in memoryResumed && Stored(pid) == Some(copy) ==> r.Err? && stale == old(stale)
    {
      ResumedIsDone(pid);
      DoneIsApproved(pid);
      hide Valid, Memory.MemoryService.Done;
      if owner == "" {
        return Err(OwnerRequired);
      }
      if copy.status != Pending {
        return Err(NotPending(copy.status));
      }
      var existing := pending.Resolve(pid, owner, now);
      if !existing && pid in pending.cards {
        CardShown(pid);
        return Err(OwnedByOther);
      }
      stale := stale + if pid in memoryResumed then {pid} else {};
      if !existing {
        pending.Keep(pid, owner, now);
      }
      CardShown(pid);
      return Ok(());
    }

    lemma DoneIsApproved(pid: ProposalId)
      ensures memory.Done(pid) ==> Stored(pid).Some? && Stored(pid).value.status == Approved
    {
    }

    /** A tool call that an approval executes: its checkpoint is open and its proposal not refused. */
    ghost predicate Executable(pid: ProposalId)
      reads store`proposals, store`checkpoints
    {
      && pid in store.proposals && store.proposals[pid].status in {Pending, Approved}
      && exists k :: k in store.checkpoints && store.checkpoints[k].proposalId == pid
                     && store.checkpoints[k].status == Protocol.Open
    }

    /** No two checkpoints share a proposal. */
    lemma OneCheckpoint(k: Protocol.Key, l: Protocol.Key)
      requires store.Valid() && k in store.checkpoints && l in store.checkpoints
      requires store.checkpoints[k].proposalId == store.checkpoints[l].proposalId
      ensures k == l
    {
      WorldOf();
      ProtocolRuns.RunInv(store.tr, |store.tr| - 1);
      assert ProtocolInvariant.RowsApart(store.World(), k, l);
    }

    lemma OpenIfExecutable(pid: ProposalId, key: Protocol.Key)
      requires store.Valid() && key in store.checkpoints && store.checkpoints[key].proposalId == pid
      ensures Executable(pid) ==>
        && store.checkpoints[key].status == Protocol.Open && pid in store.proposals
        && store.proposals[pid].status in {Pending, Approved}
    {
      if Executable(pid) {
        var k :| k in store.checkpoints && store.checkpoints[k].proposalId == pid
                 && store.checkpoints[k].status == Protocol.Open;
        OneCheckpoint(k, key);
      }
    }

    /** The checkpoint of a proposal; there is one at most. */
    method FindCheckpoint(pid: ProposalId) returns (key: Option<Protocol.Key>)
      ensures key.Some? ==> key.value in store.checkpoints && store.checkpoints[key.value].proposalId == pid
      ensures key.None? ==> forall k :: k in store.checkpoints ==> store.checkpoints[k].proposalId != pid
    {
      if k :| k in store.checkpoints && store.checkpoints[k].proposalId == pid {
        return Some(k);
      }
      return None;
    }

    /** Approve and resume by key. */
    method ApproveByKey(pid: ProposalId, key: Protocol.Key, execute: Option<Proposal -> Option<Json>>)
      returns (r: Result<Gateway.Resumption, Gateway.GatewayError>)
      requires store.Valid() && CleanKeys(store.checkpoints)
      requires key in store.checkpoints && store.checkpoints[key].proposalId == pid
      modifies store
      ensures store.Valid() && CleanKeys(store.checkpoints)
      ensures forall p :: Spent(old(store.World()), p) ==> Spent(store.World(), p)
      ensures r.Ok? && r.value.executed ==> !Spent(old(store.World()), pid) && Spent(store.World(), pid)
      ensures old(Executable(pid)) ==> (r.Ok? && r.value.executed) || r == Err(Gateway.ExecuteRaised)
      ensures ToolRows(old(store.proposals), store.proposals, pid, true, r.Ok?)
    {
      store.CheckpointHasProposal(key);
      OpenIfExecutable(pid, key);
      hide Strip, ProtocolRuns.Run, Spent, Executable;
      ghost var earlier := store.tr;
      WorldOf();
      r := store.ApproveAndResume(key, execute);
      WorldOf();
      AllSpentLater(earlier, store.tr, old(store.World()), store.World());
      if r.Ok? && r.value.executed {
        ExecutedIsSpent(earlier, store.tr, pid, key);
      }
    }

    lemma WorldOf()
      requires store.Valid()
      ensures store.tr != [] && ProtocolRuns.Run(store.tr) && store.before <= store.tr
      ensures store.World() == store.tr[|store.tr| - 1].w
      ensures store.World().proposals == store.proposals && store.World().checkpoints == store.checkpoints
    {
    }

    /** Decide, and resume with nothing to execute. */
    method RejectByKey(pid: ProposalId, key: Option<Protocol.Key>)
      returns (r: Result<(bool, bool), Gateway.GatewayError>)
      requires store.Valid() && CleanKeys(store.checkpoints)
      requires key.Some? ==> key.value in store.checkpoints && store.checkpoints[key.value].proposalId == pid
      modifies store
      ensures store.Valid() && CleanKeys(store.checkpoints)
      ensures forall p :: Spent(old(store.World()), p) ==> Spent(store.World(), p)
      ensures store.World().runs == old(store.World().runs) && (r.Ok? ==> r.value == (false, false))
      ensures ToolRows(old(store.proposals), store.proposals, pid, false, r.Ok?)
    {
      hide Strip, ProtocolRuns.Run, Spent;
      ghost var earlier := store.tr;
      WorldOf();
      var stored := store.Decide(pid, Gateway.RejectToken, None);
      WorldOf();
      AllSpentLater(earlier, store.tr, old(store.World()), store.World());
      if stored.Err? {
        return Err(Gateway.Pass(stored.error));
      }
      if key.None? {
        return Ok((false, false));
      }
      ghost var middle := store.tr;
      store.UnapprovedIsOpen(key.value);
      var result := store.Resume(key.value, None);
      WorldOf();
      forall p | Spent(old(store.World()), p) ensures Spent(store.World(), p) {
        SpentLater(middle, store.tr, p);
      }
      return Ok((result.value.executed, result.value.cached));
    }

    /** The tool branch: an approval with a checkpoint is resumed; everything else is only decided. */
    method ResumeTool(pid: ProposalId, approve: bool, execute: Option<Proposal -> Option<Json>>)
      returns (r: Result<(bool, bool), Gateway.GatewayError>)
      requires store.Valid() && CleanKeys(store.checkpoints)
      modifies store
      ensures store.Valid() && CleanKeys(store.checkpoints)
      ensures forall p :: Spent(old(store.World()), p) ==> Spent(store.World(), p)
      ensures r.Ok? && r.value.0 ==> approve && !Spent(old(store.World()), pid) && Spent(store.World(), pid)
      ensures !approve ==> store.World().runs == old(store.World().runs)
      ensures approve && old(Executable(pid)) ==> (r.Ok? && r.value.0) || r == Err(Gateway.ExecuteRaised)
      ensures r.Ok? && r.value.1 ==>
        approve && exists k :: k in old(store.checkpoints) && old(store.checkpoints)[k].proposalId == pid
      ensures ToolRows(old(store.proposals), store.proposals, pid, approve, r.Ok?)
    {
      hide Strip, ProtocolRuns.Run, Spent;
      var key := FindCheckpoint(pid);
      if approve && key.Some? {
        var result := ApproveByKey(pid, key.value, execute);
        return if result.Ok? then Ok((result.value.executed, result.value.cached)) else Err(result.error);
      }
      if approve {
        var decided := DecideOnly(pid, true);
        return if decided.Ok? then Ok((false, false)) else Err(decided.error);
      }
      var rejected := RejectByKey(pid, key);
      return rejected;
    }

    method DecideOnly(pid: ProposalId, approve: bool) returns (r: Result<(), Gateway.GatewayError>)
      requires store.Valid() && CleanKeys(store.checkpoints)
      modifies store
      ensures store.Valid() && CleanKeys(store.checkpoints)
      ensures forall p :: Spent(old(store.World()), p) ==> Spent(store.World(), p)
      ensures store.World().runs == old(store.World().runs)
      ensures store.effects == old(store.effects) && store.checkpoints == old(store.checkpoints)
      ensures ToolRows(old(store.proposals), store.proposals, pid, approve, r.Ok?)
      ensures r.Ok? <==> pid in old(store.proposals) && old(store.proposals)[pid].status == Pending
    {
      hide ProtocolRuns.Run, Spent;
      ghost var earlier := store.tr;
      WorldOf();
      var stored := store.Decide(pid, if approve then Gateway.ApproveToken else Gateway.RejectToken, None);
      WorldOf();
      AllSpentLater(earlier, store.tr, old(store.World()), store.World());
      return if stored.Ok? then Ok(()) else Err(Gateway.Pass(stored.error));
    }

    /** The memory branch. It comes back resumed for an approval that is done then; for one that was
        done before, exactly when a record can be looked up. */
    method ResumeMemory(pid: ProposalId, verdict: Verdict, editor: Memory.Editor, actor: string,
                        edited: Option<Payload>, stop: Memory.Interruption)
      returns (r: Result<Memory.MemoryDecision, Memory.MemoryError>)
      requires memory.Valid()
      modifies memory
      ensures memory.Valid()
      ensures forall q :: old(memory.Done(q)) ==> memory.Done(q)
      ensures r.Ok? && r.value.applied ==> verdict.ToApprove? && memory.Done(pid) && r.value.proposal.status == Approved
      ensures old(memory.Done(pid)) && verdict.ToApprove? && stop.Never? ==>
        (r.Ok? && r.value.applied <==> Key(pid) != "")
      ensures old(memory.Done(pid)) ==> Key(pid) == old(Key(pid)) && memory.corpus == old(memory.corpus)
      ensures old(memory.WouldApply(pid, editor)) && verdict.ToApprove? && edited.None? && stop.Never? ==>
        r.Ok? && r.value.applied
      ensures r.Ok? && r.value.applied && edited.None? ==> Key(pid) == old(Key(pid))
      ensures !verdict.ToApprove? ==> memory.corpus == old(memory.corpus)
      ensures MemoryRows(old(memory.proposals), memory.proposals, pid, verdict, edited, actor, r.Ok?)
      ensures r.Ok? ==> pid in memory.proposals && r.value.proposal == memory.proposals[pid]
    {
      var token := if verdict.ToApprove? then Memory.ApproveToken else if verdict.ToReject? then Memory.RejectToken
        else Memory.EditToken;
      hide TextOf, Memory.Applied, Memory.Settled, Memory.Decided, Memory.MemoryService.Valid, Memory.TrueReport,
        Memory.Promised, MemoryRows;
      ghost var proposals, books := memory.proposals, memory.Account();
      r := memory.DecideMemory(pid, token, editor, actor, edited, stop);
      PromisedRows(proposals, books, memory.proposals, memory.Account(), pid, token, actor, edited, r, verdict);
      Memory.OnlyApprovalsApply(proposals, books, pid, token, editor, actor, edited, stop);
      Memory.DoneIsAnswered(proposals, books, pid, token, editor, actor, edited, stop);
    }

    /** The key under which the outcome of a memory proposal is recorded. */
    function Key(pid: ProposalId): string
      reads memory`proposals
    {
      if pid in memory.proposals then TextOf(memory.proposals[pid].payload, "idempotency_key") else ""
    }

    /** What every decision adds to the two counts. */
    twostate predicate Counted(pid: ProposalId, tool: bool, resumed: bool)
      reads this`toolResumed, this`memoryResumed
    {
      && toolResumed == old(toolResumed) + (if tool && resumed then multiset{pid} else multiset{})
      && memoryResumed == old(memoryResumed) + (if !tool && resumed then multiset{pid} else multiset{})
    }

    /** Whatever else goes on in the stores, the desk stays valid. */
    twostate lemma OthersMoveOn()
      requires old(Valid()) && unchanged(this) && unchanged(pending)
      requires store.Valid() && memory.Valid() && CleanKeys(store.checkpoints)
      requires old(store.tr) <= store.tr && forall pid :: old(memory.Done(pid)) ==> memory.Done(pid)
      ensures Valid()
    {
      hide ProtocolRuns.Run, Spent, CleanKeys, Memory.MemoryService.Done, Memory.MemoryService.Valid;
      NotEmpty(old(store.tr));
      NotEmpty(store.tr);
      forall pid ensures ToolInv(pid) {
        assert old(ToolInv(pid));
        if pid in toolResumed {
          SpentLater(old(store.tr), store.tr, pid);
        }
      }
      forall pid ensures MemoryInv(pid) {
        assert old(MemoryInv(pid));
      }
    }

    /** A decision on a memory card keeps the desk valid. */
    twostate lemma MemoryGoesOn(new pid: ProposalId, new again: bool)
      requires old(Valid()) && unchanged(store) && toolResumed == old(toolResumed) && stale == old(stale)
      requires memory.Valid() && forall q :: old(memory.Done(q)) ==> memory.Done(q)
      requires memoryResumed == old(memoryResumed) + (if again then multiset{pid} else multiset{})
      requires again ==> memory.Done(pid) && pid !in pending.cards
      requires pending.cards.Keys <= old(pending.cards).Keys && old(overlapped) <= overlapped
      requires again && pid in old(memoryResumed) && pid !in old(pending.cards) ==> pid in overlapped
      ensures Valid()
    {
      hide ProtocolRuns.Run, Spent, CleanKeys, Gateway.Store.Valid, Memory.MemoryService.Valid,
        Memory.MemoryService.Done;
      forall q ensures MemoryInv(q) {
        assert old(MemoryInv(q));
      }
      forall q ensures ToolInv(q) {
        assert old(ToolInv(q));
      }
    }

    /** A decision on a memory card after the owner check. Other calls may have come in between: the
        card may be gone, and then this call overlaps the decision that took it. */
    method DecideMemoryCard(pid: ProposalId, verdict: Verdict, hasCorpus: bool, edited: Option<Payload>,
                            editor: Memory.Editor, actor: string, stop: Memory.Interruption)
      returns (r: Result<ApprovalDecision, PresenterError>)
      requires Valid()
      modifies this`memoryResumed, this`overlapped, memory, pending
      ensures Valid() && Counted(pid, false, r.Ok? && r.value.resumed)
      ensures overlapped ==
        old(overlapped) + (if pid in old(memoryResumed) && pid !in old(pending.cards) then {pid} else {})
      ensures r.Ok? && r.value.resumed ==> verdict.ToApprove?
      ensures pid in old(memoryResumed) && verdict.ToApprove? && hasCorpus && stop.Never? ==>
        (r.Ok? && r.value.resumed <==> old(Key(pid)) != "")
      ensures pid in old(memoryResumed) ==> memory.corpus == old(memory.corpus)
      ensures old(memory.WouldApply(pid, editor)) && verdict.ToApprove? && hasCorpus && edited.None? && stop.Never? ==>
        r.Ok? && r.value.resumed
      ensures r.Ok? && r.value.resumed && edited.None? ==> Key(pid) == old(Key(pid))
      ensures !verdict.ToApprove? ==> memory.corpus == old(memory.corpus)
      ensures hasCorpus ==> MemoryRows(old(memory.proposals), memory.proposals, pid, verdict, edited, actor, r.Ok?)
      ensures !hasCorpus ==> r.Err? && memory.proposals == old(memory.proposals)
      ensures r.Ok? ==> pid in memory.proposals && r.value.proposal == memory.proposals[pid]
      ensures pending.cards ==
        if r.Ok? && r.value.proposal.status != Pending then old(pending.cards) - {pid}
        else old(pending.cards)
    {
      MemoryIsValid();
      ResumedIsDone(pid);
      hide Valid, Memory.MemoryService.Valid, Memory.MemoryService.Done, Memory.MemoryService.WouldApply, Key,
        MemoryRows;
      if pid in memoryResumed && pid !in pending.cards {
        overlapped := overlapped + {pid};
      }
      if !hasCorpus {
        r := Err(CorpusRequired);
      } else {
        r := TakeDecision(pid, verdict, edited, editor, actor, stop);
      }
      MemoryGoesOn(pid, r.Ok? && r.value.resumed);
    }

    lemma MemoryIsValid()
      requires Valid()
      ensures memory.Valid()
    {
    }

    lemma ResumedIsDone(pid: ProposalId)
      requires Valid()
      ensures pid in memoryResumed ==> memory.Done(pid)
    {
      assert MemoryInv(pid);
    }

    /** Decide, and let the card go if the approval is decided. */
    method TakeDecision(pid: ProposalId, verdict: Verdict, edited: Option<Payload>, editor: Memory.Editor,
                        actor: string, stop: Memory.Interruption)
      returns (r: Result<ApprovalDecision, PresenterError>)
      requires memory.Valid()
      modifies this`memoryResumed, memory, pending
      ensures memory.Valid()
      ensures forall q :: old(memory.Done(q)) ==> memory.Done(q)
      ensures Counted(pid, false, r.Ok? && r.value.resumed)
      ensures r.Ok? && r.value.resumed ==> verdict.ToApprove? && memory.Done(pid) && r.value.proposal.status == Approved
      ensures old(memory.Done(pid)) && verdict.ToApprove? && stop.Never? ==>
        (r.Ok? && r.value.resumed <==> old(Key(pid)) != "")
      ensures old(memory.Done(pid)) ==> memory.corpus == old(memory.corpus)
      ensures old(memory.WouldApply(pid, editor)) && verdict.ToApprove? && edited.None? && stop.Never? ==>
        r.Ok? && r.value.resumed
      ensures r.Ok? && r.value.resumed && edited.None? ==> Key(pid) == old(Key(pid))
      ensures !verdict.ToApprove? ==> memory.corpus == old(memory.corpus)
      ensures MemoryRows(old(memory.proposals), memory.proposals, pid, verdict, edited, actor, r.Ok?)
      ensures r.Ok? ==> pid in memory.proposals && r.value.proposal == memory.proposals[pid]
      ensures pending.cards ==
        if r.Ok? && r.value.proposal.status != Pending then old(pending.cards) - {pid}
        else old(pending.cards)
    {
      hide Memory.MemoryService.Valid, Memory.MemoryService.Done, Key, Memory.MemoryService.WouldApply, MemoryRows;
      var decided := ResumeMemory(pid, verdict, editor, actor, edited, stop);
      if decided.Err? {
        return Err(MemoryFailed(decided.error));
      }
      if decided.value.applied {
        memoryResumed := memoryResumed + multiset{pid};
      }
      if decided.value.proposal.status != Pending {
        pending.Discard(pid);
      }
      return Ok(ApprovalDecision(decided.value.proposal, decided.value.applied, decided.value.cached));
    }

    /** A decision on any other card that its owner holds. */
    method DecideToolCard(pid: ProposalId, verdict: Verdict, execute: Option<Proposal -> Option<Json>>)
      returns (r: Result<ApprovalDecision, PresenterError>)
      requires Valid()
      modifies this`toolResumed, store, pending
      ensures Valid() && Counted(pid, true, r.Ok? && r.value.resumed)
      ensures r.Ok? && r.value.resumed ==> verdict.ToApprove?
      ensures pid in old(toolResumed) ==> !(r.Ok? && r.value.resumed)
      ensures !verdict.ToApprove? ==> store.World().runs == old(store.World().runs)
      // an approved tool call is executed unless `execute` raises; any other kind is only decided
      ensures verdict.ToApprove? && old(Executable(pid)) && old(store.proposals)[pid].kind == ToolKind ==>
        (r.Ok? && r.value.resumed) || r == Err(Tool(Gateway.ExecuteRaised))
      ensures pid in old(store.proposals) && old(store.proposals)[pid].kind != ToolKind ==>
        && store.World().runs == old(store.World().runs) && (r.Ok? ==> !r.value.resumed && !r.value.cached)
      // the decision that is stored and answered is the one that was made, and nothing else changes
      ensures verdict.ToEdit? ==> r.Err? && store.proposals == old(store.proposals)
      ensures !verdict.ToEdit? ==> ToolRows(old(store.proposals), store.proposals, pid, verdict.ToApprove?, r.Ok?)
      ensures r.Ok? ==> pid in store.proposals && r.value.proposal == store.proposals[pid]
      ensures pending.cards ==
        if r.Ok? && r.value.proposal.status != Pending then old(pending.cards) - {pid}
        else old(pending.cards)
    {
      hide ProtocolRuns.Run, Spent, CleanKeys, Gateway.Store.Valid, Memory.MemoryService.Valid,
        Memory.MemoryService.Done;
      assert ToolInv(pid);
      if pid !in store.proposals {
        return Err(Missing);
      }
      if verdict.ToEdit? {
        return Err(EditOnlyMemory);
      }
      var proposal := store.proposals[pid];
      var resumed := DecideOrResume(pid, proposal.kind, verdict, execute);
      forall q ensures ToolInv(q) {
        assert old(ToolInv(q));
      }
      if resumed.Err? {
        return Err(Tool(resumed.error));
      }
      if resumed.value.0 {
        toolResumed := toolResumed + multiset{pid};
      }
      var stored := if pid in store.proposals then store.proposals[pid] else proposal;
      if stored.status != Pending {
        pending.Discard(pid);
      }
      forall q ensures ToolInv(q) {
        assert old(ToolInv(q));
      }
      forall q ensures MemoryInv(q) {
        assert old(MemoryInv(q));
      }
      return Ok(ApprovalDecision(stored, resumed.value.0, resumed.value.1));
    }

    /** Resume a tool call; decide any other kind. */
    method DecideOrResume(pid: ProposalId, kind: Kind, verdict: Verdict, execute: Option<Proposal -> Option<Json>>)
      returns (r: Result<(bool, bool), Gateway.GatewayError>)
      requires store.Valid() && CleanKeys(store.checkpoints)
      modifies store
      ensures store.Valid() && CleanKeys(store.checkpoints)
      ensures forall p :: Spent(old(store.World()), p) ==> Spent(store.World(), p)
      ensures r.Ok? && r.value.0 ==> verdict.ToApprove? && !Spent(old(store.World()), pid) && Spent(store.World(), pid)
      ensures !verdict.ToApprove? ==> store.World().runs == old(store.World().runs)
      // a tool call is executed by its approval, any other kind only decided
      ensures kind == ToolKind && verdict.ToApprove? && old(Executable(pid)) ==>
        (r.Ok? && r.value.0) || r == Err(Gateway.ExecuteRaised)
      ensures kind != ToolKind ==>
        && store.World().runs == old(store.World().runs) && (r.Ok? ==> r.value == (false, false))
        && store.effects == old(store.effects) && store.checkpoints == old(store.checkpoints)
      ensures ToolRows(old(store.proposals), store.proposals, pid, verdict.ToApprove?, r.Ok?)
    {
      hide ProtocolRuns.Run, Spent, CleanKeys, Gateway.Store.Valid, ToolRows;
      if kind == ToolKind {
        r := ResumeTool(pid, verdict.ToApprove?, execute);
      } else {
        var decided := DecideOnly(pid, verdict.ToApprove?);
        r := if decided.Ok? then Ok((false, false)) else Err(decided.error);
      }
    }

    lemma ResumedIsThere(pid: ProposalId)
      requires Valid()
      ensures pid in memoryResumed ==> pid in memory.proposals
    {
      assert MemoryInv(pid);
    }

    lemma DoneIsStored(pid: ProposalId)
      requires memory.Done(pid)
      ensures pid in memory.proposals
    {
    }

    /** The first half of a decision: the caller owns an unexpired card. */
    method CheckOwner(rawId: string, owner: string, now: int) returns (r: Result<ProposalId, PresenterError>)
      requires Valid()
      modifies pending
      ensures Valid()
      ensures var pid := Strip(rawId); r == if pid == "" then Err(IdRequired)
        else if old(pending.Usable(pid, owner, now)) then Ok(pid) else Err(NotYours)
      ensures r.Ok? ==> pending.cards == old(pending.cards)
    {
      hide Strip, ProtocolRuns.Run, Spent, CleanKeys, ToolsFine, Gateway.Store.Valid, Memory.MemoryService.Valid,
        Memory.MemoryService.Done;
      var pid := Strip(rawId);
      if pid == "" {
        return Err(IdRequired);
      }
      var usable := pending.Resolve(pid, owner, now);
      forall q ensures MemoryInv(q) {
        assert old(MemoryInv(q));
      }
      return if usable then Ok(pid) else Err(NotYours);
    }

    /** The second half: the decision and the resume, by the kind of the approval. */
    method Decide(pid: ProposalId, verdict: Verdict, owner: string, hasCorpus: bool, edited: Option<Payload>,
                  execute: Option<Proposal -> Option<Json>>, editor: Memory.Editor, stop: Memory.Interruption)
      returns (r: Result<ApprovalDecision, PresenterError>)
      requires Valid()
      modifies this`toolResumed, this`memoryResumed, this`overlapped, store, memory, pending
      ensures Valid() && Counted(pid, pid !in old(memory.proposals), r.Ok? && r.value.resumed)
      ensures overlapped ==
        old(overlapped) + (if pid in old(memoryResumed) && pid !in old(pending.cards) then {pid} else {})
      ensures r.Ok? && r.value.resumed ==> verdict.ToApprove?
      ensures pid in old(toolResumed) && pid !in old(memory.proposals) ==> !(r.Ok? && r.value.resumed)
      // a memory approval that came back resumed does so again whenever its outcome is on record
      ensures pid in old(memoryResumed) && verdict.ToApprove? && hasCorpus && stop.Never? ==>
        (r.Ok? && r.value.resumed <==> old(Key(pid)) != "")
      ensures pid in old(memoryResumed) ==> memory.corpus == old(memory.corpus)
      ensures old(memory.WouldApply(pid, editor)) && verdict.ToApprove? && hasCorpus && edited.None? && stop.Never? ==>
        r.Ok? && r.value.resumed
      ensures r.Ok? && r.value.resumed && pid in old(memory.proposals) && edited.None? ==> Key(pid) == old(Key(pid))
      ensures !verdict.ToApprove? ==> memory.corpus == old(memory.corpus)
      ensures !verdict.ToApprove? ==> store.World().runs == old(store.World().runs)
      // an approved tool call is executed unless `execute` raises; any other kind is only decided
      ensures
        && pid !in old(memory.proposals) && verdict.ToApprove? && old(Executable(pid))
        && old(store.proposals)[pid].kind == ToolKind ==>
        (r.Ok? && r.value.resumed) || r == Err(Tool(Gateway.ExecuteRaised))
      // the decision that is stored and answered is the one that was made, and no other row changes
      ensures pid in old(memory.proposals) && hasCorpus ==>
        && store.proposals == old(store.proposals)
        && MemoryRows(old(memory.proposals), memory.proposals, pid, verdict, edited, owner, r.Ok?)
      ensures pid in old(memory.proposals) && !hasCorpus ==>
        r.Err? && unchanged(store) && memory.proposals == old(memory.proposals)
      ensures pid !in old(memory.proposals) && !verdict.ToEdit? ==>
        && memory.proposals == old(memory.proposals)
        && ToolRows(old(store.proposals), store.proposals, pid, verdict.ToApprove?, r.Ok?)
      ensures pid !in old(memory.proposals) && verdict.ToEdit? ==>
        r.Err? && memory.proposals == old(memory.proposals) && store.proposals == old(store.proposals)
      ensures r.Ok? ==> Stored(pid) == Some(r.value.proposal)
      // the card goes when the approval is decided
      ensures pending.cards ==
        if r.Ok? && r.value.proposal.status != Pending then old(pending.cards) - {pid}
        else old(pending.cards)
    {
      hide ProtocolRuns.Run, Spent, CleanKeys, ToolsFine, Gateway.Store.Valid, Memory.MemoryService.Valid,
        Memory.MemoryService.Done, Key, MemoryRows, ToolRows;
      assert MemoryInv(pid);
      if pid in memoryResumed {
        DoneIsStored(pid);
      }
      if pid in memory.proposals {
        r := DecideMemoryCard(pid, verdict, hasCorpus, edited, editor, owner, stop);
      } else {
        r := DecideToolCard(pid, verdict, execute);
      }
    }

    /** A decision of the owner of an unexpired card. */
    method DecideOwned(pid: ProposalId, verdict: Verdict, owner: string, now: int, hasCorpus: bool,
                       edited: Option<Payload>, execute: Option<Proposal -> Option<Json>>,
                       editor: Memory.Editor, stop: Memory.Interruption)
      returns (r: Result<ApprovalDecision, PresenterError>)
      requires Valid() && pid != "" && pending.Usable(pid, owner, now)
      modifies this`toolResumed, this`memoryResumed, this`overlapped, store, memory, pending
      ensures Valid() && overlapped == old(overlapped)
      ensures Counted(pid, pid !in old(memory.proposals), r.Ok? && r.value.resumed)
      ensures r.Ok? && r.value.resumed ==> verdict.ToApprove?
      ensures pid in old(toolResumed) && pid !in old(memory.proposals) ==> !(r.Ok? && r.value.resumed)
      ensures pid in old(memoryResumed) && verdict.ToApprove? && hasCorpus && stop.Never? ==>
        (r.Ok? && r.value.resumed <==> old(Key(pid)) != "")
      ensures pid in old(memoryResumed) ==> memory.corpus == old(memory.corpus)
      ensures old(memory.WouldApply(pid, editor)) && verdict.ToApprove? && hasCorpus && edited.None? && stop.Never? ==>
        r.Ok? && r.value.resumed
      ensures r.Ok? && r.value.resumed && pid in old(memory.proposals) && edited.None? ==>
        Key(pid) == old(Key(pid))
      // an approved tool call is executed unless `execute` raises
      ensures
        && pid !in old(memory.proposals) && verdict.ToApprove?
        && old(Executable(pid)) && old(store.proposals)[pid].kind == ToolKind ==>
        (r.Ok? && r.value.resumed) || r == Err(Tool(Gateway.ExecuteRaised))
      // the decision that is stored and answered is the one that was made; nothing is executed or written on a denial
      ensures pid in old(memory.proposals) && hasCorpus ==>
          && store.proposals == old(store.proposals)
          && MemoryRows(old(memory.proposals), memory.proposals, pid, verdict, edited, owner, r.Ok?)
      ensures pid !in old(memory.proposals) && !verdict.ToEdit? ==>
          && memory.proposals == old(memory.proposals)
          && ToolRows(old(store.proposals), store.proposals, pid, verdict.ToApprove?, r.Ok?)
      ensures !verdict.ToApprove? ==>
        memory.corpus == old(memory.corpus) && store.World().runs == old(store.World().runs)
      ensures r.Ok? ==> Stored(pid) == Some(r.value.proposal)
      // the card goes when the approval is decided
      ensures r.Ok? ==>
        pending.cards == if r.value.proposal.status != Pending then old(pending.cards) - {pid}
          else old(pending.cards)
    {
      ResumedIsThere(pid);
      pending.UsableIsThere(pid, owner, now);
      hide Valid, Memory.MemoryService.WouldApply, Key, PendingConfirmations.Usable, MemoryRows, ToolRows, Stored,
        Gateway.Store.World, Executable;
      r := Decide(pid, verdict, owner, hasCorpus, edited, execute, editor, stop);
    }

    /** The one decision path of both surfaces: owner and expiry first, then the decision, then the
        resume; here with nothing in between. */
    method DecideApproval(rawId: string, verdict: Verdict, owner: string, now: int, hasCorpus: bool,
                          edited: Option<Payload>, execute: Option<Proposal -> Option<Json>>,
                          editor: Memory.Editor, stop: Memory.Interruption)
      returns (r: Result<ApprovalDecision, PresenterError>)
      requires Valid()
      modifies this`toolResumed, this`memoryResumed, this`overlapped, store, memory, pending
      ensures Valid() && overlapped == old(overlapped)
      ensures Counted(Strip(rawId), Strip(rawId) !in old(memory.proposals), r.Ok? && r.value.resumed)
      // whoever does not own an unexpired card decides nothing
      ensures Strip(rawId) == "" || !old(pending.Usable(Strip(rawId), owner, now)) ==>
        r.Err? && unchanged(store) && unchanged(memory)
      ensures r.Ok? && r.value.resumed ==> verdict.ToApprove?
      ensures Strip(rawId) in old(toolResumed) && Strip(rawId) !in old(memory.proposals) ==> !(r.Ok? && r.value.resumed)
      ensures Strip(rawId) in old(memoryResumed) && verdict.ToApprove? && hasCorpus && stop.Never? ==>
        (r.Ok? && r.value.resumed <==>
          Strip(rawId) != "" && old(pending.Usable(Strip(rawId), owner, now)) && old(Key(Strip(rawId))) != "")
      ensures Strip(rawId) in old(memoryResumed) ==> memory.corpus == old(memory.corpus)
      ensures
        && Strip(rawId) != "" && old(pending.Usable(Strip(rawId), owner, now))
        && old(memory.WouldApply(Strip(rawId), editor)) ==>
        verdict.ToApprove? && hasCorpus && edited.None? && stop.Never? ==> r.Ok? && r.value.resumed
      ensures r.Ok? && r.value.resumed && Strip(rawId) in old(memory.proposals) && edited.None? ==>
        Key(Strip(rawId)) == old(Key(Strip(rawId)))
      // an approved tool call is executed unless `execute` raises
      ensures var pid := Strip(rawId);
        && pid != "" && old(pending.Usable(pid, owner, now)) && pid !in old(memory.proposals) && verdict.ToApprove?
        && old(Executable(pid)) && old(store.proposals)[pid].kind == ToolKind ==>
        (r.Ok? && r.value.resumed) || r == Err(Tool(Gateway.ExecuteRaised))
      // the decision that is stored and answered is the one that was made; nothing is executed or written on a denial
      ensures var pid := Strip(rawId);
        pid != "" && old(pending.Usable(pid, owner, now)) && pid in old(memory.proposals) && hasCorpus ==>
          && store.proposals == old(store.proposals)
          && MemoryRows(old(memory.proposals), memory.proposals, pid, verdict, edited, owner, r.Ok?)
      ensures var pid := Strip(rawId);
        pid != "" && old(pending.Usable(pid, owner, now)) && pid !in old(memory.proposals) && !verdict.ToEdit? ==>
          && memory.proposals == old(memory.proposals)
          && ToolRows(old(store.proposals), store.proposals, pid, verdict.ToApprove?, r.Ok?)
      ensures !verdict.ToApprove? ==>
        memory.corpus == old(memory.corpus) && store.World().runs == old(store.World().runs)
      ensures r.Ok? ==> Stored(Strip(rawId)) == Some(r.value.proposal)
      // the card goes when the approval is decided
      ensures r.Ok? ==>
        pending.cards == if r.value.proposal.status != Pending then old(pending.cards) - {Strip(rawId)}
          else old(pending.cards)
    {
      ResumedIsThere(Strip(rawId));
      hide Strip, Valid, Memory.MemoryService.WouldApply, Key, PendingConfirmations.Usable, MemoryRows, ToolRows,
        Stored, Gateway.Store.World, Executable;
      var checked := CheckOwner(rawId, owner, now);
      if checked.Err? {
        return Err(checked.error);
      }
      r := DecideOwned(checked.value, verdict, owner, now, hasCorpus, edited, execute, editor, stop);
    }
  }

  /** Showing a resumed memory approval again from a copy read before the decision makes it come
      back resumed once more, although nothing is applied twice. */
  method ResumeAgain(desk: Desk, pid: ProposalId, copy: Proposal, owner: string, now: int, editor: Memory.Editor)
    requires desk.Valid() && pid in desk.memoryResumed && pid !in desk.pending.cards
    requires Strip(pid) == pid != "" && desk.Key(pid) != "" && copy.status == Pending && owner != ""
    modifies desk, desk.store, desk.memory, desk.pending
    ensures desk.Valid() && pid in desk.stale
    ensures desk.memoryResumed == old(desk.memoryResumed) + multiset{pid}
    ensures desk.memory.corpus == old(desk.memory.corpus) && desk.memory.successes[pid] <= 1
  {
    hide Strip, TextOf, Desk.Key;
    ResumedIsStored(desk, pid);
    var shown := desk.Present(pid, copy, owner, now);
    var again := desk.DecideApproval(pid, ToApprove, owner, now, true, None, None, editor, Memory.Never);
    desk.memory.AppliedAtMostOnce(pid);
  }

  lemma ResumedIsStored(desk: Desk, pid: ProposalId)
    requires desk.Valid() && pid in desk.memoryResumed
    ensures pid in desk.memory.proposals
  {
    assert desk.MemoryInv(pid);
  }

  /** A run in which one memory approval comes back resumed twice. */
  method StaleCopyResumesTwice() returns (desk: Desk)
    ensures desk.Valid() && "p" in desk.stale && desk.memoryResumed["p"] == 2 && desk.memory.successes["p"] <= 1
  {
    hide Strip, TextOf, Desk.Key, Memory.Applied;
    var editor: Memory.Editor := (location, text, payload) => Some("text");
    var copy;
    desk, copy := FirstResume(editor);
    ResumeAgain(desk, "p", copy, "owner", 2, editor);
  }

  /** A run without an outdated copy in which one memory approval comes back resumed twice: both
      calls of the owner pass the check before either decides. */
  method OverlappingDecisionsResumeTwice() returns (desk: Desk)
    ensures desk.Valid() && desk.stale == {} && desk.overlapped == {"p"}
    ensures desk.memoryResumed["p"] == 2 && desk.memory.successes["p"] <= 1
  {
    hide Strip, TextOf, Desk.Key, Memory.Applied;
    var editor: Memory.Editor := (location, text, payload) => Some("text");
    var one, two;
    desk, one, two := FirstOfTwo(editor);
    var second := desk.Decide(two, ToApprove, "owner", true, None, None, editor, Memory.Never);
    desk.memory.AppliedAtMostOnce("p");
  }

  /** Two calls pass the owner check, then the first of them decides. */
  method FirstOfTwo(editor: Memory.Editor) returns (desk: Desk, one: ProposalId, two: ProposalId)
    requires forall l, t, q :: editor(l, t, q) == Some("text")
    ensures fresh(desk) && fresh(desk.store) && fresh(desk.memory) && fresh(desk.pending)
    ensures desk.Valid() && one == two == "p" && desk.stale == {} && desk.overlapped == {}
    ensures desk.memoryResumed == multiset{"p"} && "p" !in desk.pending.cards && desk.Key("p") == "k"
    ensures "p" in desk.memory.proposals
  {
    hide Strip, TextOf, Desk.Key, Memory.Applied, MemoryRows, ToolRows;
    desk := WaitingCard(editor);
    var first := desk.CheckOwner("p", "owner", 1);
    var second := desk.CheckOwner("p", "owner", 1);
    one, two := first.value, second.value;
    var decided := desk.Decide(one, ToApprove, "owner", true, None, None, editor, Memory.Never);
    assert desk.MemoryInv("p");
  }

  /** A desk with one presented memory proposal that an approval would apply. */
  method WaitingCard(editor: Memory.Editor) returns (desk: Desk)
    requires forall l, t, q :: editor(l, t, q) == Some("text")
    ensures fresh(desk) && fresh(desk.store) && fresh(desk.memory) && fresh(desk.pending)
    ensures desk.Valid() && desk.memoryResumed == multiset{} && desk.stale == {} && desk.overlapped == {}
    ensures desk.memory.WouldApply("p", editor) && desk.memory.proposals["p"].status == Pending
    ensures desk.pending.cards == map["p" := Card("owner", TTL_SECONDS)]
    ensures desk.Key("p") == "k" && Strip("p") == "p"
  {
    Memory.ModelAsAsked("json_memory", Memory.NOTE, map[], "k");
    hide Strip, TextOf, Memory.Applied, Lower, Memory.ModelPayload, Memory.WellFormed, Memory.AsAsked;
    desk := new Desk();
    Memory.Applies(editor, "k");
    Memory.NotAutomatic("", "p");
    var proposed := desk.memory.ProposeModelWrite("json_memory", Memory.NOTE, map[], "", false, "k", "p");
    var shown := desk.Present("p", desk.memory.proposals["p"], "owner", 0);
  }

  method FirstResume(editor: Memory.Editor) returns (desk: Desk, copy: Proposal)
    requires forall l, t, q :: editor(l, t, q) == Some("text")
    ensures fresh(desk) && fresh(desk.store) && fresh(desk.memory) && fresh(desk.pending)
    ensures desk.Valid() && desk.memoryResumed == multiset{"p"} && "p" !in desk.pending.cards
    ensures copy.status == Pending && desk.Key("p") == "k" && Strip("p") == "p"
  {
    hide Strip, TextOf, Memory.Applied, Desk.Key;
    desk := WaitingCard(editor);
    copy := desk.memory.proposals["p"];
    var first := desk.DecideApproval("p", ToApprove, "owner", 1, true, None, None, editor, Memory.Never);
    assert desk.MemoryInv("p");
  }
}
