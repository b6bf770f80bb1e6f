/** The approval inbox: proposal rows, decisions, and edits that may not retarget a proposal. */
module PassStore {
  import opened Core

  type ProposalId = string

  datatype Status = Pending | Approved | Rejected | Edited | Expired

  datatype Kind = PartitionKind | ToolKind | MemoryKind | SkillEvolutionKind

  datatype Decision = Approve | Reject | Edit(edited: Payload) | Expire

  function StatusOf(d: Decision): Status {
    match d
    case Approve => Approved
    case Reject => Rejected
    case Edit(_) => Edited
    case Expire => Expired
  }

  datatype Proposal = Proposal(kind: Kind, status: Status, action: string, payload: Payload)

  type Proposals = map<ProposalId, Proposal>

  const FROZEN_TARGET_KEYS: set<string> := {"path", "revision", "expected_revision"}

  /** Same presence and same value of every frozen key. */
  ghost predicate SameTargets(a: Payload, b: Payload) {
    forall k :: k in FROZEN_TARGET_KEYS ==> (k in a <==> k in b) && (k in a ==> a[k] == b[k])
  }

  /** The edit names a frozen key that the original lacks or holds with another value. */
  predicate Retargets(original: Payload, edited: Payload) {
    exists k :: k in edited && k in FROZEN_TARGET_KEYS && (k in original ==> edited[k] != original[k])
  }

  /** None is the refusal. */
  function Merged(original: Payload, edited: Payload): Option<Payload> {
    if Retargets(original, edited) then None else Some(original + (edited - FROZEN_TARGET_KEYS))
  }

  /** An accepted edit keeps every target, takes every other edited key, and keeps the rest. */
  lemma MergedMeaning(original: Payload, edited: Payload)
    ensures Merged(original, edited).None? <==>
      exists k :: k in FROZEN_TARGET_KEYS && k in edited && (k !in original || original[k] != edited[k])
    ensures Merged(original, edited).Some? ==>
      var m := Merged(original, edited).value;
      && SameTargets(original, m)
      && (forall k :: k in edited ==> k in m && m[k] == edited[k])
      && (forall k :: k in original && k !in edited ==> k in m && m[k] == original[k])
      && m.Keys == original.Keys + edited.Keys
  {
    if Merged(original, edited).Some? {
      var m := Merged(original, edited).value;
      forall k | k in edited ensures k in m && m[k] == edited[k] {
        if k in FROZEN_TARGET_KEYS {
          assert k in original && edited[k] == original[k];
        }
      }
      assert m.Keys == original.Keys + edited.Keys;
    }
  }

  datatype PassError =
    | ProposalNotFound
    | AlreadyDecided(status: Status)
    | CannotRetarget
    | EditNeedsPayload
    | PayloadOnlyForEdit
    | DuplicateId

  /** The row that an uninterrupted `decide` leaves behind, or why it raises. */
  function DecidedRow(t: Proposals, pid: ProposalId, d: Decision): Result<Proposal, PassError> {
    if pid !in t then Err(ProposalNotFound)
    else if t[pid].status != Pending then Err(AlreadyDecided(t[pid].status))
    else
      var merged := if d.Edit? then Merged(t[pid].payload, d.edited) else Some(t[pid].payload);
      if merged.None? then Err(CannotRetarget) else Ok(t[pid].(status := StatusOf(d), payload := merged.value))
  }

  /** Only a PENDING proposal can be decided, it leaves PENDING for good, and no decision retargets
      it: an edit that would is refused and nothing else is. */
  lemma DecidedRowMeaning(t: Proposals, pid: ProposalId, d: Decision)
    ensures DecidedRow(t, pid, d).Ok? <==>
      pid in t && t[pid].status == Pending && (d.Edit? ==> !Retargets(t[pid].payload, d.edited))
    ensures DecidedRow(t, pid, d).Ok? ==>
      var row := DecidedRow(t, pid, d).value;
      && row.status == StatusOf(d) != Pending
      && row.kind == t[pid].kind && row.action == t[pid].action
      && SameTargets(t[pid].payload, row.payload)
      && (!d.Edit? ==> row.payload == t[pid].payload)
      && (d.Edit? ==> TakenEdit(t[pid].payload, d.edited, "", row.payload))
      && (row.status == match d
            case Approve => Approved
            case Reject => Rejected
            case Edit(_) => Edited
            case Expire => Expired)
      && DecidedRow(t[pid := row], pid, d) == Err(AlreadyDecided(row.status))
  {
    if pid in t && d.Edit? {
      MergedMeaning(t[pid].payload, d.edited);
    }
  }

  /** `stage_edit`'s payload: the merged edit, signed by its actor if there is one. */
  function StagedEdit(original: Payload, edited: Payload, actor: string): Option<Payload> {
    var merged := Merged(original, edited);
    if merged.None? || actor == "" then merged else Some(merged.value["staged_by" := Value(Strip(actor))])
  }

  /** Whoever signs it: a staged edit is refused exactly when it changes or adds a frozen target; an
      accepted one keeps the targets, takes every other edited key, keeps the rest, and names its
      actor if there is one. */
  lemma StagedMeaning(original: Payload, edited: Payload, actor: string)
    ensures StagedEdit(original, edited, actor).None? <==>
      exists k :: k in FROZEN_TARGET_KEYS && k in edited && (k !in original || original[k] != edited[k])
    ensures StagedEdit(original, edited, actor).Some? ==>
      TakenEdit(original, edited, actor, StagedEdit(original, edited, actor).value)
    ensures StagedEdit(original, edited, actor).None? <==> Retargets(original, edited)
  {
    MergedMeaning(original, edited);
  }

  predicate TakenEdit(original: Payload, edited: Payload, actor: string, staged: Payload) {
    var signed := if actor == "" then {} else {"staged_by"};
    && (forall k :: k in FROZEN_TARGET_KEYS ==> (k in staged <==> k in original))
    && (forall k :: k in FROZEN_TARGET_KEYS && k in original ==> staged[k] == original[k])
    && (forall k :: k in edited && k !in signed ==> k in staged && staged[k] == edited[k])
    && (forall k :: k in original && k !in edited && k !in signed ==> k in staged && staged[k] == original[k])
    && (forall k :: k in staged ==> k in original || k in edited || k in signed)
    && (actor != "" ==> "staged_by" in staged && staged["staged_by"] == Value(Strip(actor)))
  }

  lemma MergedKeepsTargets(created: Payload, original: Payload, edited: Payload)
    requires SameTargets(created, original) && Merged(original, edited).Some?
    ensures SameTargets(created, Merged(original, edited).value)
  {
    MergedMeaning(original, edited);
  }

  lemma StagedKeepsTargets(created: Payload, original: Payload, edited: Payload, actor: string)
    requires SameTargets(created, original) && StagedEdit(original, edited, actor).Some?
    ensures SameTargets(created, StagedEdit(original, edited, actor).value)
  {
    MergedKeepsTargets(created, original, edited);
  }

  /** The edit loop, one edited key at a time in any order. */
  method MergeEdit(original: Payload, edited: Payload) returns (r: Option<Payload>)
    ensures r == Merged(original, edited)
  {
    var merged := original;
    var todo := edited.Keys;
    while todo != {}
      invariant todo <= edited.Keys
      invariant forall k :: k in edited && k in FROZEN_TARGET_KEYS && k !in todo ==>
        k in original && edited[k] == original[k]
      invariant merged == original + (edited - FROZEN_TARGET_KEYS - todo)
    {
      var k :| k in todo;
      if k in FROZEN_TARGET_KEYS {
        if k in original && edited[k] != original[k] {
          return None;
        }
        if k !in original {
          return None;
        }
      } else {
        merged := merged[k := edited[k]];
      }
      todo := todo - {k};
    }
    assert edited - FROZEN_TARGET_KEYS - todo == edited - FROZEN_TARGET_KEYS;
    return Some(merged);
  }
}
