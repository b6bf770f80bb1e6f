/** Human-approved memory writes: model writes become proposals, an approval applies the stored
    payload to the corpus under an optimistic revision lock, and the outcome is recorded. */
module Memory {
  import opened Core
  import opened PassStore

  type Key = string

  datatype Target = JsonMemory | WorkspaceText

  /** One slot of the corpus: a memory key or a document path. */
  datatype Location = Location(target: Target, key: string)

  datatype Entry = Entry(text: string, revision: int)

  type Corpus = map<Location, Entry>

  /** What a write wants of its slot. */
  datatype Change = PutValue(value: Json) | EditText(oldText: string, newText: string)

  /** The content checks and the new content of a change whose revision fits: JSON validity, the
      unique match of the old text, the size limit. None is a refusal. */
  type Editor = (Location, string, Change) -> Option<string>

  datatype ApplyResult = ApplyResult(ok: bool, location: Location, revision: int)

  datatype MemoryError =
    | Pass(error: PassError)
    | NotMemory
    | BadDecision
    | AlwaysAllowRefused
    | NotApprovable(status: Status)
    | BadTarget
    | KeyRequired
    | ContentRequired
    | BadActor
    | BadRevision
    | UnknownKey(key: Key)
    | DuplicateKey
    | Interrupted

  function Revision(corpus: Corpus, l: Location): int {
    if l in corpus then corpus[l].revision else 0
  }

  function TargetOf(p: Payload): Option<Target> {
    var t := Lower(Strip(TextOf(p, "target")));
    if t == "json_memory" then Some(JsonMemory) else if t == "workspace_text" then Some(WorkspaceText) else None
  }

  function PayloadKey(p: Payload, t: Target): string {
    if t.JsonMemory? && TextOf(p, "key") != "" then TextOf(p, "key") else TextOf(p, "path")
  }

  /** The place a payload writes to. */
  function LocationOf(p: Payload): Option<Location> {
    var t := TargetOf(p);
    if t.None? then None else Some(Location(t.value, PayloadKey(p, t.value)))
  }

  /** `expected_revision`, or else `revision`; Err when it is there and not an integer. */
  function ExpectedRevision(p: Payload): Result<Option<int>, MemoryError> {
    var raw := if "expected_revision" in p then p["expected_revision"] else if "revision" in p then p["revision"]
      else Null;
    match raw
    case Null => Ok(None)
    case Number(n) => Ok(Some(n))
    case Value(_) => Err(BadRevision)
  }

  // ---------------------------------------------------------------- building a payload

  /** What a payload wants: `_body_value` for a memory key; the old text and `_workspace_new_text` for
      a document. */
  function ChangeOf(p: Payload, t: Target): Change {
    if t.JsonMemory? then
      PutValue(if "value" in p then p["value"] else if "text" in p then p["text"] else Null)
    else EditText(TextOf(p, "old_text"), if "new_text" in p then TextOf(p, "new_text") else TextOf(p, "text"))
  }

  /** Where a payload of any origin writes and what: a memory key before a path, a document by its path
      alone; a value before a text, and a new text, even an empty one, before a text. */
  lemma PayloadMeaning(p: Payload)
    ensures var raw := Lower(Strip(TextOf(p, "target"))); var key, path := TextOf(p, "key"), TextOf(p, "path");
      && (LocationOf(p).None? <==> raw != "json_memory" && raw != "workspace_text")
      && (raw == "json_memory" && key != "" ==> LocationOf(p) == Some(Location(JsonMemory, key)))
      && (raw == "json_memory" && key == "" ==> LocationOf(p) == Some(Location(JsonMemory, path)))
      && (raw == "workspace_text" ==> LocationOf(p) == Some(Location(WorkspaceText, path)))
    ensures "value" in p ==> ChangeOf(p, JsonMemory) == PutValue(p["value"])
    ensures "value" !in p && "text" in p ==> ChangeOf(p, JsonMemory) == PutValue(p["text"])
    ensures "value" !in p && "text" !in p ==> ChangeOf(p, JsonMemory) == PutValue(Null)
    ensures "new_text" in p ==>
      ChangeOf(p, WorkspaceText) == EditText(TextOf(p, "old_text"), TextOf(p, "new_text"))
    ensures "new_text" !in p ==> ChangeOf(p, WorkspaceText) == EditText(TextOf(p, "old_text"), TextOf(p, "text"))
  {
    hide Lower, Strip, TextOf;
    assert |"json_memory"| == 11 && |"workspace_text"| == 14;
  }

  function TargetName(t: Target): string {
    if t.JsonMemory? then "json_memory" else "workspace_text"
  }

  /** `normalize_target`. */
  function NormalizeTarget(raw: string): Option<Target> {
    var t := Lower(Strip(raw));
    if t == "json_memory" then Some(JsonMemory) else if t == "workspace_text" then Some(WorkspaceText) else None
  }

  /** The arguments of a write. */
  datatype Write = Write(key: string, path: string, expected: int, value: Option<Json>,
                         text: string, oldText: string, newText: string)

  /** The slot that a write names: the key or the path, whichever its target looks at first. */
  function NamedSlot(t: Target, w: Write): string {
    Strip(if t.JsonMemory? then (if w.key != "" then w.key else w.path) else if w.path != "" then w.path else w.key)
  }

  /** What the write itself puts into the payload. */
  function Body(t: Target, w: Write, source: string, extra: Payload): Result<Payload, MemoryError> {
    var slot := NamedSlot(t, w);
    var head: Payload := map[
      "target" := Value(TargetName(t)), "source" := Value(source),
      "expected_revision" := Number(w.expected), "revision" := Number(w.expected), "path" := Value(slot)];
    if slot == "" then Err(KeyRequired)
    else if t.JsonMemory? then
      if w.value.Some? then Ok(head["key" := Value(slot)]["value" := w.value.value])
      else if w.text != "" then Ok(head["key" := Value(slot)]["value" := Value(w.text)]["text" := Value(w.text)])
      else Err(ContentRequired)
    else
      var new' := if w.newText != "" || "new_text" in extra then w.newText else w.text;
      Ok(head["old_text" := Value(w.oldText)]["new_text" := Value(new')]["text" := Value(new')])
  }

  /** `_build_payload`: extra fields only fill gaps, and never the frozen ones. */
  function BuiltPayload(t: Target, w: Write, source: string, actor: string, extra: Payload)
    : Result<Payload, MemoryError>
  {
    var body := Body(t, w, source, extra);
    if body.Err? then body
    else
      var signed := if actor != "" then body.value["actor" := Value(actor)] else body.value;
      Ok((extra - FROZEN_TARGET_KEYS) + signed)
  }

  /** A write that can be built: a known target, a slot, and content for a memory key. */
  predicate WellFormed(rawTarget: string, w: Write) {
    match Lower(Strip(rawTarget))
    case "json_memory" => Strip(if w.key != "" then w.key else w.path) != "" && (w.value.Some? || w.text != "")
    case "workspace_text" => Strip(if w.path != "" then w.path else w.key) != ""
    case _ => false
  }

  /** The payload writes where the arguments say, on the revision they say, and what they say; the
      new text falls back to the text unless an empty new text is meant. */
  predicate AsAsked(p: Payload, rawTarget: string, w: Write, emptyMeant: bool) {
    && ExpectedRevision(p) == Ok(Some(w.expected))
    && match Lower(Strip(rawTarget))
       case "json_memory" =>
         && LocationOf(p) == Some(Location(JsonMemory, Strip(if w.key != "" then w.key else w.path)))
         && ChangeOf(p, JsonMemory) == PutValue(if w.value.Some? then w.value.value else Value(w.text))
       case "workspace_text" =>
         && LocationOf(p) == Some(Location(WorkspaceText, Strip(if w.path != "" then w.path else w.key)))
         && ChangeOf(p, WorkspaceText) ==
              EditText(w.oldText, if w.newText != "" || emptyMeant then w.newText else w.text)
       case _ => false
  }

  /** Building succeeds exactly on a complete write, and the payload is as asked, whatever the extra
      fields are. */
  lemma BuiltAsAsked(rawTarget: string, w: Write, source: string, actor: string, extra: Payload)
    ensures WellFormed(rawTarget, w) <==>
      NormalizeTarget(rawTarget).Some? && BuiltPayload(NormalizeTarget(rawTarget).value, w, source, actor, extra).Ok?
    ensures WellFormed(rawTarget, w) ==>
      AsAsked(BuiltPayload(NormalizeTarget(rawTarget).value, w, source, actor, extra).value, rawTarget, w,
              "new_text" in extra)
  {
    hide Lower, Strip;
    assert |"json_memory"| == 11 && |"workspace_text"| == 14;
    if WellFormed(rawTarget, w) {
      BuiltPayloadApplies(NormalizeTarget(rawTarget).value, w, source, actor, extra, map[], (l, text, change) => None);
      BuiltChange(NormalizeTarget(rawTarget).value, w, source, actor, extra);
    }
  }

  /** A payload says who made it, shows the text it would write, and keeps the extra fields that it has
      no use for itself; the target's own fields are never taken from them. */
  lemma BuiltFor(t: Target, w: Write, source: string, actor: string, extra: Payload)
    requires BuiltPayload(t, w, source, actor, extra).Ok?
    ensures var p := BuiltPayload(t, w, source, actor, extra).value;
      && "source" in p && p["source"] == Value(source)
      && (actor != "" ==> "actor" in p && p["actor"] == Value(actor))
      && (t.JsonMemory? && w.value.None? ==> "text" in p && p["text"] == Value(w.text))
      && (t.WorkspaceText? ==> "text" in p && "new_text" in p && p["text"] == p["new_text"])
      && (forall k :: k in extra && k !in BUILT_FIELDS ==> k in p && p[k] == extra[k])
      && (forall k :: k in p ==> k in extra || k in BUILT_FIELDS)
  {
    hide NamedSlot;
    NamesDiffer();
    ContentNamesDiffer();
  }

  const BUILT_FIELDS: set<string> := {
    "target", "source", "expected_revision", "revision", "key", "path", "value", "text", "old_text", "new_text", "actor"
  }

  lemma BuiltChange(t: Target, w: Write, source: string, actor: string, extra: Payload)
    requires BuiltPayload(t, w, source, actor, extra).Ok?
    ensures ChangeOf(BuiltPayload(t, w, source, actor, extra).value, t) ==
      if t.JsonMemory? then PutValue(if w.value.Some? then w.value.value else Value(w.text))
      else EditText(w.oldText, if w.newText != "" || "new_text" in extra then w.newText else w.text)
  {
    hide NamedSlot;
    NamesDiffer();
    ContentNamesDiffer();
  }

  lemma ContentNamesDiffer()
    ensures "actor" !in {"value", "text", "old_text", "new_text", "key", "path"}
    ensures "value" !in {"text", "key", "path", "actor"} && "text" !in {"key", "path", "actor", "value"}
    ensures "old_text" !in {"new_text", "text", "actor"} && "new_text" !in {"old_text", "text", "actor"}
  {
    assert |"actor"| == 5 && |"value"| == 5 && "actor"[0] == 'a' && "value"[0] == 'v';
    assert |"text"| == 4 && |"path"| == 4 && "text"[0] == 't' && "path"[0] == 'p' && |"key"| == 3;
    assert |"old_text"| == 8 && |"new_text"| == 8 && "old_text"[0] == 'o' && "new_text"[0] == 'n';
  }

  /** A built payload writes to the slot it was built for, on the revision it was built with, and
      applying it never raises, whatever the extra fields say. */
  lemma BuiltPayloadApplies(t: Target, w: Write, source: string, actor: string, extra: Payload, corpus: Corpus,
                            editor: Editor)
    requires BuiltPayload(t, w, source, actor, extra).Ok?
    ensures var p := BuiltPayload(t, w, source, actor, extra).value;
      && LocationOf(p) == Some(Location(t, NamedSlot(t, w))) && NamedSlot(t, w) != ""
      && ExpectedRevision(p) == Ok(Some(w.expected))
      && Applied(corpus, p, editor).Ok?
  {
    var p := BuiltPayload(t, w, source, actor, extra).value;
    var slot := NamedSlot(t, w);
    BuiltFields(t, w, source, actor, extra);
    BuiltTarget(t, p, TargetName(t));
    hide BuiltPayload, NamedSlot, TargetOf;
  }

  /** The idempotency key that a proposal adds does not change what its payload writes to. */
  lemma KeyedTheSame(p: Payload, key: Json)
    ensures LocationOf(p["idempotency_key" := key]) == LocationOf(p)
    ensures ExpectedRevision(p["idempotency_key" := key]) == ExpectedRevision(p)
    ensures forall t :: ChangeOf(p["idempotency_key" := key], t) == ChangeOf(p, t)
  {
    assert |"value"| == 5 && |"text"| == 4 && |"old_text"| == 8 && |"new_text"| == 8;
    var keyed := p["idempotency_key" := key];
    KeyedText(p, key, "value");
    KeyedText(p, key, "text");
    KeyedText(p, key, "old_text");
    KeyedText(p, key, "new_text");
    KeyedText(p, key, "target");
    KeyedText(p, key, "key");
    KeyedText(p, key, "path");
    hide Lower, Strip, TextOf;
    assert |"idempotency_key"| == 15 && |"target"| == 6 && |"key"| == 3 && |"path"| == 4 && |"revision"| == 8;
    assert |"expected_revision"| == 17;
  }

  lemma KeyedText(p: Payload, key: Json, name: string)
    requires |name| != |"idempotency_key"|
    ensures TextOf(p["idempotency_key" := key], name) == TextOf(p, name)
  {
    hide Strip;
    assert name != "idempotency_key";
  }

  lemma BuiltFields(t: Target, w: Write, source: string, actor: string, extra: Payload)
    requires BuiltPayload(t, w, source, actor, extra).Ok?
    ensures var p, slot := BuiltPayload(t, w, source, actor, extra).value, NamedSlot(t, w);
      && slot != "" && "target" in p && p["target"] == Value(TargetName(t))
      && "path" in p && p["path"] == Value(slot) && (t.JsonMemory? ==> "key" in p && p["key"] == Value(slot))
      && "expected_revision" in p && p["expected_revision"] == Number(w.expected)
  {
    hide NamedSlot;
    NamesDiffer();
  }

  /** The field names of a payload are different. */
  lemma NamesDiffer()
    ensures "target" !in {"source", "expected_revision", "revision", "path", "key"}
    ensures "target" !in {"value", "text", "old_text", "new_text", "actor"}
    ensures "path" !in {"source", "expected_revision", "revision", "key"}
    ensures "path" !in {"value", "text", "old_text", "new_text", "actor"}
    ensures "key" !in {"source", "expected_revision", "revision", "value", "text", "old_text", "new_text", "actor"}
    ensures "expected_revision" !in {"source", "revision", "value", "text", "old_text", "new_text", "actor"}
  {
    assert |"target"| == 6 && |"source"| == 6 && "target"[0] == 't' && "source"[0] == 's';
    assert |"path"| == 4 && |"text"| == 4 && "path"[0] == 'p' && "text"[0] == 't';
    assert |"expected_revision"| == 17 && |"revision"| == 8 && |"key"| == 3 && |"value"| == 5;
    assert |"old_text"| == 8 && |"new_text"| == 8 && |"actor"| == 5;
  }

  lemma BuiltTarget(t: Target, p: Payload, name: string)
    requires "target" in p && p["target"] == Value(name) && name == TargetName(t)
    ensures TargetOf(p) == Some(t)
  {
    hide Strip, Lower;
    StripStripped(name);
    LowerSame(name);
    assert |"json_memory"| == 11 && |"workspace_text"| == 14;
  }

  /** The payload of a user's own write, or why it raises. */
  function UserPayload(actor: string, rawTarget: string, w: Write): Result<Payload, MemoryError> {
    var cleaned := Lower(Strip(actor));
    var t := NormalizeTarget(rawTarget);
    if cleaned !in USER_ACTORS then Err(BadActor)
    else if t.None? then Err(BadTarget)
    else BuiltPayload(t.value, w, "user", cleaned, map[])
  }

  /** The payload of a model's write, or why it raises. */
  function ModelPayload(rawTarget: string, w: Write, extra: Payload): Result<Payload, MemoryError> {
    var t := NormalizeTarget(rawTarget);
    if t.None? then Err(BadTarget) else BuiltPayload(t.value, w, "model", "model", extra)
  }

  lemma UserAsAsked(actor: string, rawTarget: string, w: Write)
    ensures UserPayload(actor, rawTarget, w).Ok? <==>
      Lower(Strip(actor)) in {"user", "pollen", "vault"} && WellFormed(rawTarget, w)
    ensures UserPayload(actor, rawTarget, w).Ok? ==>
      AsAsked(UserPayload(actor, rawTarget, w).value, rawTarget, w, false)
  {
    hide Lower, Strip, BuiltPayload, WellFormed, AsAsked, NormalizeTarget;
    BuiltAsAsked(rawTarget, w, "user", Lower(Strip(actor)), map[]);
  }

  /** Why a payload cannot be built: no such target, no slot, or no content. */
  lemma BuildRefusals(rawTarget: string, w: Write, extra: Payload)
    ensures ModelPayload(rawTarget, w, extra).Err? ==>
      ModelPayload(rawTarget, w, extra).error in {BadTarget, KeyRequired, ContentRequired}
  {
    hide NormalizeTarget, NamedSlot;
  }

  lemma ModelAsAsked(rawTarget: string, w: Write, extra: Payload, key: string)
    ensures ModelPayload(rawTarget, w, extra).Ok? <==> WellFormed(rawTarget, w)
    ensures ModelPayload(rawTarget, w, extra).Ok? ==>
      var p := ModelPayload(rawTarget, w, extra).value["idempotency_key" := Value(key)];
      AsAsked(p, rawTarget, w, "new_text" in extra) && IdempotencyKey(p) == key
  {
    hide Lower, Strip, BuiltPayload, WellFormed, NormalizeTarget, LocationOf, ExpectedRevision, ChangeOf;
    BuiltAsAsked(rawTarget, w, "model", "model", extra);
    if ModelPayload(rawTarget, w, extra).Ok? {
      KeyedTheSame(ModelPayload(rawTarget, w, extra).value, Value(key));
    }
  }

  const USER_ACTORS: set<string> := {"user", "pollen", "vault"}

  // ---------------------------------------------------------------- applying a payload

  /** The corpus after applying a payload, with what is reported. */
  function Applied(corpus: Corpus, p: Payload, editor: Editor): Result<(Corpus, ApplyResult), MemoryError> {
    var l := LocationOf(p);
    var expected := ExpectedRevision(p);
    if l.None? then Err(BadTarget)
    else if expected.Err? then Err(expected.error)
    else if l.value.target.JsonMemory? && l.value.key == "" then Err(KeyRequired)
    else
      var now := Revision(corpus, l.value);
      var text := if l.value in corpus then corpus[l.value].text else "";
      if expected.value != Some(now) then Ok((corpus, ApplyResult(false, l.value, now)))
      else
        var edited := editor(l.value, text, ChangeOf(p, l.value.target));
        if edited.None? then Ok((corpus, ApplyResult(false, l.value, now)))
        else Ok((corpus[l.value := Entry(edited.value, now + 1)], ApplyResult(true, l.value, now + 1)))
  }

  /** A write succeeds only on the revision it names, moves that one slot to the next revision, and
      touches no other; a refused write touches nothing. */
  lemma AppliedMeaning(corpus: Corpus, p: Payload, editor: Editor)
    requires Applied(corpus, p, editor).Ok?
    ensures var (after, result) := Applied(corpus, p, editor).value;
      && LocationOf(p) == Some(result.location) && ExpectedRevision(p).Ok?
      && (result.ok ==> ExpectedRevision(p) == Ok(Some(Revision(corpus, result.location))))
      && (forall l :: l != result.location ==> (l in after <==> l in corpus) && (l in corpus ==> after[l] == corpus[l]))
      && Revision(after, result.location) == Revision(corpus, result.location) + (if result.ok then 1 else 0)
      && result.revision == Revision(after, result.location)
      && (!result.ok ==> after == corpus)
      && (result.location.target.JsonMemory? ==> result.location.key != "")
      && (result.ok ==>
            && result.location in after
            && var was := if result.location in corpus then corpus[result.location].text else "";
               editor(result.location, was, ChangeOf(p, result.location.target)) ==
                 Some(after[result.location].text))
  {
  }

  /** An effect row of a memory write: reserved for a proposal, or completed with its outcome. */
  datatype EffectRow = Reserved(proposal: ProposalId) | Completed(proposal: ProposalId, result: ApplyResult)

  datatype DecisionToken = ApproveToken | RejectToken | EditToken | OtherToken

  function IdempotencyKey(p: Payload): Key {
    TextOf(p, "idempotency_key")
  }

  /** A completed record that answers for whoever names this key. */
  predicate HasRecord(effects: map<Key, EffectRow>, key: Key) {
    key != "" && key in effects && effects[key].Completed?
  }

  /** What `decide_memory` reports. */
  datatype MemoryDecision = MemoryDecision(proposal: Proposal, applied: bool, apply: Option<ApplyResult>, cached: bool)

  /** Where an approval may be cut short by an exception from outside. */
  datatype Interruption = Never | AfterDecide | AfterApply

  const ALWAYS_ALLOW_TOKENS: set<string> := {
    "always_allow", "always-allow", "alwaysallow", "always allow", "auto", "allow"
  }

  // ---------------------------------------------------------------- what a decision does

  /** Everything but the proposals: the corpus, the effect rows, and an account of the applies. A
      proposal occurs in `successes` once for each successful apply of it, and is in `unrecorded`
      if the call that applied it ended without recording so; `recorder` says whose apply each
      completed record tells of. */
  datatype Books = Books(corpus: Corpus, effects: map<Key, EffectRow>, successes: multiset<ProposalId>,
                         unrecorded: set<ProposalId>, recorder: map<Key, ProposalId>)

  /** `_apply_approved`: a completed record answers; otherwise the payload is applied, whether or
      not the call gets any further. */
  function Settled(b: Books, pid: ProposalId, p: Proposal, editor: Editor, stop: Interruption)
    : (Books, Result<MemoryDecision, MemoryError>)
  {
    var key := IdempotencyKey(p.payload);
    if HasRecord(b.effects, key) then
      (b, Ok(MemoryDecision(p, b.effects[key].result.ok, Some(b.effects[key].result), true)))
    else
      match Applied(b.corpus, p.payload, editor)
      case Err(e) => (b, Err(e))
      case Ok((after, result)) => Noted(WithApply(b, pid, after, result), pid, p, result, stop)
  }

  function WithApply(b: Books, pid: ProposalId, after: Corpus, result: ApplyResult): Books {
    b.(corpus := after, successes := b.successes + (if result.ok then multiset{pid} else multiset{}),
       unrecorded := b.unrecorded + (if result.ok then {pid} else {}))
  }

  /** After an apply: an interrupted call, or one whose key is unknown, raises and records nothing. */
  function Noted(b: Books, pid: ProposalId, p: Proposal, result: ApplyResult, stop: Interruption)
    : (Books, Result<MemoryDecision, MemoryError>)
  {
    var key, decision := IdempotencyKey(p.payload), MemoryDecision(p, result.ok, Some(result), false);
    if stop.AfterApply? then (b, Err(Interrupted))
    else if key == "" then (b, Ok(decision))
    else if key !in b.effects then (b, Err(UnknownKey(key)))
    else (WithRecord(b, pid, key, result), Ok(decision))
  }

  function WithRecord(b: Books, pid: ProposalId, key: Key, result: ApplyResult): Books
    requires key in b.effects
  {
    b.(effects := b.effects[key := Completed(b.effects[key].proposal, result)], recorder := b.recorder[key := pid],
       unrecorded := if result.ok then b.unrecorded - {pid} else b.unrecorded)
  }

  /** Whether an approval with this edit gets through, and the row it leaves behind. */
  function ApprovedRow(t: Proposals, pid: ProposalId, edited: Option<Payload>, actor: string)
    : Result<Proposal, MemoryError>
    requires pid in t
  {
    var p := t[pid];
    if p.status == Approved then Ok(p)
    else if p.status != Pending then Err(NotApprovable(p.status))
    else if edited.None? then Ok(p.(status := Approved))
    else
      var staged := StagedEdit(p.payload, edited.value, actor);
      if staged.None? then Err(Pass(CannotRetarget)) else Ok(p.(status := Approved, payload := staged.value))
  }

  /** `decide_memory`: the rows, the books and the answer after a decision. */
  function Decided(t: Proposals, b: Books, pid: ProposalId, token: DecisionToken, editor: Editor, actor: string,
                   edited: Option<Payload>, stop: Interruption)
    : (Proposals, Books, Result<MemoryDecision, MemoryError>)
  {
    if pid !in t then (t, b, Err(Pass(ProposalNotFound)))
    else if t[pid].kind != MemoryKind then (t, b, Err(NotMemory))
    else
      var p := t[pid];
      match token
      case OtherToken => (t, b, Err(BadDecision))
      case EditToken =>
        if edited.None? then (t, b, Err(Pass(EditNeedsPayload)))
        else if p.status != Pending then (t, b, Err(Pass(AlreadyDecided(p.status))))
        else
          var staged := StagedEdit(p.payload, edited.value, actor);
          if staged.None? then (t, b, Err(Pass(CannotRetarget)))
          else
            var row := p.(payload := staged.value);
            (t[pid := row], b, Ok(MemoryDecision(row, false, None, false)))
      case RejectToken =>
        if p.status != Pending then (t, b, Err(Pass(AlreadyDecided(p.status))))
        else
          var row := p.(status := Rejected);
          (t[pid := row], b, Ok(MemoryDecision(row, false, None, false)))
      case ApproveToken =>
        if p.status == Rejected then (t, b, Ok(MemoryDecision(p, false, None, false)))
        else
          var row := ApprovedRow(t, pid, edited, actor);
          if row.Err? then (t, b, Err(row.error))
          else if stop.AfterDecide? then (t[pid := row.value], b, Err(Interrupted))
          else
            var (after, answer) := Settled(b, pid, row.value, editor, stop);
            (t[pid := row.value], after, answer)
  }

  /** What a decision may do, told from the rows, the books and the answer alone. Only the row of a
      waiting memory proposal changes. A rejection leaves it REJECTED and otherwise as it was. An edit
      leaves it PENDING with every edited key taken. An approval leaves it APPROVED, with the edit if
      there is one. Only the approval of a waiting or approved one touches the books. */
  ghost predicate Promised(t: Proposals, b: Books, t': Proposals, b': Books, pid: ProposalId, token: DecisionToken,
                           actor: string, edited: Option<Payload>, r: Result<MemoryDecision, MemoryError>)
  {
    var memory := pid in t && t[pid].kind == MemoryKind;
    var waiting := memory && t[pid].status == Pending;
    var allowed := edited.Some? ==> waiting && !Retargets(t[pid].payload, edited.value);
    && t'.Keys == t.Keys && (forall q :: q in t && q != pid ==> t'[q] == t[q])
    && (!waiting ==> t' == t && (r.Ok? ==> !r.value.applied || (pid in t && t[pid].status == Approved)))
    && (!memory ==> r.Err? && b' == b)
    && (memory && t[pid].status !in {Pending, Approved} ==> b' == b)
    && match token
       case OtherToken => r.Err? && t' == t && b' == b
       case RejectToken =>
         && b' == b && (r.Ok? <==> waiting) && (r.Err? ==> t' == t)
         && (r.Ok? ==>
               t'[pid] == t[pid].(status := Rejected) && r.value == MemoryDecision(t'[pid], false, None, false))
       case EditToken =>
         && b' == b && (r.Ok? <==> waiting && edited.Some? && allowed) && (r.Err? ==> t' == t)
         && (r.Ok? ==>
               && t'[pid] == t[pid].(payload := t'[pid].payload)
               && TakenEdit(t[pid].payload, edited.value, actor, t'[pid].payload)
               && r.value == MemoryDecision(t'[pid], false, None, false))
       case ApproveToken =>
         && (waiting && !allowed ==> r.Err? && t' == t && b' == b)
         && (waiting && allowed ==>
               && t'[pid] == t[pid].(status := Approved, payload := t'[pid].payload)
               && (edited.None? ==> t'[pid].payload == t[pid].payload)
               && (edited.Some? ==> TakenEdit(t[pid].payload, edited.value, actor, t'[pid].payload)))
         && (r.Ok? ==> memory && r.value.proposal == t'[pid])
  }

  lemma DecisionMeaning(t: Proposals, b: Books, pid: ProposalId, token: DecisionToken, editor: Editor, actor: string,
                        edited: Option<Payload>, stop: Interruption)
    ensures var (t', b', r) := Decided(t, b, pid, token, editor, actor, edited, stop);
      Promised(t, b, t', b', pid, token, actor, edited, r)
  {
    hide Applied, IdempotencyKey, Settled, StagedEdit, Retargets, TakenEdit;
    if pid in t && edited.Some? {
      StagedMeaning(t[pid].payload, edited.value, actor);
    }
    if pid in t && ApprovedRow(t, pid, edited, actor).Ok? {
      SettledOnly(b, pid, ApprovedRow(t, pid, edited, actor).value, editor, stop);
    }
  }

  /** What is reported as applied was applied, by this call or by the one that wrote the record. */
  ghost predicate TrueReport(b: Books, pid: ProposalId, r: Result<MemoryDecision, MemoryError>) {
    r.Ok? && r.value.applied ==>
      if r.value.cached then
        var key := IdempotencyKey(r.value.proposal.payload);
        key in b.recorder && b.recorder[key] in b.successes && b.recorder[key] !in b.unrecorded
      else pid in b.successes
  }

  /** An approval of this memory proposal has reported success: under its key there is a record of
      a successful apply, or, without a key, it was applied. */
  ghost predicate IsDone(t: Proposals, b: Books, pid: ProposalId) {
    pid in t && t[pid].status == Approved && t[pid].kind == MemoryKind &&
    var key := IdempotencyKey(t[pid].payload);
    if key == "" then pid in b.successes else HasRecord(b.effects, key) && b.effects[key].result.ok
  }

  /** Settling never takes an apply or a record back. */
  lemma SettledOnly(b: Books, pid: ProposalId, p: Proposal, editor: Editor, stop: Interruption)
    ensures var (b', r) := Settled(b, pid, p, editor, stop);
      && (forall q :: b.successes[q] <= b'.successes[q] <= b.successes[q] + (if q == pid then 1 else 0))
      && (forall k :: HasRecord(b.effects, k) ==> k in b'.effects && b'.effects[k] == b.effects[k])
      && (forall k :: k in b.effects ==> k in b'.effects)
      && (r.Ok? ==> r.value.proposal == p && r.value.apply.Some? && r.value.applied == r.value.apply.value.ok)
      && (r.Ok? ==> (r.value.cached <==> HasRecord(b.effects, IdempotencyKey(p.payload))))
      && (r.Ok? && !r.value.cached ==> Applied(b.corpus, p.payload, editor) == Ok((b'.corpus, r.value.apply.value)))
  {
    hide Applied, IdempotencyKey;
  }

  /** Only an approval touches the books; other decisions change a waiting proposal at most. */
  lemma OnlyApprovalsApply(t: Proposals, b: Books, pid: ProposalId, token: DecisionToken, editor: Editor,
                           actor: string, edited: Option<Payload>, stop: Interruption)
    ensures var (t', b', r) := Decided(t, b, pid, token, editor, actor, edited, stop);
      && (!token.ApproveToken? ==> b' == b && (r.Ok? ==> !r.value.applied && r.value.apply.None?))
      && (forall q :: q in t && (q != pid || t[q].status != Pending) ==> q in t' && t'[q] == t[q])
      && (r.Ok? && r.value.apply.Some? ==> pid in t' && t'[pid].status == Approved && r.value.proposal == t'[pid])
      && (r.Ok? && r.value.applied ==> r.value.apply.Some? && r.value.apply.value.ok)
  {
    hide Applied, IdempotencyKey, StagedEdit, Settled;
    if pid in t && ApprovedRow(t, pid, edited, actor).Ok? {
      SettledOnly(b, pid, ApprovedRow(t, pid, edited, actor).value, editor, stop);
    }
  }

  /** A waiting proposal with an open reservation whose payload fits the corpus as it is. */
  ghost predicate Fits(t: Proposals, b: Books, pid: ProposalId, editor: Editor) {
    && pid in t && t[pid].kind == MemoryKind && t[pid].status == Pending
    && Applied(b.corpus, t[pid].payload, editor).Ok? && Applied(b.corpus, t[pid].payload, editor).value.1.ok
    && var key := IdempotencyKey(t[pid].payload);
       key in b.effects && b.effects[key].Reserved?
  }

  /** What later decisions can rely on: what is done stays done and is answered from its record, and
      a waiting proposal that fits is applied. */
  lemma DoneIsAnswered(t: Proposals, b: Books, pid: ProposalId, token: DecisionToken, editor: Editor,
                       actor: string, edited: Option<Payload>, stop: Interruption)
    ensures var (t', b', r) := Decided(t, b, pid, token, editor, actor, edited, stop);
      && (forall q :: IsDone(t, b, q) ==> IsDone(t', b', q) && t'[q] == t[q])
      && (r.Ok? && r.value.applied ==>
            && token.ApproveToken? && pid in t && IsDone(t', b', pid)
            && (edited.None? ==> t'[pid].payload == t[pid].payload))
      && (IsDone(t, b, pid) && IdempotencyKey(t[pid].payload) != "" ==> b' == b)
      && (IsDone(t, b, pid) && IdempotencyKey(t[pid].payload) != "" && token.ApproveToken? && stop.Never? ==>
            r.Ok? && r.value.applied && r.value.cached)
      && (r.Ok? && r.value.cached ==> pid in t' && HasRecord(b.effects, IdempotencyKey(t'[pid].payload)))
      && (Fits(t, b, pid, editor) && token.ApproveToken? && edited.None? && stop.Never? ==>
            r.Ok? && r.value.applied)
  {
    hide Applied, IdempotencyKey, StagedEdit, Settled, HasRecord;
    BooksGrow(t, b, pid, token, editor, actor, edited, stop);
    if pid in t && ApprovedRow(t, pid, edited, actor).Ok? {
      SettledOnly(b, pid, ApprovedRow(t, pid, edited, actor).value, editor, stop);
      SettledDone(b, pid, ApprovedRow(t, pid, edited, actor).value, editor, stop);
    }
    forall q | IsDone(t, b, q) {
      DoneStays(t, b, pid, token, editor, actor, edited, stop, q);
    }
  }

  lemma SettledDone(b: Books, pid: ProposalId, p: Proposal, editor: Editor, stop: Interruption)
    ensures var (b', r) := Settled(b, pid, p, editor, stop); var key := IdempotencyKey(p.payload);
      && (r.Ok? && r.value.applied ==>
            (key == "" ==> pid in b'.successes)
            && (key != "" ==> HasRecord(b'.effects, key) && b'.effects[key].result.ok))
      && (HasRecord(b.effects, key) ==> b' == b && r.Ok? && r.value.applied == b.effects[key].result.ok)
      && (key in b.effects && b.effects[key].Reserved? && !stop.AfterApply? && Applied(b.corpus, p.payload, editor).Ok?
          ==> r.Ok? && r.value.applied == Applied(b.corpus, p.payload, editor).value.1.ok)
  {
    hide Applied, IdempotencyKey;
  }

  lemma DoneStays(t: Proposals, b: Books, pid: ProposalId, token: DecisionToken, editor: Editor, actor: string,
                  edited: Option<Payload>, stop: Interruption, q: ProposalId)
    requires IsDone(t, b, q)
    ensures var (t', b', _) := Decided(t, b, pid, token, editor, actor, edited, stop);
      IsDone(t', b', q) && t'[q] == t[q]
  {
    hide Applied, IdempotencyKey, StagedEdit, Settled, HasRecord, Decided;
    OnlyApprovalsApply(t, b, pid, token, editor, actor, edited, stop);
    BooksGrow(t, b, pid, token, editor, actor, edited, stop);
    assert HasRecord(b.effects, IdempotencyKey(t[q].payload)) ==>
      HasRecord(Decided(t, b, pid, token, editor, actor, edited, stop).1.effects, IdempotencyKey(t[q].payload)) by {
      RecordStays(b.effects, Decided(t, b, pid, token, editor, actor, edited, stop).1.effects,
                  IdempotencyKey(t[q].payload));
    }
  }

  lemma RecordStays(before: map<Key, EffectRow>, after: map<Key, EffectRow>, k: Key)
    requires HasRecord(before, k) ==> k in after && after[k] == before[k]
    ensures HasRecord(before, k) ==> HasRecord(after, k)
  {
  }

  /** No decision takes an apply or a record back. */
  lemma BooksGrow(t: Proposals, b: Books, pid: ProposalId, token: DecisionToken, editor: Editor,
                  actor: string, edited: Option<Payload>, stop: Interruption)
    ensures var (_, b', _) := Decided(t, b, pid, token, editor, actor, edited, stop);
      && (forall q :: b.successes[q] <= b'.successes[q] <= b.successes[q] + (if q == pid then 1 else 0))
      && (forall k :: HasRecord(b.effects, k) ==> k in b'.effects && b'.effects[k] == b.effects[k])
  {
    hide Applied, IdempotencyKey, StagedEdit, Settled;
    if pid in t && ApprovedRow(t, pid, edited, actor).Ok? {
      SettledOnly(b, pid, ApprovedRow(t, pid, edited, actor).value, editor, stop);
    }
  }

  datatype DecisionCall = DecisionCall(pid: ProposalId, token: DecisionToken, editor: Editor, actor: string,
                                       edited: Option<Payload>, stop: Interruption)

  /** Rows and books after some decisions. */
  function AfterDecisions(t: Proposals, b: Books, calls: seq<DecisionCall>): (Proposals, Books) {
    if calls == [] then (t, b)
    else
      var (t', b') := AfterDecisions(t, b, calls[..|calls| - 1]);
      var c := calls[|calls| - 1];
      var (t'', b'', _) := Decided(t', b', c.pid, c.token, c.editor, c.actor, c.edited, c.stop);
      (t'', b'')
  }

  /** A rejected (or expired) proposal stays as it is whatever is decided later, and is never applied. */
  lemma {:induction false} RejectedForGood(t: Proposals, b: Books, calls: seq<DecisionCall>, pid: ProposalId)
    requires pid in t && t[pid].status !in {Pending, Approved}
    ensures var (t', b') := AfterDecisions(t, b, calls);
      pid in t' && t'[pid] == t[pid] && b'.successes[pid] == b.successes[pid]
  {
    if calls != [] {
      var n := |calls| - 1;
      var (t', b') := AfterDecisions(t, b, calls[..n]);
      var c := calls[n];
      hide Decided;
      RejectedForGood(t, b, calls[..n], pid);
      DecisionMeaning(t', b', c.pid, c.token, c.editor, c.actor, c.edited, c.stop);
      BooksGrow(t', b', c.pid, c.token, c.editor, c.actor, c.edited, c.stop);
    }
  }

  class MemoryService {
    var corpus: Corpus
    var proposals: Proposals
    var effects: map<Key, EffectRow>
    ghost var successes: multiset<ProposalId>   // one occurrence per successful apply of an approved proposal
    ghost var unrecorded: set<ProposalId>       // applied, but the call ended before it recorded so
    ghost var recorder: map<Key, ProposalId>    // whose apply each completed record tells of

    /** A successfully applied proposal is APPROVED, was applied once, and its slot has moved past
        the revision it names. */
    ghost predicate AppliedInv(pid: ProposalId)
      reads this`corpus, this`proposals, this`successes
    {
      pid in successes ==>
        && successes[pid] == 1 && pid in proposals && proposals[pid].status == Approved
        && LocationOf(proposals[pid].payload).Some?
        && (LocationOf(proposals[pid].payload).value.target.JsonMemory? ==>
              LocationOf(proposals[pid].payload).value.key != "")
        && ExpectedRevision(proposals[pid].payload).Ok? && ExpectedRevision(proposals[pid].payload).value.Some?
        && Revision(corpus, LocationOf(proposals[pid].payload).value) >
           ExpectedRevision(proposals[pid].payload).value.value
    }

    /** A completed record names an approved proposal with that key, and says ok exactly if that
        proposal was applied by the call that wrote the record. */
    ghost predicate RecordInv(k: Key)
      reads this`proposals, this`effects, this`successes, this`unrecorded, this`recorder
    {
      k in effects && effects[k].Completed? ==>
        && k != "" && k in recorder && recorder[k] in proposals && proposals[recorder[k]].status == Approved
        && IdempotencyKey(proposals[recorder[k]].payload) == k
        && (effects[k].result.ok <==> recorder[k] in successes && recorder[k] !in unrecorded)
    }

    /** A proposal that was applied and does not count as unrecorded is the one its record tells of. */
    ghost predicate SuccessInv(pid: ProposalId)
      reads this`proposals, this`effects, this`successes, this`unrecorded, this`recorder
    {
      && (pid in unrecorded ==> pid in successes)
      && (pid in successes && pid !in unrecorded ==>
            && pid in proposals
            && var key := IdempotencyKey(proposals[pid].payload);
               key in effects && effects[key].Completed? && key in recorder && recorder[key] == pid)
    }

    ghost predicate Recorded()
      reads this`proposals, this`effects, this`successes, this`unrecorded, this`recorder
    {
      && (forall k :: RecordInv(k))
      && forall pid :: SuccessInv(pid)
    }

    /** Changes to waiting proposals and new reservations leave the records alone. */
    twostate lemma RecordsKept()
      requires old(Recorded()) && forall pid :: old(AppliedInv(pid))
      requires successes == old(successes) && unrecorded == old(unrecorded) && recorder == old(recorder)
      requires forall pid :: pid in old(proposals) && old(proposals)[pid].status == Approved ==>
        pid in proposals && proposals[pid] == old(proposals)[pid]
      requires forall k :: k in effects && effects[k].Completed? <==> k in old(effects) && old(effects)[k].Completed?
      requires forall k :: k in effects && effects[k].Completed? ==> effects[k] == old(effects)[k]
      ensures Recorded()
    {
      hide AppliedInv, IdempotencyKey;
      forall k ensures RecordInv(k) { assert old(RecordInv(k)); }
      forall pid ensures SuccessInv(pid) {
        assert old(SuccessInv(pid)) && old(AppliedInv(pid));
        ApprovedOnce(pid);
      }
    }

    twostate lemma ApprovedOnce(pid: ProposalId)
      requires old(AppliedInv(pid))
      ensures pid in old(successes) ==> pid in old(proposals) && old(proposals)[pid].status == Approved
    {
    }

    ghost function Account(): Books
      reads this
    {
      Books(corpus, effects, successes, unrecorded, recorder)
    }

    ghost predicate Valid()
      reads this
    {
      && (forall pid :: AppliedInv(pid))
      && Recorded()
    }

    constructor ()
      ensures Valid() && corpus == map[] && proposals == map[] && effects == map[] && successes == multiset{}
      ensures unrecorded == {} && recorder == map[]
    {
      corpus, proposals, effects, successes, unrecorded, recorder := map[], map[], map[], multiset{}, {}, map[];
    }

    /** Over any sequence of proposals, edits, decisions, retries, interruptions and user writes, an
        approved proposal is applied successfully at most once. */
    lemma AppliedAtMostOnce(pid: ProposalId)
      requires Valid()
      ensures successes[pid] <= 1
      ensures successes[pid] == 1 ==> pid in proposals && proposals[pid].status == Approved
    {
      assert AppliedInv(pid);
    }

    /** A record under a key that no other approved proposal names tells the truth about the proposal
        exactly when the call that applied it was not cut short before recording: then it reports ok
        if and only if the proposal was applied. */
    lemma RecordIsTrueUnlessInterrupted(pid: ProposalId)
      requires Valid() && pid in proposals && HasRecord(effects, IdempotencyKey(proposals[pid].payload))
      requires forall q :: q in proposals && q != pid && proposals[q].status == Approved ==>
        IdempotencyKey(proposals[q].payload) != IdempotencyKey(proposals[pid].payload)
      ensures var ok := effects[IdempotencyKey(proposals[pid].payload)].result.ok;
        ((ok <==> pid in successes) <==> pid !in unrecorded) && (ok ==> pid in successes)
    {
      hide IdempotencyKey;
      assert RecordInv(IdempotencyKey(proposals[pid].payload)) && SuccessInv(pid);
    }

    /** Whoever the key belongs to, a completed record is that of one approved proposal naming it,
        and an apply that was recorded is what the record reports. */
    lemma RecordsAreOfApplies(k: Key, pid: ProposalId)
      requires Valid()
      ensures HasRecord(effects, k) ==>
        && k in recorder && recorder[k] in proposals && IdempotencyKey(proposals[recorder[k]].payload) == k
        && (effects[k].result.ok <==> recorder[k] in successes && recorder[k] !in unrecorded)
      ensures pid in successes && pid !in unrecorded ==>
        && pid in proposals && HasRecord(effects, IdempotencyKey(proposals[pid].payload))
        && effects[IdempotencyKey(proposals[pid].payload)].result.ok
    {
      hide IdempotencyKey;
      assert RecordInv(k) && SuccessInv(pid);
      if pid in successes && pid !in unrecorded {
        assert RecordInv(IdempotencyKey(proposals[pid].payload));
      }
    }

    /** A proposal that was applied by a call cut short before recording: whenever it is approved
        again, it is refused as stale and recorded as not applied, for good. */
    lemma RetryIsRecordedAsNotApplied(pid: ProposalId, editor: Editor, actor: string, edited: Option<Payload>)
      requires Valid() && pid in unrecorded && pid in proposals && proposals[pid].kind == MemoryKind
      requires IdempotencyKey(proposals[pid].payload) in effects
      requires effects[IdempotencyKey(proposals[pid].payload)].Reserved?
      requires IdempotencyKey(proposals[pid].payload) != ""
      ensures
        var (t, b, r) := Decided(proposals, Account(), pid, ApproveToken, editor, actor, edited, Never);
        var key := IdempotencyKey(proposals[pid].payload);
        && r.Ok? && !r.value.applied && !r.value.cached && b.corpus == corpus && b.successes == successes
        && HasRecord(b.effects, key) && !b.effects[key].result.ok && b.recorder[key] == pid
    {
      hide TextOf, LocationOf, ExpectedRevision, IdempotencyKey;
      assert AppliedInv(pid) && SuccessInv(pid);
    }

    /** A corpus in which no revision went down keeps the invariant of unchanged proposals. */
    lemma Grown(pid: ProposalId, corpus0: Corpus, proposals0: Proposals)
      requires pid in successes ==>
        && successes[pid] == 1 && pid in proposals0 && proposals0[pid].status == Approved
        && LocationOf(proposals0[pid].payload).Some?
        && (LocationOf(proposals0[pid].payload).value.target.JsonMemory? ==>
              LocationOf(proposals0[pid].payload).value.key != "")
        && ExpectedRevision(proposals0[pid].payload).Ok? && ExpectedRevision(proposals0[pid].payload).value.Some?
        && Revision(corpus0, LocationOf(proposals0[pid].payload).value) >
           ExpectedRevision(proposals0[pid].payload).value.value
      requires forall l :: Revision(corpus0, l) <= Revision(corpus, l)
      requires pid in proposals0 && proposals0[pid].status == Approved ==>
        pid in proposals && proposals[pid] == proposals0[pid]
      ensures AppliedInv(pid)
    {
    }

    /** A model write only becomes a PENDING proposal with a reserved key that is bound to it. */
    method ProposeModelWrite(rawTarget: string, w: Write, extra: Payload, policy: string, alwaysAllow: bool, key: Key,
                             pid: ProposalId)
      returns (r: Result<Proposal, MemoryError>)
      requires Valid()
      modifies this
      ensures Valid() && Account() == old(Account()).(effects := effects)
      ensures alwaysAllow || Lower(Strip(policy)) in ALWAYS_ALLOW_TOKENS ==>
        r == Err(AlwaysAllowRefused) && effects == old(effects)
      ensures r.Ok? <==>
        && !alwaysAllow && Lower(Strip(policy)) !in ALWAYS_ALLOW_TOKENS && WellFormed(rawTarget, w)
        && key !in old(effects) && pid !in old(proposals)
      ensures r.Ok? ==>
        && r.value == Proposal(MemoryKind, Pending, "memory.write", r.value.payload)
        && r.value.payload == ModelPayload(rawTarget, w, extra).value["idempotency_key" := Value(key)]
        && AsAsked(r.value.payload, rawTarget, w, "new_text" in extra) && IdempotencyKey(r.value.payload) == key
        && proposals == old(proposals)[pid := r.value]
        && effects == old(effects)[key := Reserved(pid)]
      ensures r.Err? ==> proposals == old(proposals)
      // a reservation is left behind only when the proposal could not be inserted after it
      ensures r.Err? ==>
        effects == if r.error == Pass(DuplicateId) then old(effects)[key := Reserved("")] else old(effects)
    {
      ModelAsAsked(rawTarget, w, extra, key);
      BuildRefusals(rawTarget, w, extra);
      hide LocationOf, ExpectedRevision, TextOf, Lower, Strip, ALWAYS_ALLOW_TOKENS, ModelPayload, WellFormed, AsAsked;
      if alwaysAllow || Lower(Strip(policy)) in ALWAYS_ALLOW_TOKENS {
        return Err(AlwaysAllowRefused);
      }
      var payload := ModelPayload(rawTarget, w, extra);
      if payload.Err? {
        return Err(payload.error);
      }
      if key in effects {
        return Err(DuplicateKey);
      }
      effects := effects[key := Reserved("")];
      if pid in proposals {
        RecordsKept();
        return Err(Pass(DuplicateId));
      }
      var keyed := payload.value["idempotency_key" := Value(key)];
      proposals := proposals[pid := Proposal(MemoryKind, Pending, "memory.write", keyed)];
      effects := effects[key := Reserved(pid)];
      forall p ensures AppliedInv(p) {
        assert old(AppliedInv(p));
        Grown(p, old(corpus), old(proposals));
      }
      RecordsKept();
      return Ok(proposals[pid]);
    }

    /** Change the corpus from a payload; Err is an exception, and then nothing changed. */
    method ApplyPayload(payload: Payload, editor: Editor) returns (r: Result<ApplyResult, MemoryError>)
      modifies this`corpus
      ensures r.Ok? ==> Applied(old(corpus), payload, editor) == Ok((corpus, r.value))
      ensures r.Err? ==> Applied(old(corpus), payload, editor) == Err(r.error) && corpus == old(corpus)
    {
      var l := LocationOf(payload);
      if l.None? {
        return Err(BadTarget);
      }
      var expected := ExpectedRevision(payload);
      if expected.Err? {
        return Err(expected.error);
      }
      if l.value.target.JsonMemory? && l.value.key == "" {
        return Err(KeyRequired);
      }
      var now := Revision(corpus, l.value);
      if expected.value != Some(now) {
        return Ok(ApplyResult(false, l.value, now));
      }
      var text := if l.value in corpus then corpus[l.value].text else "";
      var edited := editor(l.value, text, ChangeOf(payload, l.value.target));
      if edited.None? {
        return Ok(ApplyResult(false, l.value, now));
      }
      corpus := corpus[l.value := Entry(edited.value, now + 1)];
      return Ok(ApplyResult(true, l.value, now + 1));
    }

    /** A user's own write goes straight to the corpus, and raises only over its arguments. */
    method UserWrite(rawTarget: string, w: Write, actor: string, editor: Editor)
      returns (r: Result<ApplyResult, MemoryError>)
      requires Valid()
      modifies this
      ensures Valid() && proposals == old(proposals) && effects == old(effects) && successes == old(successes)
      ensures r.Ok? <==> Lower(Strip(actor)) in {"user", "pollen", "vault"} && WellFormed(rawTarget, w)
      ensures r.Ok? ==>
        exists p :: AsAsked(p, rawTarget, w, false) && Applied(old(corpus), p, editor) == Ok((corpus, r.value))
      ensures r.Err? ==> r.error == UserPayload(actor, rawTarget, w).error && corpus == old(corpus)
    {
      UserAsAsked(actor, rawTarget, w);
      hide Applied, LocationOf, ExpectedRevision, TextOf, Strip, Lower, BuiltPayload, WellFormed, AsAsked;
      var payload := UserPayload(actor, rawTarget, w);
      if payload.Err? {
        return Err(payload.error);
      }
      BuiltPayloadApplies(NormalizeTarget(rawTarget).value, w, "user", Lower(Strip(actor)), map[], corpus, editor);
      r := ApplyPayload(payload.value, editor);
      AppliedMeaning(old(corpus), payload.value, editor);
      forall p ensures AppliedInv(p) {
        assert old(AppliedInv(p));
        Grown(p, old(corpus), old(proposals));
      }
    }

    /** Stage user text; the proposal stays PENDING and the corpus as it is. */
    method Stage(pid: ProposalId, edited: Payload, actor: string) returns (r: Result<Proposal, MemoryError>)
      requires Valid()
      modifies this`proposals
      ensures Valid()
      ensures r.Ok? <==>
        && pid in old(proposals) && old(proposals)[pid].status == Pending
        && !Retargets(old(proposals)[pid].payload, edited)
      ensures r.Ok? <==>
        && pid in old(proposals) && old(proposals)[pid].status == Pending
        && StagedEdit(old(proposals)[pid].payload, edited, actor).Some?
      ensures r.Err? ==> r.error == Pass(
        if pid !in old(proposals) then ProposalNotFound
        else if old(proposals)[pid].status != Pending then AlreadyDecided(old(proposals)[pid].status)
        else CannotRetarget)
      ensures r.Ok? ==>
        && r.value == old(proposals)[pid].(payload := r.value.payload)
        && StagedEdit(old(proposals)[pid].payload, edited, actor) == Some(r.value.payload)
      ensures proposals == if r.Ok? then old(proposals)[pid := r.value] else old(proposals)
    {
      hide LocationOf, ExpectedRevision, TextOf;
      if pid !in proposals {
        return Err(Pass(ProposalNotFound));
      }
      if proposals[pid].status != Pending {
        return Err(Pass(AlreadyDecided(proposals[pid].status)));
      }
      var payload := StagedEdit(proposals[pid].payload, edited, actor);
      if payload.None? {
        return Err(Pass(CannotRetarget));
      }
      proposals := proposals[pid := proposals[pid].(payload := payload.value)];
      forall p ensures AppliedInv(p) {
        assert old(AppliedInv(p));
        Grown(p, old(corpus), old(proposals));
      }
      RecordsKept();
      return Ok(proposals[pid]);
    }

    /** Decide approve or reject. */
    method DecideRow(pid: ProposalId, d: Decision) returns (r: Result<Proposal, MemoryError>)
      requires Valid() && !d.Edit?
      modifies this`proposals
      ensures Valid()
      ensures r.Ok? <==> pid in old(proposals) && old(proposals)[pid].status == Pending
      ensures r.Ok? ==>
        r.value == old(proposals)[pid].(status := StatusOf(d)) && proposals == old(proposals)[pid := r.value]
      ensures r.Err? ==> proposals == old(proposals) && r.error == Pass(
        if pid !in old(proposals) then ProposalNotFound else AlreadyDecided(old(proposals)[pid].status))
    {
      hide LocationOf, ExpectedRevision, TextOf;
      var row := DecidedRow(proposals, pid, d);
      if row.Err? {
        return Err(Pass(row.error));
      }
      proposals := proposals[pid := row.value];
      forall p ensures AppliedInv(p) {
        assert old(AppliedInv(p));
        Grown(p, old(corpus), old(proposals));
      }
      RecordsKept();
      return Ok(proposals[pid]);
    }

    /** Apply an approved proposal's payload. Nothing is recorded yet. */
    method ApplyOnce(pid: ProposalId, editor: Editor) returns (r: Result<ApplyResult, MemoryError>)
      requires Valid() && pid in proposals && proposals[pid].status == Approved
      requires !HasRecord(effects, IdempotencyKey(proposals[pid].payload))
      modifies this`corpus, this`successes, this`unrecorded
      ensures Valid()
      ensures r.Ok? ==> Applied(old(corpus), proposals[pid].payload, editor) == Ok((corpus, r.value))
      ensures r.Err? ==> corpus == old(corpus) && Applied(old(corpus), proposals[pid].payload, editor) == Err(r.error)
      ensures successes == old(successes) + (if r.Ok? && r.value.ok then multiset{pid} else multiset{})
      ensures unrecorded == old(unrecorded) + (if r.Ok? && r.value.ok then {pid} else {})
      ensures pid in old(successes) ==> corpus == old(corpus) && !(r.Ok? && r.value.ok)
    {
      hide Applied, LocationOf, ExpectedRevision, TextOf, Recorded, IdempotencyKey;
      assert AppliedInv(pid);
      r := ApplyPayload(proposals[pid].payload, editor);
      if r.Err? {
        return;
      }
      AppliedMeaning(old(corpus), proposals[pid].payload, editor);
      if r.value.ok {
        successes := successes + multiset{pid};
        unrecorded := unrecorded + {pid};
        RecordsUntouched(pid);
      }
      forall p ensures AppliedInv(p) {
        assert old(AppliedInv(p));
        if p != pid {
          Grown(p, old(corpus), proposals);
        }
      }
    }

    /** A proposal that no record tells of yet becomes applied and unrecorded. */
    twostate lemma RecordsUntouched(pid: ProposalId)
      requires old(Recorded()) && pid in proposals && !HasRecord(effects, IdempotencyKey(proposals[pid].payload))
      requires proposals == old(proposals) && effects == old(effects) && recorder == old(recorder)
      requires successes == old(successes) + multiset{pid} && unrecorded == old(unrecorded) + {pid}
      ensures Recorded()
    {
      hide IdempotencyKey;
      forall k ensures RecordInv(k) { assert old(RecordInv(k)); }
      forall p ensures SuccessInv(p) { assert old(SuccessInv(p)); }
    }

    /** Answer from the recorded outcome, or apply and record. An exception between the two leaves
        the corpus changed and nothing recorded. */
    method ApplyApproved(pid: ProposalId, editor: Editor, stop: Interruption)
      returns (r: Result<MemoryDecision, MemoryError>)
      requires Valid() && pid in proposals && proposals[pid].status == Approved
      modifies this`corpus, this`effects, this`successes, this`unrecorded, this`recorder
      ensures Valid() && (Account(), r) == Settled(old(Account()), pid, proposals[pid], editor, stop)
      ensures TrueReport(Account(), pid, r)
      // a proposal that was applied before can only be refused as stale or answered from the record
      ensures pid in old(successes) ==> corpus == old(corpus) && successes == old(successes)
      ensures pid in old(successes) && r.Ok? && !r.value.cached ==> !r.value.applied
    {
      hide Applied, LocationOf, ExpectedRevision, TextOf, Strip, Lower;
      var payload := proposals[pid].payload;
      var key := IdempotencyKey(payload);
      assert RecordInv(key) && SuccessInv(pid);
      if HasRecord(effects, key) {
        return Ok(MemoryDecision(proposals[pid], effects[key].result.ok, Some(effects[key].result), true));
      }
      var applied := ApplyOnce(pid, editor);
      if applied.Err? {
        assert successes == old(successes) && unrecorded == old(unrecorded);
        return Err(applied.error);
      }
      if stop.AfterApply? {
        return Err(Interrupted);
      }
      if key != "" {
        if key !in effects {
          return Err(UnknownKey(key));
        }
        Complete(pid, key, applied.value);
      }
      return Ok(MemoryDecision(proposals[pid], applied.value.ok, Some(applied.value), false));
    }

    /** Record the outcome of the apply that this call has just made. */
    method Complete(pid: ProposalId, key: Key, result: ApplyResult)
      requires Valid() && pid in proposals && proposals[pid].status == Approved
      requires key == IdempotencyKey(proposals[pid].payload) != "" && key in effects && effects[key].Reserved?
      requires result.ok ==> pid in successes && pid in unrecorded
      requires !result.ok && pid in successes ==> pid in unrecorded
      modifies this`effects, this`unrecorded, this`recorder
      ensures Valid()
      ensures effects == old(effects)[key := Completed(old(effects)[key].proposal, result)]
      ensures recorder == old(recorder)[key := pid]
      ensures unrecorded == if result.ok then old(unrecorded) - {pid} else old(unrecorded)
    {
      effects := effects[key := Completed(effects[key].proposal, result)];
      recorder := recorder[key := pid];
      if result.ok {
        unrecorded := unrecorded - {pid};
      }
      forall k ensures RecordInv(k) { assert old(RecordInv(k)); }
      forall p ensures SuccessInv(p) { assert old(SuccessInv(p)); }
      forall p ensures AppliedInv(p) {
        assert old(AppliedInv(p));
      }
    }

    ghost predicate Done(pid: ProposalId)
      reads this
    {
      IsDone(proposals, Account(), pid)
    }

    ghost predicate WouldApply(pid: ProposalId, editor: Editor)
      reads this
    {
      Fits(proposals, Account(), pid, editor)
    }

    /** Approve, reject or edit one memory proposal. */
    method DecideMemory(pid: ProposalId, token: DecisionToken, editor: Editor, actor: string, edited: Option<Payload>,
                        stop: Interruption)
      returns (r: Result<MemoryDecision, MemoryError>)
      requires Valid()
      modifies this
      ensures Valid()
      ensures (proposals, Account(), r) ==
        Decided(old(proposals), old(Account()), pid, token, editor, actor, edited, stop)
      ensures Promised(old(proposals), old(Account()), proposals, Account(), pid, token, actor, edited, r)
      // what is reported as applied was applied, by this call or by the one that wrote the record
      ensures TrueReport(Account(), pid, r)
      ensures pid in old(successes) ==> corpus == old(corpus) && successes == old(successes)
      ensures pid in old(successes) && r.Ok? && !r.value.cached ==> !r.value.applied
    {
      DecisionMeaning(proposals, Account(), pid, token, editor, actor, edited, stop);
      hide Applied, IdempotencyKey, StagedEdit, Retargets, Promised, Settled, AppliedInv, Recorded;
      if pid !in proposals {
        return Err(Pass(ProposalNotFound));
      }
      var proposal := proposals[pid];
      if proposal.kind != MemoryKind {
        return Err(NotMemory);
      }
      match token {
        case EditToken =>
          if edited.None? {
            return Err(Pass(EditNeedsPayload));
          }
          var staged := Stage(pid, edited.value, actor);
          if staged.Err? {
            return Err(staged.error);
          }
          return Ok(MemoryDecision(staged.value, false, None, false));
        case RejectToken =>
          var stored := DecideRow(pid, Reject);
          if stored.Err? {
            return Err(stored.error);
          }
          return Ok(MemoryDecision(stored.value, false, None, false));
        case OtherToken =>
          return Err(BadDecision);
        case ApproveToken =>
          if proposal.status == Rejected {
            return Ok(MemoryDecision(proposal, false, None, false));
          }
          if proposal.status == Pending {
            var persisted := ApprovePending(pid, actor, edited);
            if persisted.Err? {
              return Err(persisted.error);
            }
          } else if proposal.status != Approved {
            return Err(NotApprovable(proposal.status));
          }
          assert proposals == old(proposals)[pid := proposals[pid]];
          if stop.AfterDecide? {
            return Err(Interrupted);
          }
          r := ApplyApproved(pid, editor, stop);
      }
    }

    method ApprovePending(pid: ProposalId, actor: string, edited: Option<Payload>)
      returns (r: Result<Proposal, MemoryError>)
      requires Valid() && pid in proposals && proposals[pid].status == Pending
      modifies this`proposals
      ensures Valid() && r == ApprovedRow(old(proposals), pid, edited, actor)
      ensures proposals == if r.Ok? then old(proposals)[pid := r.value] else old(proposals)
    {
      hide LocationOf, ExpectedRevision, TextOf, IdempotencyKey, StagedEdit;
      if edited.Some? {
        var staged := Stage(pid, edited.value, actor);
        if staged.Err? {
          return Err(staged.error);
        }
      }
      r := DecideRow(pid, Approve);
    }
  }

  // ---------------------------------------------------------------- two runs

  const NOTE := Write("note", "", 0, None, "text", "", "")

  /** A waiting proposal of a note, with a reservation under its key. */
  method Proposed(editor: Editor) returns (m: MemoryService)
    requires forall l, t, q :: editor(l, t, q) == Some("text")
    ensures fresh(m) && m.Valid() && m.corpus == map[] && m.successes == multiset{} && m.unrecorded == {}
    ensures m.WouldApply("p", editor) && IdempotencyKey(m.proposals["p"].payload) == "k"
    ensures m.proposals.Keys == {"p"} && m.effects == map["k" := Reserved("p")]
  {
    ModelAsAsked("json_memory", NOTE, map[], "k");
    hide Strip, TextOf, Applied, Lower, ModelPayload, WellFormed, AsAsked;
    m := new MemoryService();
    Applies(editor, "k");
    NotAutomatic("", "p");
    var proposed := m.ProposeModelWrite("json_memory", NOTE, map[], "", false, "k", "p");
  }

  /** The approval is interrupted after the apply and given again: the proposal was applied, its
      record says that it was not. */
  method InterruptedApproval() returns (m: MemoryService, first: Result<MemoryDecision, MemoryError>,
                                        second: Result<MemoryDecision, MemoryError>)
    ensures m.Valid() && first == Err(Interrupted) && second.Ok? && !second.value.applied
    ensures m.successes["p"] == 1 && HasRecord(m.effects, "k") && !m.effects["k"].result.ok
  {
    hide TextOf, Applied, LocationOf, ExpectedRevision, IdempotencyKey, MemoryService.Valid;
    var editor: Editor := (location, text, payload) => Some("text");
    m := Proposed(editor);
    first := m.DecideMemory("p", ApproveToken, editor, "", None, AfterApply);
    m.RetryIsRecordedAsNotApplied("p", editor, "", None);
    second := m.DecideMemory("p", ApproveToken, editor, "", None, Never);
  }

  /** Two proposals, the second of which an edit made name the key of the first. */
  method TwoOfOneKey(editor: Editor) returns (m: MemoryService)
    requires forall l, t, q :: editor(l, t, q) == Some("text")
    ensures fresh(m) && m.Valid() && m.WouldApply("p", editor) && IdempotencyKey(m.proposals["p"].payload) == "k"
    ensures "q" in m.proposals && m.proposals["q"].kind == MemoryKind && m.proposals["q"].status == Pending
    ensures IdempotencyKey(m.proposals["q"].payload) == "k" && m.successes == multiset{} && "p" != "q"
  {
    ModelAsAsked("json_memory", NOTE, map[], "l");
    hide TextOf, Applied, LocationOf, ExpectedRevision, Strip, Lower, ModelPayload, IdempotencyKey, WellFormed,
      AsAsked, MemoryService.Valid, StagedEdit;
    m := Proposed(editor);
    Applies(editor, "l");
    NotAutomatic("", "p");
    assert |"k"| == |"l"| && "k"[0] != "l"[0] && "p"[0] != "q"[0];
    var proposed := m.ProposeModelWrite("json_memory", NOTE, map[], "", false, "l", "q");
    EditedKey(m.proposals["q"].payload, "k");
    var staged := m.DecideMemory("q", EditToken, editor, "", Some(map["idempotency_key" := Value("k")]), Never);
  }

  lemma EditedKey(p: Payload, key: Key)
    ensures var edited := StagedEdit(p, map["idempotency_key" := Value(key)], "");
      edited.Some? && IdempotencyKey(edited.value) == key
  {
    var edit: Payload := map["idempotency_key" := Value(key)];
    assert |"idempotency_key"| == 15 && |"path"| == 4 && |"revision"| == 8 && |"expected_revision"| == 17;
    MergedMeaning(p, edit);
  }

  /** Approving the first one applies and records it. Approving the second one then reports that it
      was applied, although it never was. */
  method AnotherRecordAnswers() returns (m: MemoryService, answer: Result<MemoryDecision, MemoryError>)
    ensures m.Valid() && answer.Ok? && answer.value.applied && answer.value.cached
    ensures "q" in m.proposals && answer.value.proposal == m.proposals["q"] && "q" !in m.successes
  {
    hide TextOf, Applied, LocationOf, ExpectedRevision, IdempotencyKey, StagedEdit, MemoryService.Valid, Decided;
    var editor: Editor := (location, text, payload) => Some("text");
    m := TwoOfOneKey(editor);
    ghost var t, b := m.proposals, m.Account();
    DoneIsAnswered(t, b, "p", ApproveToken, editor, "", None, Never);
    OnlyApprovalsApply(t, b, "p", ApproveToken, editor, "", None, Never);
    BooksGrow(t, b, "p", ApproveToken, editor, "", None, Never);
    var first := m.DecideMemory("p", ApproveToken, editor, "", None, Never);
    AnsweredByRecord(m.proposals, m.Account(), "q", editor, "", Never);
    answer := m.DecideMemory("q", ApproveToken, editor, "", None, Never);
  }

  /** A completed record answers for whatever waiting proposal names its key. */
  lemma AnsweredByRecord(t: Proposals, b: Books, pid: ProposalId, editor: Editor, actor: string, stop: Interruption)
    requires pid in t && t[pid].kind == MemoryKind && t[pid].status in {Pending, Approved} && !stop.AfterDecide?
    requires HasRecord(b.effects, IdempotencyKey(t[pid].payload))
    ensures var (t', b', r) := Decided(t, b, pid, ApproveToken, editor, actor, None, stop);
      && b' == b && pid in t' && r.Ok? && r.value.proposal == t'[pid] && r.value.cached
      && r.value.applied == b.effects[IdempotencyKey(t[pid].payload)].result.ok
  {
    hide Applied, IdempotencyKey;
  }

  lemma NoteIsBuilt(target: string)
    requires target == "json_memory"
    ensures ModelPayload(target, NOTE, map[]).Ok?
    ensures NormalizeTarget(target) == Some(JsonMemory)
  {
    hide Strip, Lower;
    StripStripped(target);
    LowerSame(target);
    StripStripped(NOTE.key);
  }

  lemma NotAutomatic(policy: string, pid: string)
    requires policy == "" && pid == "p"
    ensures Lower(Strip(policy)) !in ALWAYS_ALLOW_TOKENS && Strip(pid) == pid
  {
    hide Strip;
    StripStripped(policy);
    StripStripped(pid);
    assert |Lower(policy)| == 0;
  }

  lemma Applies(editor: Editor, key: Key)
    requires forall l, t, q :: editor(l, t, q) == Some("text")
    ensures ModelPayload("json_memory", NOTE, map[]).Ok?
    ensures var p := ModelPayload("json_memory", NOTE, map[]).value["idempotency_key" := Value(key)];
      && Applied(map[], p, editor).Ok? && Applied(map[], p, editor).value.1.ok
      && IdempotencyKey(p) == key
  {
    hide LocationOf, ExpectedRevision, BuiltPayload, NormalizeTarget, NamedSlot;
    NoteIsBuilt("json_memory");
    BuiltPayloadApplies(JsonMemory, NOTE, "model", "model", map[], map[], editor);
    KeyedTheSame(ModelPayload("json_memory", NOTE, map[]).value, Value(key));
  }
}
