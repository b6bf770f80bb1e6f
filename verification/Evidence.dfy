/** Tenant-scoped evidence: ingest of references, bounded packets, and the gate on evolution claims. */
module Evidence {
  import opened Core

  const REF_TYPES: set<string> := {
    "runtime_snapshot", "skill_record", "skill_file", "tool_event", "transcript_message", "memory_ref", "manual_request"
  }

  predicate KnownType(t: string) {
    t in REF_TYPES
  }

  datatype Ref = Ref(refId: string, tenant: string, refType: string, preview: string, metadata: Payload,
                     watermark: int, firstSeen: int, containsSecret: bool)

  datatype Snippet = Snippet(refId: string, text: string, truncated: bool)

  datatype BuildStatus = Complete | Bounded | MissingRefs

  datatype Packet = Packet(tenant: string, watermark: int, refs: seq<Ref>, snippets: seq<Snippet>,
                           maxChars: nat, used: nat, omitted: seq<string>, missing: seq<string>, status: BuildStatus)

  datatype EvidenceError = IdRequired | UnknownType | NoWatermark

  /** The table, keyed by (tenant, ref_id). */
  type Refs = map<(string, string), Ref>

  // ---------------------------------------------------------------- looking up

  function NormalizeTenant(raw: string): (tenant: string)
    ensures tenant != "" && Strip(tenant) == tenant
    ensures Strip(raw) != "" ==> tenant == Strip(raw)
    ensures Strip(raw) == "" ==> tenant == "default"
  {
    StripEnds(raw);
    StripStripped("default");
    if Strip(raw) == "" then "default" else Strip(raw)
  }

  lemma NormalizedOnce(raw: string)
    ensures NormalizeTenant(NormalizeTenant(raw)) == NormalizeTenant(raw)
  {
    hide Strip;
  }

  /** Tenants are kept apart: whatever is stored for one is not seen by another, unless their names are
      the same once stripped, or one is blank and the other is the default. */
  lemma TenantsApart(refs: Refs, mine: string, other: string, id: string, row: Ref)
    ensures var apart := Strip(mine) != Strip(other)
              && (Strip(mine) == "" ==> Strip(other) != "default") && (Strip(other) == "" ==> Strip(mine) != "default");
      && (apart <==> NormalizeTenant(mine) != NormalizeTenant(other))
      && (apart ==>
            forall i :: GetRef(refs[(NormalizeTenant(mine), Strip(id)) := row], i, other) == GetRef(refs, i, other))
      && (Strip(id) != "" && !apart ==>
            GetRef(refs[(NormalizeTenant(mine), Strip(id)) := row], id, other) == Some(row))
  {
    hide Strip;
  }

  /** Looking up is by the tenant's own name and the stripped id, and finds nothing else. */
  lemma GetRefMeaning(refs: Refs, id: string, tenant: string)
    ensures var key := (if Strip(tenant) == "" then "default" else Strip(tenant), Strip(id));
      GetRef(refs, id, tenant) == if Strip(id) != "" && key in refs then Some(refs[key]) else None
  {
    hide Strip;
  }

  function GetRef(refs: Refs, id: string, tenant: string): Option<Ref> {
    var key := (NormalizeTenant(tenant), Strip(id));
    if Strip(id) != "" && key in refs then Some(refs[key]) else None
  }

  // ---------------------------------------------------------------- what a packet is

  /** An id, stripped, unless it is blank. */
  function Kept(id: string): (r: seq<string>) {
    if Strip(id) == "" then [] else [Strip(id)]
  }

  /** The ids, stripped, without the blank ones. */
  function NonBlank(ids: seq<string>): seq<string> {
    if ids == [] then [] else NonBlank(ids[..|ids| - 1]) + Kept(ids[|ids| - 1])
  }

  /** The ids that the tenant has (or has not), in order. */
  function Having(refs: Refs, tenant: string, ids: seq<string>, present: bool): seq<string> {
    if ids == [] then []
    else
      var last := ids[|ids| - 1];
      Having(refs, tenant, ids[..|ids| - 1], present) + if ((tenant, last) in refs) == present then [last] else []
  }

  function IdsOf(rs: seq<Ref>): (r: seq<string>)
    ensures |r| == |rs| && forall i :: 0 <= i < |rs| ==> r[i] == rs[i].refId
  {
    seq(|rs|, i requires 0 <= i < |rs| => rs[i].refId)
  }

  function Chars(snippets: seq<Snippet>): nat {
    if snippets == [] then 0 else Chars(snippets[..|snippets| - 1]) + |snippets[|snippets| - 1].text|
  }

  function Min(a: int, b: int): int { if a <= b then a else b }

  function Floor(a: int): nat { if a < 0 then 0 else a }

  /** Snippet `i` is the longest prefix of its preview that both caps and the budget left allow. */
  predicate SnippetOf(selected: seq<Ref>, snippets: seq<Snippet>, budget: nat, capSnippet: nat, i: nat)
    requires i < |selected| == |snippets|
  {
    var preview := selected[i].preview;
    var left := budget - Chars(snippets[..i]);
    && left > 0
    && snippets[i].refId == selected[i].refId
    && snippets[i].text <= preview
    && |snippets[i].text| == Min(Min(capSnippet, left), |preview|)
    && (snippets[i].truncated <==> snippets[i].text != preview)
  }

  /** Selected and omitted ids together are the ids the tenant has, in input order; the missing ids
      are the others, in input order; and an id is omitted only when a cap is exhausted. */
  ghost predicate Packs(refs: Refs, ids: seq<string>, tenant: string, budget: nat, capRefs: nat, capSnippet: nat,
                        p: Packet) {
    && p.tenant == tenant && p.maxChars == budget
    && |p.refs| == |p.snippets| <= capRefs
    && p.used == Chars(p.snippets) <= budget
    && (forall i :: 0 <= i < |p.refs| ==>
          (tenant, p.refs[i].refId) in refs && refs[(tenant, p.refs[i].refId)] == p.refs[i])
    && (forall i :: 0 <= i < |p.refs| ==> SnippetOf(p.refs, p.snippets, budget, capSnippet, i))
    && IdsOf(p.refs) + p.omitted == Having(refs, tenant, NonBlank(ids), true)
    && (p.omitted != [] ==> |p.refs| == capRefs || p.used == budget)
    && p.missing == Having(refs, tenant, NonBlank(ids), false)
    && IsHighest(p.refs, p.watermark)
    && p.status == StatusOf(p.missing, p.omitted)
  }

  function StatusOf(missing: seq<string>, omitted: seq<string>): BuildStatus {
    if missing != [] then MissingRefs else if omitted != [] then Bounded else Complete
  }

  /** The greatest watermark of the references, 0 if there is none above it. */
  ghost predicate IsHighest(rs: seq<Ref>, watermark: int) {
    && (forall i :: 0 <= i < |rs| ==> rs[i].watermark <= watermark)
    && watermark >= 0
    && (watermark == 0 || exists i :: 0 <= i < |rs| && rs[i].watermark == watermark)
  }

  lemma {:induction false} HavingMember(refs: Refs, tenant: string, ids: seq<string>, present: bool, id: string)
    ensures id in Having(refs, tenant, ids, present) <==> id in ids && ((tenant, id) in refs) == present
  {
    if ids != [] {
      assert ids == ids[..|ids| - 1] + [ids[|ids| - 1]];
      HavingMember(refs, tenant, ids[..|ids| - 1], present, id);
    }
  }

  lemma HavingNone(refs: Refs, tenant: string, present: bool)
    ensures Having(refs, tenant, NonBlank([]), present) == [] == Having(refs, tenant, [], present)
  {
  }

  lemma NonBlankNext(ids: seq<string>, i: nat)
    requires i < |ids|
    ensures NonBlank(ids[..i + 1]) == NonBlank(ids[..i]) + Kept(ids[i])
  {
    hide Kept;
    assert ids[..i + 1][..i] == ids[..i];
  }

  lemma HavingAppend(refs: Refs, tenant: string, ids: seq<string>, x: string, present: bool)
    ensures Having(refs, tenant, ids + [x], present) ==
      Having(refs, tenant, ids, present) + if ((tenant, x) in refs) == present then [x] else []
  {
    assert (ids + [x])[..|ids|] == ids;
  }

  lemma NothingAppended(ids: seq<string>)
    ensures ids + [] == ids
  {
  }

  /** How the two halves grow with one more id. */
  lemma OneMoreId(refs: Refs, tenant: string, ids: seq<string>, i: nat, present: bool)
    requires i < |ids|
    ensures Having(refs, tenant, NonBlank(ids[..i + 1]), present) ==
      Having(refs, tenant, NonBlank(ids[..i]), present) +
      if Strip(ids[i]) != "" && ((tenant, Strip(ids[i])) in refs) == present then [Strip(ids[i])] else []
  {
    hide Strip;
    hide Having;
    hide NonBlank;
    NonBlankNext(ids, i);
    var before := NonBlank(ids[..i]);
    if Strip(ids[i]) == "" {
      NothingAppended(before);
      NothingAppended(Having(refs, tenant, before, present));
    } else {
      HavingAppend(refs, tenant, before, Strip(ids[i]), present);
    }
  }

  // ---------------------------------------------------------------- what packing promises

  /** The two halves of the ids are all of them, as often as they occur. */
  lemma {:induction false} HavingSplits(refs: Refs, tenant: string, ids: seq<string>)
    ensures multiset(Having(refs, tenant, ids, true)) + multiset(Having(refs, tenant, ids, false)) == multiset(ids)
  {
    if ids != [] {
      assert ids == ids[..|ids| - 1] + [ids[|ids| - 1]];
      HavingSplits(refs, tenant, ids[..|ids| - 1]);
    }
  }

  /** Every occurrence of a non-blank id ends up in exactly one of selected, omitted and missing. */
  lemma EveryIdExactlyOnce(refs: Refs, ids: seq<string>, tenant: string, budget: nat, capRefs: nat, capSnippet: nat,
                           p: Packet)
    requires Packs(refs, ids, tenant, budget, capRefs, capSnippet, p)
    ensures multiset(IdsOf(p.refs)) + multiset(p.omitted) + multiset(p.missing) == multiset(NonBlank(ids))
    ensures |p.refs| + |p.omitted| + |p.missing| == |NonBlank(ids)|
    ensures forall id :: id in p.missing ==> id !in IdsOf(p.refs) && id !in p.omitted
  {
    hide Having, NonBlank, SnippetOf, IsHighest;
    var cited, selected := NonBlank(ids), IdsOf(p.refs);
    HavingSplits(refs, tenant, cited);
    Split(selected, p.omitted);
    CountOf(selected);
    CountOf(p.omitted);
    CountOf(p.missing);
    CountOf(cited);
    forall id | id in p.missing ensures id !in selected && id !in p.omitted {
      HavingMember(refs, tenant, cited, false, id);
      HavingMember(refs, tenant, cited, true, id);
      assert id !in selected + p.omitted;
    }
  }

  lemma Split(a: seq<string>, b: seq<string>)
    ensures multiset(a + b) == multiset(a) + multiset(b)
  {
  }

  lemma CountOf(s: seq<string>)
    ensures |multiset(s)| == |s|
  {
  }

  /** Two packets of the same request agree on as many leading entries as both have. */
  lemma {:induction false} SameStart(refs: Refs, ids: seq<string>, tenant: string,
                                     budget: nat, capRefs: nat, capSnippet: nat,
                                     p: Packet, q: Packet, n: nat)
    requires Packs(refs, ids, tenant, budget, capRefs, capSnippet, p)
    requires Packs(refs, ids, tenant, budget, capRefs, capSnippet, q)
    requires n <= |p.refs| && n <= |q.refs|
    ensures p.refs[..n] == q.refs[..n] && p.snippets[..n] == q.snippets[..n]
  {
    hide NonBlank;
    hide Having;
    if n > 0 {
      var i := n - 1;
      SameStart(refs, ids, tenant, budget, capRefs, capSnippet, p, q, i);
      var known := Having(refs, tenant, NonBlank(ids), true);
      assert IdsOf(p.refs)[i] == known[i] == IdsOf(q.refs)[i];
      assert p.refs[..n] == p.refs[..i] + [p.refs[i]] && q.refs[..n] == q.refs[..i] + [q.refs[i]];
      assert SnippetOf(p.refs, p.snippets, budget, capSnippet, i);
      assert SnippetOf(q.refs, q.snippets, budget, capSnippet, i);
      assert p.snippets[i].text == q.snippets[i].text;
      assert p.snippets[..n] == p.snippets[..i] + [p.snippets[i]];
      assert q.snippets[..n] == q.snippets[..i] + [q.snippets[i]];
    }
  }

  lemma NotShorter(refs: Refs, ids: seq<string>, tenant: string, budget: nat, capRefs: nat, capSnippet: nat, p: Packet,
                   q: Packet)
    requires Packs(refs, ids, tenant, budget, capRefs, capSnippet, p)
    requires Packs(refs, ids, tenant, budget, capRefs, capSnippet, q)
    ensures |q.refs| <= |p.refs|
  {
    var n := Min(|p.refs|, |q.refs|);
    SameStart(refs, ids, tenant, budget, capRefs, capSnippet, p, q, n);
    assert |IdsOf(p.refs) + p.omitted| == |IdsOf(q.refs) + q.omitted|;
    assert p.snippets[..|p.snippets|] == p.snippets;
    assert n < |q.refs| ==> SnippetOf(q.refs, q.snippets, budget, capSnippet, n);
  }

  /** The conditions leave no freedom: they fix the packet of a request. */
  lemma PacketDetermined(refs: Refs, ids: seq<string>, tenant: string, budget: nat, capRefs: nat, capSnippet: nat,
                         p: Packet, q: Packet)
    requires Packs(refs, ids, tenant, budget, capRefs, capSnippet, p)
    requires Packs(refs, ids, tenant, budget, capRefs, capSnippet, q)
    ensures p == q
  {
    NotShorter(refs, ids, tenant, budget, capRefs, capSnippet, p, q);
    NotShorter(refs, ids, tenant, budget, capRefs, capSnippet, q, p);
    var n := |p.refs|;
    SameStart(refs, ids, tenant, budget, capRefs, capSnippet, p, q, n);
    assert p.refs[..n] == p.refs;
    assert q.refs[..n] == q.refs;
    assert p.snippets[..n] == p.snippets;
    assert q.snippets[..n] == q.snippets;
    assert p.omitted == (IdsOf(p.refs) + p.omitted)[n..] == (IdsOf(q.refs) + q.omitted)[n..] == q.omitted;
  }

  lemma SnippetAdded(selected: seq<Ref>, snippets: seq<Snippet>, budget: nat, capSnippet: nat, ref: Ref,
                     snippet: Snippet)
    requires |selected| == |snippets| && Chars(snippets) < budget
    requires forall j :: 0 <= j < |selected| ==> SnippetOf(selected, snippets, budget, capSnippet, j)
    requires snippet.refId == ref.refId && snippet.text <= ref.preview
    requires |snippet.text| == Min(Min(capSnippet, budget - Chars(snippets)), |ref.preview|)
    requires snippet.truncated <==> |snippet.text| < |ref.preview|
    ensures forall j :: 0 <= j < |selected| + 1 ==>
      SnippetOf(selected + [ref], snippets + [snippet], budget, capSnippet, j)
    ensures Chars(snippets + [snippet]) == Chars(snippets) + |snippet.text|
  {
    assert (snippets + [snippet])[..|snippets|] == snippets;
    forall j | 0 <= j < |selected| + 1
      ensures SnippetOf(selected + [ref], snippets + [snippet], budget, capSnippet, j)
    {
      if j < |selected| {
        assert SnippetOf(selected, snippets, budget, capSnippet, j);
        assert (snippets + [snippet])[..j] == snippets[..j];
      }
    }
  }

  lemma HighestAdded(rs: seq<Ref>, watermark: int, ref: Ref)
    requires IsHighest(rs, watermark)
    ensures IsHighest(rs + [ref], if ref.watermark > watermark then ref.watermark else watermark)
  {
    if ref.watermark > watermark {
      assert (rs + [ref])[|rs|] == ref;
    } else if watermark != 0 {
      var i :| 0 <= i < |rs| && rs[i].watermark == watermark;
      assert (rs + [ref])[i].watermark == watermark;
    }
  }

  // ---------------------------------------------------------------- the four ways one id is taken up

  lemma PackedNothing(refs: Refs, tenant: string, budget: nat, capRefs: nat, capSnippet: nat)
    ensures Packs(refs, [], tenant, budget, capRefs, capSnippet, Packet(tenant, 0, [], [], budget, 0, [], [], Complete))
  {
  }

  lemma BlankPassed(refs: Refs, ids: seq<string>, i: nat, tenant: string, budget: nat, capRefs: nat, capSnippet: nat,
                    p: Packet)
    requires i < |ids| && Packs(refs, ids[..i], tenant, budget, capRefs, capSnippet, p) && Strip(ids[i]) == ""
    ensures Packs(refs, ids[..i + 1], tenant, budget, capRefs, capSnippet, p)
  {
    hide Having, NonBlank, SnippetOf, IsHighest, Strip;
    OneMoreId(refs, tenant, ids, i, true);
    OneMoreId(refs, tenant, ids, i, false);
  }

  lemma MissingAdded(refs: Refs, ids: seq<string>, i: nat, tenant: string, budget: nat, capRefs: nat, capSnippet: nat,
                     p: Packet, id: string)
    requires i < |ids| && Packs(refs, ids[..i], tenant, budget, capRefs, capSnippet, p)
    requires id == Strip(ids[i]) && id != "" && (tenant, id) !in refs
    ensures Packs(refs, ids[..i + 1], tenant, budget, capRefs, capSnippet,
                  p.(missing := p.missing + [id], status := MissingRefs))
  {
    hide Having, NonBlank, SnippetOf, IsHighest, Strip;
    OneMoreId(refs, tenant, ids, i, true);
    OneMoreId(refs, tenant, ids, i, false);
  }

  lemma OmittedAdded(refs: Refs, ids: seq<string>, i: nat, tenant: string, budget: nat, capRefs: nat, capSnippet: nat,
                     p: Packet, id: string)
    requires i < |ids| && Packs(refs, ids[..i], tenant, budget, capRefs, capSnippet, p)
    requires id == Strip(ids[i]) && id != "" && (tenant, id) in refs && (|p.refs| >= capRefs || budget - p.used <= 0)
    ensures Packs(refs, ids[..i + 1], tenant, budget, capRefs, capSnippet,
      p.(omitted := p.omitted + [id], status := StatusOf(p.missing, p.omitted + [id])))
  {
    hide Having, NonBlank, SnippetOf, IsHighest, Strip;
    OneMoreId(refs, tenant, ids, i, true);
    OneMoreId(refs, tenant, ids, i, false);
    assert IdsOf(p.refs) + (p.omitted + [id]) == IdsOf(p.refs) + p.omitted + [id];
  }

  lemma SelectedAdded(refs: Refs, ids: seq<string>, i: nat, tenant: string,
                      budget: nat, capRefs: nat, capSnippet: nat, p: Packet,
                      ref: Ref, snippet: Snippet)
    requires i < |ids| && Packs(refs, ids[..i], tenant, budget, capRefs, capSnippet, p)
    requires ref.refId == Strip(ids[i]) && ref.refId != "" && (tenant, ref.refId) in refs
    requires refs[(tenant, ref.refId)] == ref
    requires |p.refs| < capRefs && p.used < budget
    requires snippet.refId == ref.refId && snippet.text <= ref.preview
    requires |snippet.text| == Min(Min(capSnippet, budget - p.used), |ref.preview|)
    requires snippet.truncated <==> |snippet.text| < |ref.preview|
    ensures p.omitted == []
    ensures Packs(refs, ids[..i + 1], tenant, budget, capRefs, capSnippet,
      p.(refs := p.refs + [ref], snippets := p.snippets + [snippet], used := p.used + |snippet.text|,
         watermark := if ref.watermark > p.watermark then ref.watermark else p.watermark))
  {
    hide Having, NonBlank, SnippetOf, IsHighest, Strip;
    OneMoreId(refs, tenant, ids, i, true);
    OneMoreId(refs, tenant, ids, i, false);
    SnippetAdded(p.refs, p.snippets, budget, capSnippet, ref, snippet);
    HighestAdded(p.refs, p.watermark, ref);
    assert IdsOf(p.refs + [ref]) + p.omitted == IdsOf(p.refs) + p.omitted + [ref.refId];
  }

  // ---------------------------------------------------------------- cited references

  /** A value under `evidence_refs` or `refs`: a list of texts, or something that is ignored. */
  datatype Cited = NotAList | Cites(items: seq<string>)

  /** A claim of an evolution payload. */
  datatype Claim = NotAMapping | Claim(evidenceRefs: Cited, refs: Cited)

  /** An evolution payload; `claims` is `None` unless it is a list. */
  datatype Evolution = NoPayload | Evolution(evidenceRefs: Cited, refs: Cited, claims: Option<seq<Claim>>)

  function ItemsOf(c: Cited): seq<string> {
    if c.Cites? then c.items else []
  }

  function CitedBy(claim: Claim): seq<string> {
    if claim.NotAMapping? then [] else ItemsOf(claim.evidenceRefs) + ItemsOf(claim.refs)
  }

  function ClaimItems(claims: seq<Claim>): seq<string> {
    if claims == [] then [] else ClaimItems(claims[..|claims| - 1]) + CitedBy(claims[|claims| - 1])
  }

  lemma ClaimItemsNext(claims: seq<Claim>, i: nat)
    requires i < |claims|
    ensures ClaimItems(claims[..i + 1]) == ClaimItems(claims[..i]) + CitedBy(claims[i])
  {
    assert claims[..i + 1][..i] == claims[..i];
  }

  lemma ClaimItemsNone()
    ensures ClaimItems([]) == []
  {
  }

  lemma Regroup(a: seq<string>, b: seq<string>, c: seq<string>, d: seq<string>)
    ensures a + b + c + d == a + (b + (c + d))
    ensures a + b == a + (b + [])
  {
  }

  /** Everything a payload cites, in the order of the search. */
  function AllCited(e: Evolution): seq<string> {
    match e
    case NoPayload => []
    case Evolution(evidenceRefs, refs, claims) =>
      ItemsOf(evidenceRefs) + ItemsOf(refs) + ClaimItems(if claims.Some? then claims.value else [])
  }

  lemma AllCitedIs(e: Evolution)
    requires e.Evolution?
    ensures AllCited(e) ==
      [] + ItemsOf(e.evidenceRefs) + ItemsOf(e.refs) + ClaimItems(if e.claims.Some? then e.claims.value else [])
    ensures AllCited(e) ==
      [] + ItemsOf(e.evidenceRefs) + ItemsOf(e.refs) || ClaimItems(if e.claims.Some? then e.claims.value else []) != []
  {
  }

  /** Each element once, where it first occurs. */
  function FirstOccurrences(s: seq<string>): seq<string> {
    if s == [] then []
    else
      var before := FirstOccurrences(s[..|s| - 1]);
      if s[|s| - 1] in before then before else before + [s[|s| - 1]]
  }

  ghost predicate Distinct(s: seq<string>) {
    forall i, j :: 0 <= i < j < |s| ==> s[i] != s[j]
  }

  /** The first index of an element. */
  function IndexOf(s: seq<string>, x: string): (i: nat)
    requires x in s
    ensures i < |s| && s[i] == x && x !in s[..i]
  {
    if s[0] == x then 0 else 1 + IndexOf(s[1..], x)
  }

  lemma {:induction false} FirstOccurrencesMember(s: seq<string>, x: string)
    ensures x in FirstOccurrences(s) <==> x in s
  {
    if s != [] {
      assert s == s[..|s| - 1] + [s[|s| - 1]];
      FirstOccurrencesMember(s[..|s| - 1], x);
    }
  }

  /** The result has the same elements, none twice, ordered by where they first occur. */
  lemma {:induction false} FirstOccurrencesMeaning(s: seq<string>)
    ensures Distinct(FirstOccurrences(s))
    ensures forall x :: x in FirstOccurrences(s) <==> x in s
    ensures forall i, j :: 0 <= i < j < |FirstOccurrences(s)| ==>
      FirstOccurrences(s)[i] in s && FirstOccurrences(s)[j] in s &&
      IndexOf(s, FirstOccurrences(s)[i]) < IndexOf(s, FirstOccurrences(s)[j])
  {
    if s != [] {
      var short, last := s[..|s| - 1], s[|s| - 1];
      assert s == short + [last];
      FirstOccurrencesMeaning(short);
      var f := FirstOccurrences(s);
      forall i, j | 0 <= i < j < |f| ensures f[i] in s && f[j] in s && IndexOf(s, f[i]) < IndexOf(s, f[j]) {
        IndexOfShort(short, last, f[i]);
        if f[j] in short {
          IndexOfShort(short, last, f[j]);
        }
      }
    }
  }

  lemma IndexOfShort(short: seq<string>, last: string, x: string)
    requires x in short
    ensures IndexOf(short + [last], x) == IndexOf(short, x)
  {
    var i, j := IndexOf(short, x), IndexOf(short + [last], x);
    assert (short + [last])[i] == x;
    assert forall k :: 0 <= k < j ==> (short + [last])[k] == (short + [last])[..j][k];
    assert forall k :: 0 <= k < i ==> short[k] == short[..i][k];
  }

  lemma NonBlankAppend(a: seq<string>, x: string)
    ensures NonBlank(a + [x]) == NonBlank(a) + Kept(x)
  {
    assert (a + [x])[..|a|] == a;
  }

  lemma FirstOccurrencesAppend(s: seq<string>, x: string)
    ensures FirstOccurrences(s + [x]) ==
      if x in FirstOccurrences(s) then FirstOccurrences(s)
      else FirstOccurrences(s) + [x]
  {
    assert (s + [x])[..|s|] == s;
  }

  /** One more item: its stripped text is new, or nothing changes. */
  lemma OneMoreItem(cited: seq<string>, item: string)
    ensures var found := FirstOccurrences(NonBlank(cited));
      FirstOccurrences(NonBlank(cited + [item])) ==
      if Strip(item) == "" || Strip(item) in found then found else found + [Strip(item)]
  {
    hide Strip;
    hide NonBlank;
    NonBlankAppend(cited, item);
    if Strip(item) == "" {
      assert NonBlank(cited) + [] == NonBlank(cited);
    } else {
      FirstOccurrencesAppend(NonBlank(cited), Strip(item));
    }
  }

  /** The two variables `claim_ref_ids` collects into. */
  class Collector {
    var found: seq<string>
    var seen: set<string>
    ghost var cited: seq<string>                // every item passed over so far

    ghost predicate Valid()
      reads this
    {
      found == FirstOccurrences(NonBlank(cited)) && forall x :: x in seen <==> x in found
    }

    constructor ()
      ensures Valid() && cited == []
    {
      found, seen, cited := [], {}, [];
    }

    method Extend(raw: Cited)
      requires Valid()
      modifies this
      ensures Valid() && cited == old(cited) + ItemsOf(raw)
    {
      hide Strip;
      hide NonBlank;
      hide FirstOccurrences;
      assert cited + [] == cited;
      if raw.NotAList? {
        return;
      }
      var i := 0;
      while i < |raw.items|
        invariant 0 <= i <= |raw.items|
        invariant Valid() && cited == old(cited) + raw.items[..i]
      {
        var refId := Strip(raw.items[i]);
        OneMoreItem(cited, raw.items[i]);
        if refId != "" && refId !in seen {
          seen := seen + {refId};
          found := found + [refId];
        }
        assert raw.items[..i + 1] == raw.items[..i] + [raw.items[i]];
        cited := cited + [raw.items[i]];
        i := i + 1;
      }
    }

    method ExtendByClaims(claims: seq<Claim>)
      requires Valid()
      modifies this
      ensures Valid() && cited == old(cited) + ClaimItems(claims)
    {
      hide NonBlank;
      hide FirstOccurrences;
      hide ClaimItems;
      hide Strip;
      ClaimItemsNone();
      assert claims[..0] == [];
      assert cited + [] == cited;
      var i := 0;
      while i < |claims|
        invariant 0 <= i <= |claims|
        invariant Valid() && cited == old(cited) + ClaimItems(claims[..i])
      {
        ClaimItemsNext(claims, i);
        ghost var before := cited;
        if claims[i].Claim? {
          Extend(claims[i].evidenceRefs);
          Extend(claims[i].refs);
          Regroup(old(cited), ClaimItems(claims[..i]), ItemsOf(claims[i].evidenceRefs), ItemsOf(claims[i].refs));
        } else {
          Regroup(old(cited), ClaimItems(claims[..i]), [], []);
        }
        i := i + 1;
      }
      assert claims[..|claims|] == claims;
    }
  }

  predicate In(raw: string, c: Cited) {
    c.Cites? && raw in c.items
  }

  /** The payload cites this, at its top level or in one of its claims, under either key. */
  predicate Mentions(payload: Evolution, raw: string) {
    payload.Evolution?
    && (In(raw, payload.evidenceRefs) || In(raw, payload.refs)
        || (payload.claims.Some? && exists claim :: claim in payload.claims.value && MentionedBy(claim, raw)))
  }

  predicate MentionedBy(claim: Claim, raw: string) {
    claim.Claim? && (In(raw, claim.evidenceRefs) || In(raw, claim.refs))
  }

  lemma {:induction false} ClaimItemsAre(claims: seq<Claim>, raw: string)
    ensures raw in ClaimItems(claims) <==> exists claim :: claim in claims && MentionedBy(claim, raw)
  {
    if claims != [] {
      var n := |claims| - 1;
      ClaimItemsAre(claims[..n], raw);
      CitedByIs(claims[n], raw);
      hide CitedBy, MentionedBy;
      assert claims == claims[..n] + [claims[n]];
      assert raw in ClaimItems(claims) <==> raw in ClaimItems(claims[..n]) || raw in CitedBy(claims[n]);
      assert forall claim :: claim in claims <==> claim in claims[..n] || claim == claims[n];
    }
  }

  lemma CitedByIs(claim: Claim, raw: string)
    ensures raw in CitedBy(claim) <==> MentionedBy(claim, raw)
  {
  }

  lemma {:induction false} NonBlankAre(ids: seq<string>, id: string)
    ensures id in NonBlank(ids) <==> id != "" && exists i :: 0 <= i < |ids| && Strip(ids[i]) == id
  {
    hide Strip;
    if ids != [] {
      var n := |ids| - 1;
      NonBlankAre(ids[..n], id);
      if i :| 0 <= i < |ids| && Strip(ids[i]) == id {
        assert i < n ==> ids[..n][i] == ids[i];
      }
    }
  }

  /** The ids that a payload cites are the mentions, stripped, but for the blank ones. */
  lemma CitedAre(payload: Evolution, id: string)
    ensures id in NonBlank(AllCited(payload)) <==> id != "" && exists raw :: Mentions(payload, raw) && Strip(raw) == id
  {
    hide Strip, NonBlank, ClaimItems;
    var all := AllCited(payload);
    NonBlankAre(all, id);
    forall raw ensures raw in all <==> Mentions(payload, raw) {
      AllMentioned(payload, raw);
    }
    if raw :| Mentions(payload, raw) && Strip(raw) == id {
      var i :| 0 <= i < |all| && all[i] == raw;
      assert Strip(all[i]) == id;
    }
  }

  lemma CitedAreOnce(payload: Evolution)
    ensures var found := FirstOccurrences(NonBlank(AllCited(payload)));
      && (forall id :: id in found <==> id != "" && exists raw :: Mentions(payload, raw) && Strip(raw) == id)
      && forall i, j :: 0 <= i < j < |found| ==> found[i] != found[j]
  {
    hide Strip, NonBlank, AllCited, Mentions;
    var ids := NonBlank(AllCited(payload));
    FirstOccurrencesMeaning(ids);
    forall id
      ensures id in FirstOccurrences(ids) <==> id != "" && exists raw :: Mentions(payload, raw) && Strip(raw) == id
    {
      FirstOccurrencesMember(ids, id);
      CitedAre(payload, id);
    }
  }

  lemma AllMentioned(payload: Evolution, raw: string)
    ensures raw in AllCited(payload) <==> Mentions(payload, raw)
  {
    if payload.Evolution? && payload.claims.Some? {
      ClaimItemsAre(payload.claims.value, raw);
    }
  }

  method ClaimRefIds(payload: Evolution) returns (found: seq<string>)
    ensures found == FirstOccurrences(NonBlank(AllCited(payload)))
    // the mentions, stripped and not blank, each once
    ensures forall id :: id in found <==> id != "" && exists raw :: Mentions(payload, raw) && Strip(raw) == id
    ensures forall i, j :: 0 <= i < j < |found| ==> found[i] != found[j]
  {
    CitedAreOnce(payload);
    hide ClaimItems;
    hide Strip;
    if payload.NoPayload? {
      return [];
    }
    var c := new Collector();
    c.Extend(payload.evidenceRefs);
    c.Extend(payload.refs);
    assert c.cited == [] + ItemsOf(payload.evidenceRefs) + ItemsOf(payload.refs);
    if payload.claims.Some? {
      c.ExtendByClaims(payload.claims.value);
    } else {
      ClaimItemsNone();
    }
    AllCitedIs(payload);
    return c.found;
  }

  lemma CitedStripped(payload: Evolution, i: nat)
    requires i < |FirstOccurrences(NonBlank(AllCited(payload)))|
    ensures var id := FirstOccurrences(NonBlank(AllCited(payload)))[i]; id != "" && Strip(id) == id
  {
    var cited := NonBlank(AllCited(payload));
    FirstOccurrencesMember(cited, FirstOccurrences(cited)[i]);
    NonBlankStripped(AllCited(payload), FirstOccurrences(cited)[i]);
  }

  lemma {:induction false} NonBlankStripped(ids: seq<string>, x: string)
    requires x in NonBlank(ids)
    ensures x != "" && Strip(x) == x
  {
    if x in Kept(ids[|ids| - 1]) {
      StripEnds(ids[|ids| - 1]);
    } else {
      NonBlankStripped(ids[..|ids| - 1], x);
    }
  }

  /** Nothing cited is missing exactly when every cited id is there. */
  lemma NoneMissing(refs: Refs, tenant: string, cited: seq<string>)
    ensures Having(refs, tenant, FirstOccurrences(cited), false) == [] <==> forall id :: id in cited ==>
      (tenant, id) in refs
    ensures FirstOccurrences(cited) == [] <==> cited == []
  {
    hide Having, FirstOccurrences;
    var checked := FirstOccurrences(cited);
    var missing := Having(refs, tenant, checked, false);
    forall id ensures id in missing <==> id in cited && (tenant, id) !in refs {
      HavingMember(refs, tenant, checked, false, id);
      FirstOccurrencesMember(cited, id);
    }
    if missing != [] {
      assert missing[0] in missing;
    }
    if cited != [] {
      FirstOccurrencesMember(cited, cited[0]);
    }
    if checked != [] {
      FirstOccurrencesMember(cited, checked[0]);
    }
  }

  // ---------------------------------------------------------------- the store

  /** Rows sit under their own key; a watermark is a change_log id, and no two rows share one. */
  ghost predicate StoreInv(refs: Refs, clock: nat) {
    && (forall k :: k in refs ==> RowInv(k, refs[k], clock))
    && (forall k, l :: k in refs && l in refs && k != l ==> refs[k].watermark != refs[l].watermark)
  }

  ghost predicate RowInv(key: (string, string), row: Ref, clock: nat) {
    && key == (row.tenant, row.refId) && NormalizeTenant(row.tenant) == row.tenant
    && row.refId != "" && Strip(row.refId) == row.refId
    && 1 <= row.firstSeen <= row.watermark <= clock
  }

  lemma RowOf(refs: Refs, clock: nat, key: (string, string))
    requires StoreInv(refs, clock) && key in refs
    ensures RowInv(key, refs[key], clock)
  {
  }

  lemma IngestKeeps(refs: Refs, clock: nat, key: (string, string), row: Ref)
    requires StoreInv(refs, clock) && row.watermark > clock && RowInv(key, row, row.watermark)
    ensures StoreInv(refs[key := row], row.watermark)
  {
    hide NormalizeTenant, Strip;
    var refs' := refs[key := row];
    forall k | k in refs' ensures RowInv(k, refs'[k], row.watermark) {
      assert k in refs ==> RowInv(k, refs[k], clock);
    }
    forall k, l | k in refs' && l in refs' && k != l ensures refs'[k].watermark != refs'[l].watermark {
      assert k in refs ==> RowInv(k, refs[k], clock);
      assert l in refs ==> RowInv(l, refs[l], clock);
    }
  }

  /** A packet holds references of its own tenant only, and its watermark is a change_log id in use. */
  lemma OwnTenantOnly(refs: Refs, clock: nat, ids: seq<string>, tenant: string, budget: nat, capRefs: nat,
                      capSnippet: nat, p: Packet)
    requires StoreInv(refs, clock) && Packs(refs, ids, tenant, budget, capRefs, capSnippet, p)
    ensures forall i :: 0 <= i < |p.refs| ==> p.refs[i].tenant == tenant
    ensures p.watermark <= clock
  {
    forall i | 0 <= i < |p.refs| ensures p.refs[i].tenant == tenant && p.refs[i].watermark <= clock {
      RowOf(refs, clock, (tenant, p.refs[i].refId));
    }
  }

  datatype Admissibility = Admissibility(admissible: bool, tenant: string, checked: seq<string>, missing: seq<string>)

  class EvidenceStore {
    var refs: Refs
    var clock: nat                              // the greatest change_log id so far

    ghost predicate Valid()
      reads this
    {
      StoreInv(refs, clock)
    }

    constructor ()
      ensures Valid() && refs == map[] && clock == 0
    {
      refs, clock := map[], 0;
    }

    /** Redact, take a new watermark, and insert or update the row. `emitted` is the id of the new
        change_log row, which grows with every event; it is `None` when the event could not be written. */
    method Ingest(refId: string, preview: string, metadata: Payload, refType: string, tenant: string,
                  redactText: string -> string, redactMetadata: Payload -> Payload, emitted: Option<nat>)
      returns (r: Result<Ref, EvidenceError>)
      requires Valid() && (emitted.Some? ==> emitted.value > clock)
      modifies this
      ensures Valid() && clock >= old(clock)
      ensures r.Ok? <==> Strip(refId) != "" && KnownType(Strip(refType)) && emitted.Some?
      ensures r.Err? ==> refs == old(refs) && clock == old(clock)
      ensures r.Ok? ==>
        var key := (if Strip(tenant) == "" then "default" else Strip(tenant), Strip(refId));
        && refs == old(refs)[key := r.value] && r.value.tenant == key.0 && r.value.refId == key.1
        && r.value.watermark == clock == emitted.value
        && r.value.firstSeen == (if key in old(refs) then old(refs)[key].firstSeen else clock)
        && r.value.preview == redactText(preview) && r.value.metadata == redactMetadata(metadata)
        && (r.value.containsSecret <==> r.value.preview != preview || r.value.metadata != metadata)
        && r.value.refType == Strip(refType)
    {
      hide Strip, NormalizeTenant, KnownType, StoreInv;
      var cleaned := Strip(refId);
      if cleaned == "" {
        return Err(IdRequired);
      }
      var scoped := NormalizeTenant(tenant);
      NormalizedOnce(tenant);
      if !KnownType(Strip(refType)) {
        return Err(UnknownType);
      }
      var storedPreview, storedMetadata := redactText(preview), redactMetadata(metadata);
      var containsSecret := storedPreview != preview || storedMetadata != metadata;
      if emitted.None? {
        return Err(NoWatermark);
      }
      StripEnds(refId);
      var existing := GetRef(refs, cleaned, scoped);
      var firstSeen := if existing.Some? then existing.value.firstSeen else emitted.value;
      var row :=
        Ref(cleaned, scoped, Strip(refType), storedPreview, storedMetadata, emitted.value, firstSeen, containsSecret);
      if existing.Some? {
        RowOf(refs, clock, (scoped, cleaned));
      }
      IngestKeeps(refs, clock, (scoped, cleaned), row);
      refs := refs[(scoped, cleaned) := row];
      clock := emitted.value;
      return Ok(row);
    }

    /** The ids that the claim gate looks up are the mentions that are not blank. */
    lemma AdmissibleMeaning(payload: Evolution, tenant: string)
      ensures var cited := NonBlank(AllCited(payload));
        (cited != [] && forall id :: id in cited ==> (NormalizeTenant(tenant), id) in refs) <==>
          && (exists raw :: Mentions(payload, raw) && Strip(raw) != "")
          && forall raw :: Mentions(payload, raw) && Strip(raw) != "" ==> Known(tenant, raw)
    {
      hide Strip, NonBlank, AllCited, Mentions;
      var cited := NonBlank(AllCited(payload));
      forall id
        ensures id in cited <==> id != "" && exists raw :: Mentions(payload, raw) && Strip(raw) == id
      {
        CitedAre(payload, id);
      }
      forall raw | Mentions(payload, raw) && Strip(raw) != "" ensures Strip(raw) in cited {
        CitedAre(payload, Strip(raw));
      }
      if cited != [] {
        assert cited[0] in cited;
      }
    }

    method BuildPacket(ids: seq<string>, tenant: string, maxChars: int, maxRefs: int, snippetChars: int)
      returns (p: Packet)
      requires Valid()
      ensures Packs(refs, ids, NormalizeTenant(tenant), Floor(maxChars), Floor(maxRefs), Floor(snippetChars), p)
    {
      hide Strip, NormalizeTenant, Packs;
      var scoped, budget, capRefs, capSnippet :=
        NormalizeTenant(tenant), Floor(maxChars), Floor(maxRefs), Floor(snippetChars);
      var selected: seq<Ref>, snippets: seq<Snippet> := [], [];
      var omitted: seq<string>, missing: seq<string> := [], [];
      var used, highWatermark := 0, 0;
      var i := 0;
      NormalizedOnce(tenant);
      PackedNothing(refs, scoped, budget, capRefs, capSnippet);
      assert ids[..0] == [] && ids[..|ids|] == ids;
      while i < |ids|
        invariant 0 <= i <= |ids| && 0 <= used
        invariant Packs(refs, ids[..i], scoped, budget, capRefs, capSnippet,
                        Packet(scoped, highWatermark, selected, snippets, budget, used, omitted, missing,
                               StatusOf(missing, omitted)))
      {
        ghost var at, status0 := i, StatusOf(missing, omitted);
        ghost var p0 := Packet(scoped, highWatermark, selected, snippets, budget, used, omitted, missing, status0);
        var refId := Strip(ids[i]);
        i := i + 1;
        if refId == "" {
          BlankPassed(refs, ids, at, scoped, budget, capRefs, capSnippet, p0);
          continue;
        }
        StripEnds(ids[i - 1]);
        var ref := GetRef(refs, refId, scoped);
        if ref.None? {
          MissingAdded(refs, ids, at, scoped, budget, capRefs, capSnippet, p0, refId);
          missing := missing + [refId];
          continue;
        }
        if |selected| >= capRefs {
          OmittedAdded(refs, ids, at, scoped, budget, capRefs, capSnippet, p0, refId);
          omitted := omitted + [refId];
          continue;
        }
        var remaining := budget - used;
        if remaining <= 0 {
          OmittedAdded(refs, ids, at, scoped, budget, capRefs, capSnippet, p0, refId);
          omitted := omitted + [refId];
          continue;
        }
        var take := Min(Min(capSnippet, remaining), |ref.value.preview|);
        var text := ref.value.preview[..take];
        var snippet := Snippet(ref.value.refId, text, take < |ref.value.preview|);
        SelectedAdded(refs, ids, at, scoped, budget, capRefs, capSnippet, p0, ref.value, snippet);
        selected, snippets := selected + [ref.value], snippets + [snippet];
        used := used + |text|;
        if ref.value.watermark > highWatermark {
          highWatermark := ref.value.watermark;
        }
      }
      var status := if missing != [] then MissingRefs else if omitted != [] then Bounded else Complete;
      return Packet(scoped, highWatermark, selected, snippets, budget, used, omitted, missing, status);
    }

    /** There is a row for this mention under the tenant's own name. */
    predicate Known(tenant: string, raw: string)
      reads this`refs
    {
      (if Strip(tenant) == "" then "default" else Strip(tenant), Strip(raw)) in refs
    }

    /** Admissible exactly when something is cited and everything cited exists for the tenant. */
    method AssessEvolutionClaim(payload: Evolution, tenant: string) returns (a: Admissibility)
      requires Valid()
      ensures a.tenant == NormalizeTenant(tenant) && a.checked == FirstOccurrences(NonBlank(AllCited(payload)))
      ensures a.missing == Having(refs, a.tenant, a.checked, false)
      ensures a.admissible <==>
        NonBlank(AllCited(payload)) != [] && forall id :: id in NonBlank(AllCited(payload)) ==> (a.tenant, id) in refs
      ensures a.admissible <==>
        && (exists raw :: Mentions(payload, raw) && Strip(raw) != "")
        && forall raw :: Mentions(payload, raw) && Strip(raw) != "" ==> Known(tenant, raw)
    {
      AdmissibleMeaning(payload, tenant);
      hide Strip, FirstOccurrences, NonBlank, Having, NormalizeTenant;
      var scoped := NormalizeTenant(tenant);
      NormalizedOnce(tenant);
      var checked := ClaimRefIds(payload);
      ghost var cited := NonBlank(AllCited(payload));
      var missing: seq<string> := [];
      var i := 0;
      HavingNone(refs, scoped, false);
      assert checked[..0] == [];
      while i < |checked|
        invariant 0 <= i <= |checked|
        invariant missing == Having(refs, scoped, checked[..i], false)
      {
        assert checked[..i + 1] == checked[..i] + [checked[i]];
        HavingAppend(refs, scoped, checked[..i], checked[i], false);
        CitedStripped(payload, i);
        if GetRef(refs, checked[i], scoped).None? {
          missing := missing + [checked[i]];
        } else {
          NothingAppended(missing);
        }
        i := i + 1;
      }
      assert checked[..|checked|] == checked;
      NoneMissing(refs, scoped, cited);
      return Admissibility(checked != [] && missing == [], scoped, checked, missing);
    }
  }
}
