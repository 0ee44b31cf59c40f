/** Binding a task to an installed Skill and its live runtime: what is frozen, when freezing is
    refused, and what every later Tool call is checked against. */
module SkillBinding {
  import opened Common

  datatype Kind = Query | Action | Session
  datatype BoundTool = BoundTool(toolId: string, kind: Kind, sha: string)

  /** The identity of a running Gateway. */
  datatype Identity = Identity(skill: string, version: string, profile: string, instance: string,
                               url: string, gateway: Option<string>)

  /** What the Gateway says of a Tool: its specification, and whether it is ready. `kind` is read from
      the specification and may be one the agent does not know. */
  datatype Live = Live(spec: Dict, kind: Option<Kind>, ready: bool, bindingError: bool)

  /** A running Gateway; a Tool it does not answer for is missing. */
  datatype Runtime = Runtime(identity: Identity, tools: map<string, Live>)

  /** The installed bundle: its version, its documents, and the Tools it needs in path order. */
  datatype Bundle = Bundle(name: string, version: string, manifestSha: string, documentSha: string,
                           required: seq<string>)

  /** Everything a binding fixes. */
  datatype Payload = Payload(identity: Identity, manifestSha: string, documentSha: string, tools: seq<BoundTool>)
  datatype Binding = Binding(id: string, payload: Payload)

  /** Hashing a specification, naming a candidate, and naming the binding of a task. */
  datatype Hashes = Hashes(ofSpec: Dict -> string, ofCandidate: Payload -> string, ofBinding: (Payload, string) -> string)

  // ---- Preview ---------------------------------------------------------------------------------

  predicate Usable(r: Runtime, toolId: string)
  {
    toolId in r.tools && r.tools[toolId].kind.Some? && r.tools[toolId].ready && !r.tools[toolId].bindingError
  }

  predicate Previewable(r: Option<Runtime>, b: Bundle)
  {
    && r.Some? && r.value.identity.skill == b.name && r.value.identity.version == b.version
    && forall i :: 0 <= i < |b.required| ==> Usable(r.value, b.required[i])
  }

  function Bound(r: Runtime, toolId: string, h: Hashes): BoundTool
    requires Usable(r, toolId)
  {
    BoundTool(toolId, r.tools[toolId].kind.value, h.ofSpec(r.tools[toolId].spec))
  }

  function BoundTools(r: Runtime, required: seq<string>, h: Hashes): (t: seq<BoundTool>)
    requires forall i :: 0 <= i < |required| ==> Usable(r, required[i])
    ensures |t| == |required| && forall i :: 0 <= i < |t| ==> t[i] == Bound(r, required[i], h)
  {
    seq(|required|, i requires 0 <= i < |required| => Bound(r, required[i], h))
  }

  function Previewed(r: Option<Runtime>, b: Bundle, h: Hashes): Option<Payload>
  {
    if !Previewable(r, b) then None
    else Some(Payload(r.value.identity, b.manifestSha, b.documentSha, BoundTools(r.value, b.required, h)))
  }

  /** `ForgeSkillBinding.tool`: the first listed Tool with this identifier. */
  function Find(tools: seq<BoundTool>, toolId: string): (i: nat)
    ensures i <= |tools| && (i < |tools| ==> tools[i].toolId == toolId)
    ensures forall k :: 0 <= k < i ==> tools[k].toolId != toolId
  {
    if tools == [] then 0 else if tools[0].toolId == toolId then 0 else Find(tools[1..], toolId) + 1
  }

  /** The binding that freezing a candidate for this task yields. */
  function Freezing(candidates: map<string, Payload>, candidateId: string, taskId: string, r: Option<Runtime>, b: Bundle,
                    h: Hashes): Option<Binding>
  {
    if candidateId in candidates && Previewed(r, b, h) == Some(candidates[candidateId])
    then Some(Binding(h.ofBinding(candidates[candidateId], taskId), candidates[candidateId])) else None
  }

  class BindingResolver {
    const hashes: Hashes
    var candidates: map<string, Payload>

    constructor (hashes: Hashes)
      ensures this.hashes == hashes && candidates == map[]
    {
      this.hashes, candidates := hashes, map[];
    }

    /** Reads every required Tool from the live Gateway and remembers the candidate. */
    method Preview(r: Option<Runtime>, b: Bundle) returns (c: Option<Payload>)
      modifies this
      ensures c == Previewed(r, b, hashes)
      ensures candidates == if c.Some? then old(candidates)[hashes.ofCandidate(c.value) := c.value] else old(candidates)
    {
      if r.None? || r.value.identity.skill != b.name || r.value.identity.version != b.version { return None; }
      var tools: seq<BoundTool> := [];
      var i := 0;
      while i < |b.required|
        invariant i <= |b.required| && forall k :: 0 <= k < i ==> Usable(r.value, b.required[k])
        invariant tools == BoundTools(r.value, b.required[..i], hashes)
      {
        var id := b.required[i];
        if id !in r.value.tools { return None; }
        var live := r.value.tools[id];
        if live.kind.None? { return None; }
        if !live.ready || live.bindingError { return None; }
        assert b.required[..i + 1] == b.required[..i] + [id];
        tools := tools + [BoundTool(id, live.kind.value, hashes.ofSpec(live.spec))];
        i := i + 1;
      }
      assert b.required[..i] == b.required;
      c := Some(Payload(r.value.identity, b.manifestSha, b.documentSha, tools));
      candidates := candidates[hashes.ofCandidate(c.value) := c.value];
    }

    /** Binds exactly when the candidate is known and a fresh preview finds nothing changed; the
        binding fixes what that preview found. */
    method Freeze(candidateId: string, taskId: string, r: Option<Runtime>, b: Bundle) returns (binding: Option<Binding>)
      modifies this
      ensures binding == Freezing(old(candidates), candidateId, taskId, r, b, hashes)
    {
      if candidateId !in candidates { return None; }
      var candidate := candidates[candidateId];
      var current := Preview(r, b);
      if current.None? || current.value != candidate { return None; }
      return Some(Binding(hashes.ofBinding(current.value, taskId), current.value));
    }

    /** The checks before each Tool call. */
    method ValidateTool(binding: Binding, toolId: string, kind: Kind, r: Option<Runtime>) returns (tool: Option<BoundTool>)
      ensures tool.Some? <==> Admits(binding.payload, toolId, kind, r, hashes)
      ensures tool.Some? ==> tool.value in binding.payload.tools && tool.value.toolId == toolId && tool.value.kind == kind
    {
      if r.None? || r.value.identity != binding.payload.identity { return None; }
      var i := Find(binding.payload.tools, toolId);
      if i == |binding.payload.tools| { return None; }
      var bound := binding.payload.tools[i];
      if bound.kind != kind || toolId !in r.value.tools { return None; }
      var live := r.value.tools[toolId];
      if hashes.ofSpec(live.spec) != bound.sha || !live.ready || live.bindingError { return None; }
      return Some(bound);
    }
  }

  /** What the live Gateway is asked: the runtime is still the bound one, and its Tool unchanged and ready. */
  predicate StillLive(p: Payload, toolId: string, r: Option<Runtime>, h: Hashes)
  {
    && r.Some? && r.value.identity == p.identity
    && var i := Find(p.tools, toolId);
       && i < |p.tools| && toolId in r.value.tools && h.ofSpec(r.value.tools[toolId].spec) == p.tools[i].sha
       && r.value.tools[toolId].ready && !r.value.tools[toolId].bindingError
  }

  /** Exactly when a Tool call of a bound task is let through. */
  predicate Admits(p: Payload, toolId: string, kind: Kind, r: Option<Runtime>, h: Hashes)
  {
    StillLive(p, toolId, r, h) && p.tools[Find(p.tools, toolId)].kind == kind
  }

  ghost predicate Injective(h: Hashes)
  {
    && (forall a, b :: h.ofSpec(a) == h.ofSpec(b) ==> a == b)
    && (forall p, s, q, t :: h.ofBinding(p, s) == h.ofBinding(q, t) ==> p == q && s == t)
  }

  /** A candidate lists exactly the required Tools, in order; each was there, of a known kind and ready,
      and is listed under its kind and the digest of its specification; and it fixes the runtime it was
      read from and the bundle's documents. */
  lemma CandidateListsReadyTools(r: Option<Runtime>, b: Bundle, h: Hashes)
    requires Previewed(r, b, h).Some?
    ensures r.Some? && r.value.identity.skill == b.name && r.value.identity.version == b.version
    ensures var p := Previewed(r, b, h).value;
            && p.identity == r.value.identity && p.manifestSha == b.manifestSha && p.documentSha == b.documentSha
            && |p.tools| == |b.required|
            && forall i :: 0 <= i < |p.tools| ==>
                 && b.required[i] in r.value.tools
                 && var live := r.value.tools[b.required[i]];
                    live.ready && !live.bindingError && live.kind.Some?
                    && p.tools[i] == BoundTool(b.required[i], live.kind.value, h.ofSpec(live.spec))
  {}

  /** Whatever Tool a bound task may call has, to the letter, the specification it had when the Skill
      was activated, at the very runtime that was active then, and is ready. */
  lemma AdmittedToolUnchanged(before: Runtime, b: Bundle, toolId: string, kind: Kind, now: Runtime, h: Hashes)
    requires Injective(h) && Previewed(Some(before), b, h).Some?
    requires Admits(Previewed(Some(before), b, h).value, toolId, kind, Some(now), h)
    ensures now.identity == before.identity && toolId in b.required
    ensures toolId in before.tools && now.tools[toolId].spec == before.tools[toolId].spec
    ensures before.tools[toolId].kind == Some(kind)
    ensures now.tools[toolId].ready && !now.tools[toolId].bindingError
  {
    var tools := Previewed(Some(before), b, h).value.tools;
    var i := Find(tools, toolId);
    assert tools[i] == Bound(before, b.required[i], h);
  }

  /** And a required Tool that is unchanged and ready, at the same runtime, is always admitted. */
  lemma UnchangedToolAdmitted(before: Runtime, b: Bundle, toolId: string, now: Runtime, h: Hashes)
    requires Previewed(Some(before), b, h).Some? && toolId in b.required && now.identity == before.identity
    requires toolId in now.tools && now.tools[toolId].spec == before.tools[toolId].spec
    requires now.tools[toolId].ready && !now.tools[toolId].bindingError
    ensures Admits(Previewed(Some(before), b, h).value, toolId, before.tools[toolId].kind.value, Some(now), h)
  {
    var tools := Previewed(Some(before), b, h).value.tools;
    var k :| 0 <= k < |b.required| && b.required[k] == toolId;
    assert tools[k].toolId == toolId;
    var i := Find(tools, toolId);
    assert tools[i] == Bound(before, b.required[i], h);
  }

  /** The bundle and every Tool it requires are, at this runtime, as they were at the other. */
  ghost predicate Unchanged(before: Runtime, b: Bundle, now: Runtime, b': Bundle)
  {
    && now.identity == before.identity && b'.manifestSha == b.manifestSha && b'.documentSha == b.documentSha
    && b'.required == b.required
    && forall i :: 0 <= i < |b.required| ==>
         && b.required[i] in before.tools && b.required[i] in now.tools
         && now.tools[b.required[i]].spec == before.tools[b.required[i]].spec
         && now.tools[b.required[i]].kind == before.tools[b.required[i]].kind
  }

  /** What was previewed at activation is bound exactly when it can be previewed again and nothing of it
      changed in between: not the runtime, not the documents, not one required Tool. */
  lemma BoundExactly(before: Runtime, b: Bundle, candidates: map<string, Payload>, candidateId: string, taskId: string,
                     r: Option<Runtime>, b': Bundle, h: Hashes)
    requires Injective(h) && Previewed(Some(before), b, h).Some?
    requires candidateId in candidates && candidates[candidateId] == Previewed(Some(before), b, h).value
    ensures Freezing(candidates, candidateId, taskId, r, b', h).Some? <==>
              Previewed(r, b', h).Some? && Unchanged(before, b, r.value, b')
    ensures Freezing(candidates, candidateId, taskId, r, b', h).Some? ==>
              Freezing(candidates, candidateId, taskId, r, b', h).value.payload == Previewed(Some(before), b, h).value
  {
    if Previewed(r, b', h).Some? {
      var old', new' := Previewed(Some(before), b, h).value, Previewed(r, b', h).value;
      ListsRequired(before, b, h);
      ListsRequired(r.value, b', h);
      if old' == new' { assert b'.required == b.required; }
      if Unchanged(before, b, r.value, b') { assert new'.tools == old'.tools; }
    }
  }

  lemma ListsRequired(r: Runtime, b: Bundle, h: Hashes)
    requires Previewed(Some(r), b, h).Some?
    ensures var tools := Previewed(Some(r), b, h).value.tools;
            |tools| == |b.required| && forall i :: 0 <= i < |tools| ==>
              b.required[i] in r.tools && r.tools[b.required[i]].kind.Some?
              && tools[i] == BoundTool(b.required[i], r.tools[b.required[i]].kind.value, h.ofSpec(r.tools[b.required[i]].spec))
  {}
}
