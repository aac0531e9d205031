/** The virtual-server reconciler (internal/controller/keylinevirtualserver_controller.go). */
module VirtualServerModel {
  import opened Prelude
  import opened Remote
  import opened StatusPatch

  /** `None` stands for a nil pointer or a nil list: undeclared. The patch request has the same shape. */
  datatype Declared = Declared(
    displayName: Option<string>, registration: Option<bool>, require2fa: Option<bool>, verifyEmail: Option<bool>,
    primaryAlgorithm: Option<string>, additionalAlgorithms: Option<seq<string>>)

  datatype Settings = Settings(
    displayName: string, registration: bool, require2fa: bool, verifyEmail: bool,
    primaryAlgorithm: string, additionalAlgorithms: seq<string>)

  const NOTHING := Declared(None, None, None, None, None, None)

  function Wanted<T(==)>(declared: Option<T>, current: T): Option<T> {
    if declared.Some? && declared.value != current then declared else None
  }

  function PatchFor(spec: Declared, current: Settings): Declared {
    Declared(Wanted(spec.displayName, current.displayName), Wanted(spec.registration, current.registration),
             Wanted(spec.require2fa, current.require2fa), Wanted(spec.verifyEmail, current.verifyEmail),
             Wanted(spec.primaryAlgorithm, current.primaryAlgorithm),
             Wanted(spec.additionalAlgorithms, current.additionalAlgorithms))
  }

  /** Fields that are nil in the request are left as they are. */
  function Patched(current: Settings, p: Declared): Settings {
    Settings(OrElse(p.displayName, current.displayName), OrElse(p.registration, current.registration),
             OrElse(p.require2fa, current.require2fa), OrElse(p.verifyEmail, current.verifyEmail),
             OrElse(p.primaryAlgorithm, current.primaryAlgorithm),
             OrElse(p.additionalAlgorithms, current.additionalAlgorithms))
  }

  datatype Call = GetCall | PatchCall(patch: Declared, landed: bool)

  /** The virtual server, if there is one of that name. */
  datatype World = World(current: Option<Settings>, script: seq<Fault>, calls: seq<Call>)

  function Served(w: World, current: Option<Settings>, c: Call): World {
    World(current, Remaining(w.script), w.calls + [c])
  }

  function Get(w: World): (World, Reply<Settings>) {
    (Served(w, w.current, GetCall),
     if Upcoming(w.script) != Clean then Failed else if w.current.Some? then Ok(w.current.value) else NotFound)
  }

  function Patch(w: World, p: Declared): (World, Reply<()>) {
    var landed := Upcoming(w.script) != NoEffect && w.current.Some?;
    (Served(w, if landed then Some(Patched(w.current.value, p)) else w.current, PatchCall(p, landed)),
     if Upcoming(w.script) != Clean then Failed else if landed then Ok(()) else NotFound)
  }

  datatype Pass = Pass(w: World, failure: Option<string>)

  function VsPass(w: World, spec: Declared): Pass {
    var (w1, got) := Get(w);
    if !got.Ok? then Pass(w1, Some("GetFailed"))
    else
      var patch := PatchFor(spec, got.value);
      if patch == NOTHING then Pass(w1, None)
      else
        var (w2, done) := Patch(w1, patch);
        Pass(w2, if done.Ok? then None else Some("PatchFailed"))
  }

  function NextStatus(p: Pass, s: Status, detail: string, now: int): Status {
    if p.failure.None? then Conclude(s, true, "Synced", "Virtual server is in sync", now)
    else Conclude(s, false, p.failure.value, detail, now)
  }
}

/** The same pass as it runs. */
module VirtualServerController {
  import opened Prelude
  import opened Remote
  import opened StatusPatch
  import M = VirtualServerModel

  class VirtualServerClient {
    var current: Option<M.Settings>
    var script: seq<Fault>
    var calls: seq<M.Call>

    constructor (w: M.World)
      ensures View() == w
    {
      current, script, calls := w.current, w.script, w.calls;
    }

    function View(): M.World
      reads this
    {
      M.World(current, script, calls)
    }

    method Begin(c: M.Call) returns (fault: Fault)
      modifies this
      ensures fault == Upcoming(old(script)) && View() == M.Served(old(View()), old(current), c)
    {
      fault := Clean;
      calls := calls + [c];
      if script != [] {
        fault := script[0];
        script := script[1..];
      }
    }

    method Get() returns (reply: Reply<M.Settings>)
      modifies this
      ensures (View(), reply) == M.Get(old(View()))
    {
      var fault := Begin(M.GetCall);
      reply := if fault != Clean then Failed else if current.Some? then Ok(current.value) else NotFound;
    }

    method Patch(p: M.Declared) returns (reply: Reply<()>)
      modifies this
      ensures (View(), reply) == M.Patch(old(View()), p)
    {
      var landed := Upcoming(script) != NoEffect && current.Some?;
      var fault := Begin(M.PatchCall(p, landed));
      if landed {
        current := Some(M.Patched(current.value, p));
      }
      reply := if fault != Clean then Failed else if landed then Ok(()) else NotFound;
    }
  }

  /** Assembles the patch field by field. */
  method BuildPatch(spec: M.Declared, current: M.Settings) returns (patch: M.Declared, needsPatch: bool)
    ensures patch == M.PatchFor(spec, current) && needsPatch == (patch != M.NOTHING)
  {
    patch, needsPatch := M.NOTHING, false;
    ghost var whole := M.PatchFor(spec, current);
    if spec.displayName.Some? && spec.displayName.value != current.displayName {
      patch, needsPatch := patch.(displayName := spec.displayName), true;
    }
    if spec.registration.Some? && spec.registration.value != current.registration {
      patch, needsPatch := patch.(registration := spec.registration), true;
    }
    assert patch == M.Declared(whole.displayName, whole.registration, None, None, None, None) && needsPatch == (patch != M.NOTHING);
    if spec.require2fa.Some? && spec.require2fa.value != current.require2fa {
      patch, needsPatch := patch.(require2fa := spec.require2fa), true;
    }
    if spec.verifyEmail.Some? && spec.verifyEmail.value != current.verifyEmail {
      patch, needsPatch := patch.(verifyEmail := spec.verifyEmail), true;
    }
    assert patch == whole.(primaryAlgorithm := None, additionalAlgorithms := None) && needsPatch == (patch != M.NOTHING);
    if spec.primaryAlgorithm.Some? && spec.primaryAlgorithm.value != current.primaryAlgorithm {
      patch, needsPatch := patch.(primaryAlgorithm := spec.primaryAlgorithm), true;
    }
    if spec.additionalAlgorithms.Some? && spec.additionalAlgorithms.value != current.additionalAlgorithms {
      patch, needsPatch := patch.(additionalAlgorithms := spec.additionalAlgorithms), true;
    }
  }

  /** The remote part of a pass. */
  method Sync(kc: VirtualServerClient, spec: M.Declared) returns (failure: Option<string>)
    modifies kc
    ensures M.Pass(kc.View(), failure) == M.VsPass(old(kc.View()), spec)
  {
    var got := kc.Get();
    if !got.Ok? {
      return Some("GetFailed");
    }
    var patch, needsPatch := BuildPatch(spec, got.value);
    if needsPatch {
      var done := kc.Patch(patch);
      if !done.Ok? {
        return Some("PatchFailed");
      }
    }
    return None;
  }

  /** One pass. `blocked` is the reason the readiness gates gave, if any. */
  method Reconcile(kc: VirtualServerClient, vs: Resource<M.Declared>, sp: StatusPatcher<M.Declared>, blocked: Option<string>,
                   detail: string, now: int, fault: Fault)
    returns (result: Result)
    requires sp.resource == vs
    modifies kc, vs, sp.server
    ensures blocked.Some? ==>
              && kc.View() == old(kc.View())
              && vs.View() == Conclude(old(vs.View()), false, blocked.value, detail, now)
    ensures blocked.None? ==>
              var p := M.VsPass(old(kc.View()), vs.spec);
              kc.View() == p.w && vs.View() == M.NextStatus(p, old(vs.View()), detail, now)
    ensures sp.server.document
            == Written(old(sp.server.document), vs.manifest, sp.base, vs.View(), vs.idField, fault)
    ensures result == if fault.Clean? then RequeueAfter else Error
  {
    if blocked.Some? {
      result := sp.SetNotReady(blocked.value, detail, now, fault);
      return;
    }
    var failure := Sync(kc, vs.spec);
    if failure.Some? {
      result := sp.SetNotReady(failure.value, detail, now, fault);
    } else {
      result := sp.SetReady("Synced", "Virtual server is in sync", now, fault);
    }
  }
}

/** Several resources may configure one virtual server. */
module VirtualServerProperties {
  import opened Prelude
  import opened Remote
  import opened StatusPatch
  import opened VirtualServerModel
  import MergePatch

  /** Every declared field has its declared value. */
  predicate Satisfies(current: Settings, spec: Declared) {
    && (spec.displayName.Some? ==> current.displayName == spec.displayName.value)
    && (spec.registration.Some? ==> current.registration == spec.registration.value)
    && (spec.require2fa.Some? ==> current.require2fa == spec.require2fa.value)
    && (spec.verifyEmail.Some? ==> current.verifyEmail == spec.verifyEmail.value)
    && (spec.primaryAlgorithm.Some? ==> current.primaryAlgorithm == spec.primaryAlgorithm.value)
    && (spec.additionalAlgorithms.Some? ==> current.additionalAlgorithms == spec.additionalAlgorithms.value)
  }

  /** Everything the spec does not declare is as before. */
  predicate Preserves(before: Settings, after: Settings, spec: Declared) {
    && (spec.displayName.None? ==> after.displayName == before.displayName)
    && (spec.registration.None? ==> after.registration == before.registration)
    && (spec.require2fa.None? ==> after.require2fa == before.require2fa)
    && (spec.verifyEmail.None? ==> after.verifyEmail == before.verifyEmail)
    && (spec.primaryAlgorithm.None? ==> after.primaryAlgorithm == before.primaryAlgorithm)
    && (spec.additionalAlgorithms.None? ==> after.additionalAlgorithms == before.additionalAlgorithms)
  }

  /** A clean pass sets every declared field and keeps every other; it sends a patch exactly when some
      declared field differs, so a second pass sends none. */
  lemma CleanPass(w: World, spec: Declared)
    requires w.script == [] && w.current.Some?
    ensures var p := VsPass(w, spec);
            && p.failure.None? && p.w.script == []
            && p.w.current == Some(Patched(w.current.value, spec))
            && Satisfies(p.w.current.value, spec)
            && Preserves(w.current.value, p.w.current.value, spec)
            && (p.w.calls == w.calls + [GetCall] <==> Satisfies(w.current.value, spec))
  {
    var current := w.current.value;
    if PatchFor(spec, current) != NOTHING {
      assert |VsPass(w, spec).w.calls| == |w.calls| + 2;
    }
  }

  /** A pass that meets failures leaves each field as it was or as declared. */
  lemma RoughPass(w: World, spec: Declared)
    requires w.current.Some?
    ensures var p := VsPass(w, spec);
            && (p.w.current == w.current || p.w.current == Some(Patched(w.current.value, spec)))
            && (p.failure.None? ==> p.w.current == Some(Patched(w.current.value, spec)))
  {
  }

  /** A pass stops at the first call that fails, in any world: so success means that no call failed and every
      declared field holds, and a failure names the kind of the last call. */
  lemma VerdictNamesTheCall(w: World, spec: Declared)
    ensures var p := VsPass(w, spec);
            var n := |p.w.calls| - |w.calls|;
            && StopsAtFailure(w.script, n, p.failure.Some?)
            && (p.failure.Some? ==> p.failure.value == if p.w.calls[|p.w.calls| - 1].GetCall? then "GetFailed" else "PatchFailed")
            && (p.failure.None? ==> p.w.current.Some? && Satisfies(p.w.current.value, spec))
  {
  }

  /** A patch carries a field exactly if the spec declares it and the virtual server differs, and then with the
      declared value. */
  lemma PatchIsExact(w: World, spec: Declared, i: nat)
    requires |w.calls| <= i < |VsPass(w, spec).w.calls| && VsPass(w, spec).w.calls[i].PatchCall?
    ensures w.current.Some?
    ensures var now, patch := w.current.value, VsPass(w, spec).w.calls[i].patch;
            && (patch.displayName == if spec.displayName == Some(now.displayName) then None else spec.displayName)
            && (patch.registration == if spec.registration == Some(now.registration) then None else spec.registration)
            && (patch.require2fa == if spec.require2fa == Some(now.require2fa) then None else spec.require2fa)
            && (patch.verifyEmail == if spec.verifyEmail == Some(now.verifyEmail) then None else spec.verifyEmail)
            && (patch.primaryAlgorithm == if spec.primaryAlgorithm == Some(now.primaryAlgorithm) then None else spec.primaryAlgorithm)
            && (patch.additionalAlgorithms == if spec.additionalAlgorithms == Some(now.additionalAlgorithms) then None else spec.additionalAlgorithms)
  {
  }

  predicate Agree<T(==)>(a: Option<T>, b: Option<T>) {
    a.Some? && b.Some? ==> a.value == b.value
  }

  /** No field is declared differently by the two. */
  predicate Compatible(a: Declared, b: Declared) {
    && Agree(a.displayName, b.displayName) && Agree(a.registration, b.registration)
    && Agree(a.require2fa, b.require2fa) && Agree(a.verifyEmail, b.verifyEmail)
    && Agree(a.primaryAlgorithm, b.primaryAlgorithm) && Agree(a.additionalAlgorithms, b.additionalAlgorithms)
  }

  /** Two resources can both be at rest on some state of the virtual server exactly when they are
      compatible; otherwise they overwrite each other for ever. */
  lemma RestIff(a: Declared, b: Declared, current: Settings)
    ensures Compatible(a, b) <==> Satisfies(Patched(Patched(current, a), b), a)
    ensures (exists s :: Satisfies(s, a) && Satisfies(s, b)) <==> Compatible(a, b)
  {
    if Compatible(a, b) {
      var s := Patched(Patched(current, a), b);
      assert Satisfies(s, a) && Satisfies(s, b);
    }
  }

  function Folded(current: Settings, specs: seq<Declared>): Settings
    decreases |specs|
  {
    if specs == [] then current else Folded(Patched(current, specs[0]), specs[1..])
  }

  ghost predicate AllCompatible(specs: set<Declared>) {
    forall a, b | a in specs && b in specs :: Compatible(a, b)
  }

  /** One field after a fold: the value some spec declares for it, or the one it had. Nothing of the order
      of the specs is left in this. */
  ghost predicate Picked<T>(result: T, current: T, field: Declared -> Option<T>, specs: set<Declared>) {
    && (forall a | a in specs && field(a).Some? :: result == field(a).value)
    && ((forall a | a in specs :: field(a).None?) ==> result == current)
  }

  lemma PickedUnique<T>(r: T, q: T, current: T, field: Declared -> Option<T>, specs: set<Declared>)
    requires Picked(r, current, field, specs) && Picked(q, current, field, specs)
    ensures r == q
  {
    if a :| a in specs && field(a).Some? {
      assert r == field(a).value;
    }
  }

  lemma PickedStep<T>(result: T, next: T, current: T, field: Declared -> Option<T>, first: Declared, rest: set<Declared>)
    requires next == OrElse(field(first), current) && Picked(result, next, field, rest)
    requires forall a | a in rest :: field(a).Some? && field(first).Some? ==> field(a).value == field(first).value
    ensures Picked(result, current, field, {first} + rest)
  {
    if field(first).Some? && exists a :: a in rest && field(a).Some? {
      var a :| a in rest && field(a).Some?;
      assert result == field(a).value;
    }
  }

  function DisplayName(): Declared -> Option<string> { (d: Declared) => d.displayName }
  function Registration(): Declared -> Option<bool> { (d: Declared) => d.registration }
  function Require2fa(): Declared -> Option<bool> { (d: Declared) => d.require2fa }
  function VerifyEmail(): Declared -> Option<bool> { (d: Declared) => d.verifyEmail }
  function PrimaryAlgorithm(): Declared -> Option<string> { (d: Declared) => d.primaryAlgorithm }
  function AdditionalAlgorithms(): Declared -> Option<seq<string>> { (d: Declared) => d.additionalAlgorithms }

  ghost predicate IsOverlay(result: Settings, current: Settings, specs: set<Declared>) {
    && Picked(result.displayName, current.displayName, DisplayName(), specs)
    && Picked(result.registration, current.registration, Registration(), specs)
    && Picked(result.require2fa, current.require2fa, Require2fa(), specs)
    && Picked(result.verifyEmail, current.verifyEmail, VerifyEmail(), specs)
    && Picked(result.primaryAlgorithm, current.primaryAlgorithm, PrimaryAlgorithm(), specs)
    && Picked(result.additionalAlgorithms, current.additionalAlgorithms, AdditionalAlgorithms(), specs)
  }

  lemma OverlayUnique(r: Settings, q: Settings, current: Settings, specs: set<Declared>)
    requires IsOverlay(r, current, specs) && IsOverlay(q, current, specs)
    ensures r == q
  {
    PickedUnique(r.displayName, q.displayName, current.displayName, DisplayName(), specs);
    PickedUnique(r.registration, q.registration, current.registration, Registration(), specs);
    PickedUnique(r.require2fa, q.require2fa, current.require2fa, Require2fa(), specs);
    PickedUnique(r.verifyEmail, q.verifyEmail, current.verifyEmail, VerifyEmail(), specs);
    PickedUnique(r.primaryAlgorithm, q.primaryAlgorithm, current.primaryAlgorithm, PrimaryAlgorithm(), specs);
    PickedUnique(r.additionalAlgorithms, q.additionalAlgorithms, current.additionalAlgorithms, AdditionalAlgorithms(), specs);
  }

  lemma OverlayStep(result: Settings, current: Settings, first: Declared, rest: set<Declared>)
    requires IsOverlay(result, Patched(current, first), rest) && forall a | a in rest :: Compatible(a, first)
    ensures IsOverlay(result, current, {first} + rest)
  {
    var next := Patched(current, first);
    PickedStep(result.displayName, next.displayName, current.displayName, DisplayName(), first, rest);
    PickedStep(result.registration, next.registration, current.registration, Registration(), first, rest);
    PickedStep(result.require2fa, next.require2fa, current.require2fa, Require2fa(), first, rest);
    PickedStep(result.verifyEmail, next.verifyEmail, current.verifyEmail, VerifyEmail(), first, rest);
    PickedStep(result.primaryAlgorithm, next.primaryAlgorithm, current.primaryAlgorithm, PrimaryAlgorithm(), first, rest);
    PickedStep(result.additionalAlgorithms, next.additionalAlgorithms, current.additionalAlgorithms, AdditionalAlgorithms(), first, rest);
  }

  lemma {:induction false} FoldIsOverlay(current: Settings, specs: seq<Declared>)
    requires AllCompatible(Elements(specs))
    ensures IsOverlay(Folded(current, specs), current, Elements(specs))
    decreases |specs|
  {
    if specs != [] {
      var first, rest := specs[0], specs[1..];
      assert first in Elements(specs);
      assert Elements(specs) == {first} + Elements(rest);
      FoldIsOverlay(Patched(current, first), rest);
      forall a | a in Elements(rest) ensures Compatible(a, first) {
        assert a in Elements(specs);
      }
      OverlayStep(Folded(current, specs), current, first, Elements(rest));
    }
  }

  lemma OverlaySatisfies(result: Settings, current: Settings, specs: set<Declared>, a: Declared)
    requires IsOverlay(result, current, specs) && a in specs
    ensures Satisfies(result, a)
  {
    assert DisplayName()(a).Some? ==> result.displayName == a.displayName.value;
    assert Registration()(a).Some? ==> result.registration == a.registration.value;
    assert Require2fa()(a).Some? ==> result.require2fa == a.require2fa.value;
    assert VerifyEmail()(a).Some? ==> result.verifyEmail == a.verifyEmail.value;
    assert PrimaryAlgorithm()(a).Some? ==> result.primaryAlgorithm == a.primaryAlgorithm.value;
    assert AdditionalAlgorithms()(a).Some? ==> result.additionalAlgorithms == a.additionalAlgorithms.value;
  }

  // ---------------------------------------------------------------- runs with failures

  /** One pass of one resource, with whatever befalls its calls. */
  datatype Attempt = Attempt(spec: Declared, script: seq<Fault>)

  function Tried(current: Settings, many: seq<Attempt>): Settings
    decreases |many|
  {
    if many == [] then current
    else Tried(VsPass(World(Some(current), many[0].script, []), many[0].spec).w.current.value, many[1..])
  }

  ghost predicate Declares(many: seq<Attempt>, spec: Declared) {
    exists i :: 0 <= i < |many| && many[i].spec == spec
  }

  ghost predicate OnceClean(many: seq<Attempt>, spec: Declared) {
    exists i :: 0 <= i < |many| && many[i] == Attempt(spec, [])
  }

  lemma DeclaresRest(many: seq<Attempt>, spec: Declared)
    requires many != []
    ensures Declares(many, spec) <==> many[0].spec == spec || Declares(many[1..], spec)
    ensures OnceClean(many, spec) <==> many[0] == Attempt(spec, []) || OnceClean(many[1..], spec)
  {
    assert forall i | 0 < i < |many| :: many[i] == many[1..][i - 1];
    if Declares(many[1..], spec) {
      var i :| 0 <= i < |many[1..]| && many[1..][i].spec == spec;
      assert many[i + 1].spec == spec;
    }
    if OnceClean(many[1..], spec) {
      var i :| 0 <= i < |many[1..]| && many[1..][i] == Attempt(spec, []);
      assert many[i + 1] == Attempt(spec, []);
    }
  }

  /** A run computes the fold of the passes that took effect: some of those declared, all that were clean. */
  lemma {:induction false} RunFolds(current: Settings, many: seq<Attempt>) returns (landed: seq<Declared>)
    ensures Tried(current, many) == Folded(current, landed)
    ensures forall spec | spec in landed :: Declares(many, spec)
    ensures forall spec | OnceClean(many, spec) :: spec in landed
    decreases |many|
  {
    if many == [] {
      landed := [];
    } else {
      var w, first := World(Some(current), many[0].script, []), many[0].spec;
      var next := VsPass(w, first).w.current.value;
      RoughPass(w, first);
      if many[0].script == [] { CleanPass(w, first); }
      var rest := RunFolds(next, many[1..]);
      var took := next == Patched(current, first);
      landed := if took then [first] + rest else rest;
      assert took ==> landed[1..] == rest;
      forall spec ensures (Declares(many, spec) <==> first == spec || Declares(many[1..], spec))
                       && (OnceClean(many, spec) <==> many[0] == Attempt(spec, []) || OnceClean(many[1..], spec)) {
        DeclaresRest(many, spec);
      }
    }
  }

  /** Confluence: for resources that agree pairwise on what they declare, whatever failed and in whatever order
      the passes ran, once each resource has had one clean pass the virtual server is what was there overlaid
      with everything declared, and satisfies each of them. */
  lemma PassesConfluent(current: Settings, many: seq<Attempt>, specs: set<Declared>)
    requires AllCompatible(specs)
    requires forall spec :: spec in specs <==> Declares(many, spec)
    requires forall spec | spec in specs :: OnceClean(many, spec)
    ensures IsOverlay(Tried(current, many), current, specs)
    ensures forall a | a in specs :: Satisfies(Tried(current, many), a)
  {
    var landed := RunFolds(current, many);
    assert Elements(landed) == specs;
    FoldIsOverlay(current, landed);
    forall a | a in specs ensures Satisfies(Tried(current, many), a) {
      OverlaySatisfies(Tried(current, many), current, specs, a);
    }
  }

  /** The overlay is unique, so any two such runs end in the same state. */
  lemma OrderDoesNotMatter(current: Settings, one: seq<Attempt>, other: seq<Attempt>, specs: set<Declared>)
    requires AllCompatible(specs)
    requires forall spec :: spec in specs <==> Declares(one, spec)
    requires forall spec :: spec in specs <==> Declares(other, spec)
    requires forall spec | spec in specs :: OnceClean(one, spec) && OnceClean(other, spec)
    ensures Tried(current, one) == Tried(current, other)
  {
    PassesConfluent(current, one, specs);
    PassesConfluent(current, other, specs);
    OverlayUnique(Tried(current, one), Tried(current, other), current, specs);
  }

  /** After a clean pass, another one at any later time only reads, and its status patch is empty. */
  lemma VirtualServerQuiescence(w: World, spec: Declared, s: Status, detail: string, now: int, detail': string,
                                later: int, manifest: Doc, idField: string)
    requires w.script == [] && w.current.Some?
    ensures var p := VsPass(w, spec);
            var s1 := NextStatus(p, s, detail, now);
            var q := VsPass(p.w, spec);
            var s2 := NextStatus(q, s1, detail', later);
            && q.w.current == p.w.current && q.w.calls == p.w.calls + [GetCall]
            && s2 == s1 && IsReady(s1)
            && MergePatch.Diff(Document(manifest, s1, idField), Document(manifest, s2, idField)) == MergePatch.Obj(map[])
  {
    CleanPass(w, spec);
    CleanPass(VsPass(w, spec).w, spec);
    ConcludeAgain(s, true, "Synced", "Virtual server is in sync", now, later, manifest, idField);
  }
}
