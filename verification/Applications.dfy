/** The application reconciler (internal/controller/keylineapplication_controller.go). */
module ApplicationModel {
  import opened Prelude
  import opened Remote
  import opened StatusPatch

  /** `None` stands for a nil pointer or a nil list. */
  datatype AppSpec = AppSpec(
    name: string, displayName: string, kind: string, redirectUris: seq<string>, postLogoutUris: Option<seq<string>>,
    headerType: Option<string>, deviceFlow: bool, claimsScript: Option<string>, algorithm: Option<string>)

  datatype App = App(
    name: string, displayName: string, kind: string, redirectUris: seq<string>, postLogoutUris: seq<string>,
    headerType: string, deviceFlow: bool, claimsScript: Option<string>, algorithm: Option<string>)

  datatype AppPatch = AppPatch(
    displayName: Option<string>, deviceFlow: Option<bool>, claimsScript: Option<string>,
    redirectUris: Option<seq<string>>, postLogoutUris: Option<seq<string>>,
    headerType: Option<string>, algorithm: Option<string>)

  const EMPTY_PATCH := AppPatch(None, None, None, None, None, None, None)

  // ---------------------------------------------------------------- the diff

  function PatchFor(existing: App, spec: AppSpec): AppPatch {
    AppPatch(
      if existing.displayName != spec.displayName then Some(spec.displayName) else None,
      if existing.deviceFlow != spec.deviceFlow then Some(spec.deviceFlow) else None,
      if spec.claimsScript.Some? && existing.claimsScript != spec.claimsScript then spec.claimsScript else None,
      if existing.redirectUris != spec.redirectUris then Some(spec.redirectUris) else None,
      if existing.postLogoutUris != OrElse(spec.postLogoutUris, []) then spec.postLogoutUris else None,
      if OrElse(spec.headerType, "") != "" && existing.headerType != spec.headerType.value then spec.headerType else None,
      if OrElse(existing.algorithm, "") != OrElse(spec.algorithm, "") then spec.algorithm else None)
  }

  /** A cleared post-logout list or signing algorithm makes the diff ask for a patch whose field is nil. */
  predicate Clearing(existing: App, spec: AppSpec) {
    || (spec.algorithm.None? && OrElse(existing.algorithm, "") != "")
    || (spec.postLogoutUris.None? && existing.postLogoutUris != [])
  }

  /** The result of the diff: nil, or a patch, possibly one without any field. */
  function Diff(existing: App, spec: AppSpec): Option<AppPatch> {
    if PatchFor(existing, spec) == EMPTY_PATCH && !Clearing(existing, spec) then None
    else Some(PatchFor(existing, spec))
  }

  /** Fields that are nil in the patch are left as they are. */
  function Patched(a: App, p: AppPatch): App {
    a.(displayName := OrElse(p.displayName, a.displayName),
       deviceFlow := OrElse(p.deviceFlow, a.deviceFlow),
       claimsScript := if p.claimsScript.Some? then p.claimsScript else a.claimsScript,
       redirectUris := OrElse(p.redirectUris, a.redirectUris),
       postLogoutUris := OrElse(p.postLogoutUris, a.postLogoutUris),
       headerType := OrElse(p.headerType, a.headerType),
       algorithm := if p.algorithm.Some? then p.algorithm else a.algorithm)
  }

  // ---------------------------------------------------------------- the server

  datatype Call =
    | GetCall(id: Id)
    | ListCall
    | CreateCall(name: string, landed: bool)
    | PatchCall(id: Id, patch: AppPatch, landed: bool)

  type World = Server<App, Call>

  function Named(name: string): App -> bool {
    (a: App) => a.name == name
  }

  predicate NameTaken(dir: Registry<App>, name: string) {
    exists i | 0 <= i < |dir| :: dir[i].Some? && dir[i].value.name == name
  }

  function Get(w: World, id: Id): (World, Reply<App>) {
    (Served(w, w.dir, GetCall(id)),
     if Upcoming(w.script) != Clean then Failed else if Has(w.dir, id) then Ok(w.dir[id].value) else NotFound)
  }

  function List(w: World): (World, Reply<seq<Item<App>>>) {
    (Served(w, w.dir, ListCall), if Upcoming(w.script) != Clean then Failed else Ok(Page(w.dir)))
  }

  /** The creation request carries no claims script. A missing header type is the server's to choose. */
  function Requested(spec: AppSpec, defaultHeader: string): App {
    App(spec.name, spec.displayName, spec.kind, spec.redirectUris, OrElse(spec.postLogoutUris, []),
        OrElse(spec.headerType, defaultHeader), spec.deviceFlow, None, spec.algorithm)
  }

  function Create(w: World, a: App): (World, Reply<Id>) {
    var landed := Upcoming(w.script) != NoEffect && !(w.unique && NameTaken(w.dir, a.name));
    (Served(w, if landed then w.dir + [Some(a)] else w.dir, CreateCall(a.name, landed)),
     if landed && Upcoming(w.script) == Clean then Ok(|w.dir|) else Failed)
  }

  function Patch(w: World, id: Id, p: AppPatch): (World, Reply<()>) {
    var landed := Upcoming(w.script) != NoEffect && Has(w.dir, id);
    (Served(w, if landed then Put(w.dir, id, Patched(w.dir[id].value, p)) else w.dir, PatchCall(id, p, landed)),
     if Upcoming(w.script) != Clean then Failed else if landed then Ok(()) else NotFound)
  }

  // ---------------------------------------------------------------- the pass

  datatype Pass = Pass(w: World, stored: StoredId, failure: Option<string>)

  function CreateStep(w: World, spec: AppSpec, stored: StoredId, defaultHeader: string): Pass {
    var (w1, created) := Create(w, Requested(spec, defaultHeader));
    if created.Ok? then Pass(w1, Issued(created.value), None) else Pass(w1, stored, Some("CreateFailed"))
  }

  /** An unparsable id goes straight to creation; so does an id the server no longer knows, without
      another search by name. */
  function SyncStep(w: World, spec: AppSpec, stored: StoredId, defaultHeader: string): Pass {
    if stored.Issued? then
      var (w1, got) := Get(w, stored.id);
      match got
      case Failed => Pass(w1, stored, Some("GetFailed"))
      case NotFound => CreateStep(w1, spec, Empty, defaultHeader)
      case Ok(existing) =>
        var diff := Diff(existing, spec);
        if diff.None? then Pass(w1, stored, None)
        else
          var (w2, done) := Patch(w1, stored.id, diff.value);
          Pass(w2, stored, if done.Ok? then None else Some("PatchFailed"))
    else CreateStep(w, spec, stored, defaultHeader)
  }

  function AppPass(w: World, spec: AppSpec, stored: StoredId, defaultHeader: string): Pass {
    if stored == Empty then
      var (w1, listed) := List(w);
      if !listed.Ok? then Pass(w1, stored, Some("ListFailed"))
      else
        var found := FirstMatch(listed.value, Named(spec.name));
        SyncStep(w1, spec, if found.Some? then Issued(found.value) else Empty, defaultHeader)
    else SyncStep(w, spec, stored, defaultHeader)
  }

  function NextStatus(p: Pass, s: Status, detail: string, now: int): Status {
    var t := s.(id := p.stored);
    if p.failure.None? then Conclude(t, true, "Synced", "Application synced", now)
    else Conclude(t, false, p.failure.value, detail, now)
  }
}

/** The same pass as it runs. */
module ApplicationController {
  import opened Prelude
  import opened Remote
  import opened StatusPatch
  import M = ApplicationModel

  class ApplicationClient {
    const unique: bool
    const defaultHeader: string
    var dir: Registry<M.App>
    var script: seq<Fault>
    var calls: seq<M.Call>

    constructor (w: M.World, defaultHeader: string)
      ensures View() == w && this.defaultHeader == defaultHeader
    {
      this.defaultHeader := defaultHeader;
      unique, dir, script, calls := w.unique, w.dir, w.script, w.calls;
    }

    function View(): M.World
      reads this
    {
      Server(dir, unique, script, calls)
    }

    method Begin(c: M.Call) returns (fault: Fault)
      modifies this
      ensures fault == Upcoming(old(script)) && View() == Served(old(View()), old(dir), c)
    {
      fault := Clean;
      calls := calls + [c];
      if script != [] {
        fault := script[0];
        script := script[1..];
      }
    }

    method Get(id: Id) returns (reply: Reply<M.App>)
      modifies this
      ensures (View(), reply) == M.Get(old(View()), id)
    {
      var fault := Begin(M.GetCall(id));
      reply := if fault != Clean then Failed else if Has(dir, id) then Ok(dir[id].value) else NotFound;
    }

    method List() returns (reply: Reply<seq<Item<M.App>>>)
      modifies this
      ensures (View(), reply) == M.List(old(View()))
    {
      var fault := Begin(M.ListCall);
      reply := if fault != Clean then Failed else Ok(Page(dir));
    }

    method Create(a: M.App) returns (reply: Reply<Id>)
      modifies this
      ensures (View(), reply) == M.Create(old(View()), a)
    {
      var landed := Upcoming(script) != NoEffect && !(unique && M.NameTaken(dir, a.name));
      var fault := Begin(M.CreateCall(a.name, landed));
      reply := if landed && fault == Clean then Ok(|dir|) else Failed;
      if landed {
        dir := dir + [Some(a)];
      }
    }

    method Patch(id: Id, p: M.AppPatch) returns (reply: Reply<()>)
      modifies this
      ensures (View(), reply) == M.Patch(old(View()), id, p)
    {
      var landed := Upcoming(script) != NoEffect && Has(dir, id);
      var fault := Begin(M.PatchCall(id, p, landed));
      if landed {
        dir := Put(dir, id, M.Patched(dir[id].value, p));
      }
      reply := if fault != Clean then Failed else if landed then Ok(()) else NotFound;
    }
  }

  /** Assembles the patch field by field. */
  method BuildApplicationPatch(existing: M.App, spec: M.AppSpec) returns (result: Option<M.AppPatch>)
    ensures result == M.Diff(existing, spec)
  {
    var patch, needsPatch := M.EMPTY_PATCH, false;
    ghost var whole := M.PatchFor(existing, spec);
    if existing.displayName != spec.displayName {
      patch, needsPatch := patch.(displayName := Some(spec.displayName)), true;
    }
    if existing.deviceFlow != spec.deviceFlow {
      patch, needsPatch := patch.(deviceFlow := Some(spec.deviceFlow)), true;
    }
    if spec.claimsScript.Some? && (existing.claimsScript.None? || existing.claimsScript.value != spec.claimsScript.value) {
      patch, needsPatch := patch.(claimsScript := spec.claimsScript), true;
    }
    assert patch == M.EMPTY_PATCH.(displayName := whole.displayName, deviceFlow := whole.deviceFlow, claimsScript := whole.claimsScript);
    assert needsPatch == (patch != M.EMPTY_PATCH);
    if existing.redirectUris != spec.redirectUris {
      patch, needsPatch := patch.(redirectUris := Some(spec.redirectUris)), true;
    }
    if existing.postLogoutUris != OrElse(spec.postLogoutUris, []) {
      patch, needsPatch := patch.(postLogoutUris := spec.postLogoutUris), true;
    }
    var desiredHeader := "";
    if spec.headerType.Some? {
      desiredHeader := spec.headerType.value;
    }
    if desiredHeader != "" && existing.headerType != desiredHeader {
      patch, needsPatch := patch.(headerType := spec.headerType), true;
    }
    var existingAlg, desiredAlg := "", "";
    if existing.algorithm.Some? {
      existingAlg := existing.algorithm.value;
    }
    if spec.algorithm.Some? {
      desiredAlg := spec.algorithm.value;
    }
    if desiredAlg != existingAlg {
      patch, needsPatch := patch.(algorithm := spec.algorithm), true;
    }
    result := if needsPatch then Some(patch) else None;
  }

  /** The remote part of a pass. */
  method Sync(ac: ApplicationClient, app: Resource<M.AppSpec>) returns (failure: Option<string>)
    modifies ac, app`id
    ensures M.Pass(ac.View(), app.id, failure) == M.AppPass(old(ac.View()), app.spec, old(app.id), ac.defaultHeader)
  {
    if app.id == Empty {
      var listed := ac.List();
      if !listed.Ok? {
        return Some("ListFailed");
      }
      var page := listed.value;
      var i := 0;
      while i < |page|
        invariant 0 <= i <= |page|
        invariant app.id == Empty
        invariant FirstMatch(page, M.Named(app.spec.name)) == FirstMatch(page[i..], M.Named(app.spec.name))
      {
        assert page[i..][1..] == page[i + 1..];
        if page[i].value.name == app.spec.name {
          app.id := Issued(page[i].id);
          break;
        }
        i := i + 1;
      }
    }
    failure := SyncOrCreate(ac, app);
  }

  method SyncOrCreate(ac: ApplicationClient, app: Resource<M.AppSpec>) returns (failure: Option<string>)
    modifies ac, app`id
    ensures M.Pass(ac.View(), app.id, failure) == M.SyncStep(old(ac.View()), app.spec, old(app.id), ac.defaultHeader)
  {
    if app.id.Issued? {
      var id := app.id.id;
      var got := ac.Get(id);
      if got.Failed? {
        return Some("GetFailed");
      }
      if got.Ok? {
        var patch := BuildApplicationPatch(got.value, app.spec);
        if patch.Some? {
          var done := ac.Patch(id, patch.value);
          if !done.Ok? {
            return Some("PatchFailed");
          }
        }
        return None;
      }
      app.id := Empty;
    }
    var created := ac.Create(M.Requested(app.spec, ac.defaultHeader));
    if !created.Ok? {
      return Some("CreateFailed");
    }
    app.id := Issued(created.value);
    return None;
  }

  /** One pass. `blocked` is the reason the readiness gates gave, if any. */
  method Reconcile(ac: ApplicationClient, app: Resource<M.AppSpec>, sp: StatusPatcher<M.AppSpec>, blocked: Option<string>,
                   detail: string, now: int, fault: Fault)
    returns (result: Result)
    requires sp.resource == app
    modifies ac, app, sp.server
    ensures blocked.Some? ==>
              && ac.View() == old(ac.View())
              && app.View() == Conclude(old(app.View()), false, blocked.value, detail, now)
    ensures blocked.None? ==>
              var p := M.AppPass(old(ac.View()), app.spec, old(app.id), ac.defaultHeader);
              ac.View() == p.w && app.View() == M.NextStatus(p, old(app.View()), detail, now)
    ensures sp.server.document
            == Written(old(sp.server.document), app.manifest, sp.base, app.View(), app.idField, fault)
    ensures result == if fault.Clean? then RequeueAfter else Error
  {
    if blocked.Some? {
      result := sp.SetNotReady(blocked.value, detail, now, fault);
      return;
    }
    var failure := Sync(ac, app);
    if failure.Some? {
      result := sp.SetNotReady(failure.value, detail, now, fault);
    } else {
      result := sp.SetReady("Synced", "Application synced", now, fault);
    }
  }
}

/** What the diff means, and how many passes an application takes. */
module ApplicationProperties {
  import opened Prelude
  import opened Remote
  import opened StatusPatch
  import opened ApplicationModel
  import MergePatch

  /** The application agrees with the spec on everything the spec declares and the server can patch. */
  predicate Agrees(a: App, spec: AppSpec) {
    && a.displayName == spec.displayName
    && a.deviceFlow == spec.deviceFlow
    && a.redirectUris == spec.redirectUris
    && (spec.claimsScript.Some? ==> a.claimsScript == spec.claimsScript)
    && (spec.postLogoutUris.Some? ==> a.postLogoutUris == spec.postLogoutUris.value)
    && (spec.headerType.Some? && spec.headerType.value != "" ==> a.headerType == spec.headerType.value)
    && (spec.algorithm.Some? ==> OrElse(a.algorithm, "") == spec.algorithm.value)
  }

  /** There is nothing to send exactly when the application agrees and no clearing is asked for. */
  lemma DiffIsNilIff(a: App, spec: AppSpec)
    ensures Diff(a, spec).None? <==> Agrees(a, spec) && !Clearing(a, spec)
  {
  }

  /** Applying the diff always brings agreement, keeps what the spec does not declare, and carries a field
      only where the application differs. */
  lemma DiffIsSufficientAndMinimal(a: App, spec: AppSpec)
    requires Diff(a, spec).Some?
    ensures var p := Diff(a, spec).value;
            var b := Patched(a, p);
            && Agrees(b, spec)
            && b.name == a.name && b.kind == a.kind
            && (spec.claimsScript.None? ==> b.claimsScript == a.claimsScript)
            && (OrElse(spec.headerType, "") == "" ==> b.headerType == a.headerType)
            && (spec.postLogoutUris.None? ==> b.postLogoutUris == a.postLogoutUris)
            && (spec.algorithm.None? ==> b.algorithm == a.algorithm)
            && (p.displayName.Some? ==> b.displayName != a.displayName)
            && (p.deviceFlow.Some? ==> b.deviceFlow != a.deviceFlow)
            && (p.claimsScript.Some? ==> b.claimsScript != a.claimsScript)
            && (p.redirectUris.Some? ==> b.redirectUris != a.redirectUris)
            && (p.postLogoutUris.Some? ==> b.postLogoutUris != a.postLogoutUris)
            && (p.headerType.Some? ==> b.headerType != a.headerType)
            && (p.algorithm.Some? ==> b.algorithm != a.algorithm)
  {
  }

  /** Fixed point: after its own patch the diff is nil exactly when the spec does not clear a signing
      algorithm or a post-logout list the application has; otherwise the same empty request is sent for ever. */
  lemma FixedPointIff(a: App, spec: AppSpec)
    ensures var b := if Diff(a, spec).Some? then Patched(a, Diff(a, spec).value) else a;
            && Clearing(b, spec) == Clearing(a, spec)
            && (Diff(b, spec).None? <==> !Clearing(a, spec))
            && (Clearing(a, spec) ==> Diff(b, spec) == Some(EMPTY_PATCH) && Patched(b, EMPTY_PATCH) == b)
  {
    DiffIsNilIff(a, spec);
    if Diff(a, spec).Some? {
      DiffIsSufficientAndMinimal(a, spec);
    }
  }

  /** The stored id names an application that agrees with the spec. */
  predicate Converged(dir: Registry<App>, spec: AppSpec, stored: StoredId) {
    stored.Issued? && Has(dir, stored.id) && Agrees(dir[stored.id].value, spec)
  }

  lemma StoredAppPass(w: World, spec: AppSpec, stored: StoredId, header: string)
    requires w.script == [] && stored.Issued? && Has(w.dir, stored.id)
    ensures var p := AppPass(w, spec, stored, header);
            && p.failure.None? && p.stored == stored && p.w.script == [] && p.w.unique == w.unique
            && Converged(p.w.dir, spec, stored)
            && Clearing(p.w.dir[stored.id].value, spec) == Clearing(w.dir[stored.id].value, spec)
            && |p.w.dir| == |w.dir|
            && p.w.dir[stored.id].value.name == w.dir[stored.id].value.name
            && p.w.dir[stored.id].value.kind == w.dir[stored.id].value.kind
  {
    var a := w.dir[stored.id].value;
    DiffIsNilIff(a, spec);
    FixedPointIff(a, spec);
    if Diff(a, spec).Some? {
      DiffIsSufficientAndMinimal(a, spec);
    }
  }

  /** A search by name misses exactly what is not there or lies beyond a full page. */
  lemma SearchMissesIff(dir: Registry<App>, name: string)
    ensures FirstMatch(Page(dir), Named(name)).None? <==> !NameTaken(dir, name) || BeyondPage(dir, Named(name))
    ensures BeyondPage(dir, Named(name)) ==> NameTaken(dir, name)
  {
    MissedIff(dir, Named(name));
    forall i: nat | Has(dir, i) && dir[i].value.name == name ensures NameTaken(dir, name) && Named(name)(dir[i].value) {
      assert 0 <= i < |dir|;
    }
    if NameTaken(dir, name) {
      var i :| 0 <= i < |dir| && dir[i].Some? && dir[i].value.name == name;
      assert Has(dir, i) && Named(name)(dir[i].value);
    }
  }

  /** A pass that starts without a stored id finds a listed application and brings it into agreement; or
      creates one, which agrees with the spec exactly if the spec has no claims script; or is refused. */
  lemma UnstoredAppPass(w: World, spec: AppSpec, header: string)
    requires w.script == []
    ensures var p := AppPass(w, spec, Empty, header);
            var missed := !NameTaken(w.dir, spec.name) || BeyondPage(w.dir, Named(spec.name));
            && p.w.script == [] && p.w.unique == w.unique
            && (p.failure.None? ==>
                  && p.stored.Issued? && Has(p.w.dir, p.stored.id) && p.w.dir[p.stored.id].value.name == spec.name)
            && (!missed ==> p.failure.None? && Converged(p.w.dir, spec, p.stored) && |p.w.dir| == |w.dir|)
            && (missed && !(w.unique && NameTaken(w.dir, spec.name)) ==>
                  && p.failure.None? && p.w.dir == w.dir + [Some(Requested(spec, header))]
                  && (Converged(p.w.dir, spec, p.stored) <==> spec.claimsScript.None?)
                  && !Clearing(p.w.dir[p.stored.id].value, spec)
                  && p.w.dir[p.stored.id].value.kind == spec.kind)
            && (missed && w.unique && NameTaken(w.dir, spec.name) ==>
                  p.failure == Some("CreateFailed") && p.stored == Empty && p.w.dir == w.dir)
  {
    SearchMissesIff(w.dir, spec.name);
    var w1 := List(w).0;
    var found := FirstMatch(Page(w.dir), Named(spec.name));
    SearchPage(w.dir, 0, PAGE_SIZE, Named(spec.name));
    if found.Some? {
      StoredAppPass(w1, spec, Issued(found.value), header);
      assert AppPass(w, spec, Empty, header) == SyncStep(w1, spec, Issued(found.value), header);
    } else {
      assert AppPass(w, spec, Empty, header) == CreateStep(w1, spec, Empty, header);
    }
  }

  /** The stored application is gone. A server that refuses duplicate names then refuses the creation if
      the name is taken, and the pass fails with the id cleared. */
  lemma GoneAppPass(w: World, spec: AppSpec, stored: StoredId, header: string)
    requires w.script == [] && stored.Issued? && !Has(w.dir, stored.id)
    ensures var p := AppPass(w, spec, stored, header);
            && p.w.script == [] && p.w.unique == w.unique
            && (w.unique && NameTaken(w.dir, spec.name) ==> p.failure == Some("CreateFailed") && p.stored == Empty && p.w.dir == w.dir)
            && (!(w.unique && NameTaken(w.dir, spec.name)) ==>
                  && p.failure.None? && p.stored == Issued(|w.dir|)
                  && p.w.dir == w.dir + [Some(Requested(spec, header))])
  {
  }

  predicate Live(dir: Registry<App>, stored: StoredId) {
    stored.Issued? && Has(dir, stored.id)
  }

  /** The server refuses the name to a reconciler that cannot see who has it: because of a full page before it,
      or because an unparsable id keeps the reconciler from looking. */
  ghost predicate Stuck(w: World, spec: AppSpec, stored: StoredId) {
    && w.unique && NameTaken(w.dir, spec.name) && !Live(w.dir, stored)
    && (stored.Plain? || BeyondPage(w.dir, Named(spec.name)))
  }

  /** From any remote state, however many applications there are, and any stored id, two clean passes
      converge, unless the reconciler is stuck: then nothing changes, in any number of passes. */
  lemma AppConvergesInTwoIff(w: World, spec: AppSpec, stored: StoredId, header: string)
    requires w.script == []
    ensures var one := AppPass(w, spec, stored, header);
            var two := AppPass(one.w, spec, one.stored, header);
            (two.failure.None? && Converged(two.w.dir, spec, two.stored)) <==> !Stuck(w, spec, stored)
    ensures var one := AppPass(w, spec, stored, header);
            Stuck(w, spec, stored) ==> one.failure == Some("CreateFailed") && one.w.dir == w.dir && Stuck(one.w, spec, one.stored)
  {
    var one := AppPass(w, spec, stored, header);
    if Live(w.dir, stored) {
      StoredAppPass(w, spec, stored, header);
    } else {
      match stored {
        case Empty => UnstoredAppPass(w, spec, header);
        case Plain(_) => UnparsableIdRecoversIff(w, spec, stored, header);
        case Issued(_) => GoneAppPass(w, spec, stored, header);
      }
    }
    if one.failure.None? {
      StoredAppPass(one.w, spec, one.stored, header);
    } else if one.stored == Empty {
      UnstoredAppPass(one.w, spec, header);
    } else {
      UnparsableIdRecoversIff(one.w, spec, one.stored, header);
    }
  }

  /** Where the applications fit a page, any empty or server id converges. */
  lemma AppConvergesInTwo(w: World, spec: AppSpec, stored: StoredId, header: string)
    requires w.script == [] && FitsPage(w.dir) && !stored.Plain?
    ensures var one := AppPass(w, spec, stored, header);
            var two := AppPass(one.w, spec, one.stored, header);
            two.failure.None? && Converged(two.w.dir, spec, two.stored)
  {
    FitsMeansListed(w.dir, Named(spec.name));
    AppConvergesInTwoIff(w, spec, stored, header);
  }

  /** Every application keeps its name and kind, and at most one of these is added. */
  ghost predicate NamesStay(dir: Registry<App>, after: Registry<App>, name: string, kind: string) {
    && |dir| <= |after| <= |dir| + 1
    && (forall i: nat | Has(dir, i) ::
          Has(after, i) && after[i].value.name == dir[i].value.name && after[i].value.kind == dir[i].value.kind)
    && (|after| > |dir| ==> Has(after, |dir|) && after[|dir|].value.name == name && after[|dir|].value.kind == kind)
  }

  lemma CreateStays(w: World, spec: AppSpec, stored: StoredId, header: string)
    ensures NamesStay(w.dir, CreateStep(w, spec, stored, header).w.dir, spec.name, spec.kind)
  {
  }

  lemma PatchStays(w: World, id: Id, p: AppPatch, spec: AppSpec)
    ensures NamesStay(w.dir, Patch(w, id, p).0.dir, spec.name, spec.kind)
  {
  }

  lemma SyncStays(w: World, spec: AppSpec, stored: StoredId, header: string)
    ensures NamesStay(w.dir, SyncStep(w, spec, stored, header).w.dir, spec.name, spec.kind)
  {
    assert NamesStay(w.dir, w.dir, spec.name, spec.kind);
    hide NamesStay;
    if stored.Issued? {
      var (w1, got) := Get(w, stored.id);
      match got {
        case Failed =>
        case NotFound => CreateStays(w1, spec, Empty, header);
        case Ok(existing) =>
          var diff := Diff(existing, spec);
          if diff.Some? { PatchStays(w1, stored.id, diff.value, spec); }
      }
    } else {
      CreateStays(w, spec, stored, header);
    }
  }

  /** Name and kind of an application are never changed, whatever fails; an application that a pass creates has
      those of the spec. */
  lemma NameAndKindStay(w: World, spec: AppSpec, stored: StoredId, header: string)
    ensures NamesStay(w.dir, AppPass(w, spec, stored, header).w.dir, spec.name, spec.kind)
  {
    assert NamesStay(w.dir, w.dir, spec.name, spec.kind);
    hide NamesStay, SyncStep;
    if stored == Empty {
      var (w1, listed) := List(w);
      if listed.Ok? {
        var found := FirstMatch(listed.value, Named(spec.name));
        SyncStays(w1, spec, if found.Some? then Issued(found.value) else Empty, header);
      }
    } else {
      SyncStays(w, spec, stored, header);
    }
  }

  /** So a convergent reconciler agrees with the spec on the name too exactly if the application it started from,
      if any, had that name: a stored application is never given another. */
  lemma NameAgreesIff(w: World, spec: AppSpec, stored: StoredId, header: string)
    requires w.script == [] && !Stuck(w, spec, stored)
    ensures var one := AppPass(w, spec, stored, header);
            var two := AppPass(one.w, spec, one.stored, header);
            && Live(two.w.dir, two.stored)
            && (two.w.dir[two.stored.id].value.name == spec.name
                <==> (Live(w.dir, stored) ==> w.dir[stored.id].value.name == spec.name))
  {
    var one := AppPass(w, spec, stored, header);
    AppConvergesInTwoIff(w, spec, stored, header);
    if Live(w.dir, stored) {
      StoredAppPass(w, spec, stored, header);
    } else {
      match stored {
        case Empty => UnstoredAppPass(w, spec, header);
        case Plain(_) => UnparsableIdRecoversIff(w, spec, stored, header);
        case Issued(_) => GoneAppPass(w, spec, stored, header);
      }
    }
    if one.failure.None? {
      StoredAppPass(one.w, spec, one.stored, header);
    } else {
      UnstoredAppPass(one.w, spec, header);
    }
  }

  lemma ConvergedIsQuietIff(w: World, spec: AppSpec, stored: StoredId, header: string)
    requires w.script == [] && Converged(w.dir, spec, stored)
    ensures var p := AppPass(w, spec, stored, header);
            && p.failure.None? && p.stored == stored && p.w.dir == w.dir && p.w.script == []
            && (p.w.calls == w.calls + [GetCall(stored.id)] <==> !Clearing(w.dir[stored.id].value, spec))
  {
    var a := w.dir[stored.id].value;
    DiffIsNilIff(a, spec);
    if Diff(a, spec).Some? {
      assert PatchFor(a, spec) == EMPTY_PATCH;
      assert Patched(a, EMPTY_PATCH) == a;
      assert Put(w.dir, stored.id, a) == w.dir;
      var p := AppPass(w, spec, stored, header);
      assert |p.w.calls| == |w.calls| + 2;
    }
  }

  /** Once converged, a clean pass at any later time leaves server and status alone and its status patch is
      empty. */
  lemma AppQuiescence(w: World, spec: AppSpec, s: Status, header: string, detail: string, now: int,
                      again: World, detail': string, later: int, manifest: Doc, idField: string)
    requires AppPass(w, spec, s.id, header).failure.None?
    requires again.script == [] && again.dir == AppPass(w, spec, s.id, header).w.dir
    requires Converged(again.dir, spec, AppPass(w, spec, s.id, header).stored)
    ensures var s1 := NextStatus(AppPass(w, spec, s.id, header), s, detail, now);
            var p := AppPass(again, spec, s1.id, header);
            var s2 := NextStatus(p, s1, detail', later);
            && p.w.dir == again.dir && s2 == s1 && IsReady(s1)
            && MergePatch.Diff(Document(manifest, s1, idField), Document(manifest, s2, idField)) == MergePatch.Obj(map[])
  {
    var p := AppPass(w, spec, s.id, header);
    ConcludeAgain(s.(id := p.stored), true, "Synced", "Application synced", now, later, manifest, idField);
    ConvergedIsQuietIff(again, spec, p.stored, header);
    var s1 := NextStatus(p, s, detail, now);
    assert s1.(id := s1.id) == s1;
  }

  function ReasonOf(c: Call): string {
    match c
    case GetCall(_) => "GetFailed"
    case ListCall => "ListFailed"
    case CreateCall(_, _) => "CreateFailed"
    case PatchCall(_, _, _) => "PatchFailed"
  }

  /** The pass stopped at its first failing call, of which the reason is the name. */
  ghost predicate Verdict(w: World, p: Pass) {
    && StopsAtFailure(w.script, |p.w.calls| - |w.calls|, p.failure.Some?)
    && (p.failure.Some? ==> p.failure.value == ReasonOf(p.w.calls[|p.w.calls| - 1]))
  }

  lemma CreateVerdict(w: World, spec: AppSpec, stored: StoredId, header: string)
    ensures Verdict(w, CreateStep(w, spec, stored, header))
  {
  }

  lemma SyncVerdict(w: World, spec: AppSpec, stored: StoredId, header: string)
    ensures Verdict(w, SyncStep(w, spec, stored, header))
  {
    if stored.Issued? {
      var (w1, got) := Get(w, stored.id);
      if got.NotFound? {
        CreateVerdict(w1, spec, Empty, header);
        var p := CreateStep(w1, spec, Empty, header);
        StopsOneLater(w.script, |p.w.calls| - |w1.calls|, p.failure.Some?);
      }
    } else {
      CreateVerdict(w, spec, stored, header);
    }
  }

  /** A pass stops at the first call that fails, in any world: so success means that no call failed, and a
      failure names the kind of the last call. */
  lemma VerdictNamesTheCall(w: World, spec: AppSpec, stored: StoredId, header: string)
    ensures Verdict(w, AppPass(w, spec, stored, header))
  {
    if stored == Empty {
      var (w1, listed) := List(w);
      if listed.Ok? {
        var found := FirstMatch(listed.value, Named(spec.name));
        var id := if found.Some? then Issued(found.value) else Empty;
        SyncVerdict(w1, spec, id, header);
        var p := SyncStep(w1, spec, id, header);
        assert AppPass(w, spec, stored, header) == p;
        StopsOneLater(w.script, |p.w.calls| - |w1.calls|, p.failure.Some?);
      }
    } else {
      SyncVerdict(w, spec, stored, header);
    }
  }

  /** What is stored after a failure: the id is cleared if it was found gone, an id found by name is kept though
      its application could not be synced, and else nothing changes. */
  lemma FailureStores(w: World, spec: AppSpec, stored: StoredId, header: string)
    requires AppPass(w, spec, stored, header).failure.Some?
    ensures var p := AppPass(w, spec, stored, header);
            && (stored.Plain? ==> p.stored == stored)
            && (stored.Issued? ==> p.stored == if Get(w, stored.id).1.NotFound? then Empty else stored)
            && (stored == Empty && p.stored != Empty ==>
                  Live(w.dir, p.stored) && w.dir[p.stored.id].value.name == spec.name)
  {
    SearchPage(w.dir, 0, PAGE_SIZE, Named(spec.name));
  }

  /** Success under any failures before and after: the stored application agrees with the spec; or it was
      created with everything the spec declares but the claims script. */
  lemma SuccessMeans(w: World, spec: AppSpec, stored: StoredId, header: string)
    requires AppPass(w, spec, stored, header).failure.None?
    ensures var p := AppPass(w, spec, stored, header);
            || (Converged(p.w.dir, spec, p.stored) && |p.w.dir| == |w.dir|)
            || (&& p.stored == Issued(|w.dir|) && |p.w.dir| == |w.dir| + 1 && p.w.dir[..|w.dir|] == w.dir
                && p.w.dir[|w.dir|].Some?
                && var a := p.w.dir[|w.dir|].value;
                   && a.name == spec.name && a.kind == spec.kind && a.claimsScript.None?
                   && a.headerType == (if spec.headerType.Some? then spec.headerType.value else header)
                   && Agrees(a, spec.(claimsScript := None)))
  {
    SearchPage(w.dir, 0, PAGE_SIZE, Named(spec.name));
    var found := FirstMatch(Page(w.dir), Named(spec.name));
    if stored == Empty {
      SyncSuccess(List(w).0, spec, if found.Some? then Issued(found.value) else Empty, header);
    } else {
      SyncSuccess(w, spec, stored, header);
    }
  }

  lemma SyncSuccess(w: World, spec: AppSpec, stored: StoredId, header: string)
    requires SyncStep(w, spec, stored, header).failure.None?
    ensures var p := SyncStep(w, spec, stored, header);
            || (Converged(p.w.dir, spec, p.stored) && |p.w.dir| == |w.dir|)
            || (p.stored == Issued(|w.dir|) && p.w.dir == w.dir + [Some(Requested(spec, header))])
  {
    if Live(w.dir, stored) {
      var a := w.dir[stored.id].value;
      DiffIsNilIff(a, spec);
      if Diff(a, spec).Some? {
        DiffIsSufficientAndMinimal(a, spec);
      }
    }
  }

  /** An unparsable stored id is never searched past: a clean pass gets out of it exactly when the server
      accepts another application of that name; otherwise it fails the same way for ever. */
  lemma UnparsableIdRecoversIff(w: World, spec: AppSpec, stored: StoredId, header: string)
    requires w.script == [] && stored.Plain?
    ensures var p := AppPass(w, spec, stored, header);
            && (p.failure.None? <==> !(w.unique && NameTaken(w.dir, spec.name)))
            && (p.failure.None? ==> p.stored == Issued(|w.dir|) && p.w.dir == w.dir + [Some(Requested(spec, header))])
            && p.w.script == [] && p.w.unique == w.unique
            && (p.failure.Some? ==> p.failure == Some("CreateFailed") && p.stored == stored && p.w.dir == w.dir)
  {
  }

  /** A clean pass creates a second application of a taken name exactly when the server does not refuse it and
      the pass cannot find the first: a stored id that leads nowhere is not followed by a search, and a
      search does not see past a full page. */
  lemma SecondAppIff(w: World, spec: AppSpec, stored: StoredId, header: string)
    requires w.script == [] && NameTaken(w.dir, spec.name)
    ensures |AppPass(w, spec, stored, header).w.dir| > |w.dir|
            <==> !w.unique && !Live(w.dir, stored) && (stored == Empty ==> BeyondPage(w.dir, Named(spec.name)))
  {
    if stored == Empty {
      UnstoredAppPass(w, spec, header);
    } else if Live(w.dir, stored) {
      StoredAppPass(w, spec, stored, header);
    }
  }

  /** Every pass keeps, clears or replaces the stored id by an issued one; Ready implies an issued id. */
  lemma StoredIdShape(w: World, spec: AppSpec, stored: StoredId, header: string)
    ensures var p := AppPass(w, spec, stored, header);
            && (p.stored == stored || p.stored == Empty || p.stored.Issued?)
            && (p.failure.None? ==> p.stored.Issued?)
  {
  }
}
