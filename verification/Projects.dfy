/** The project reconciler (internal/controller/keylineproject_controller.go): get by slug, else create. */
module ProjectModel {
  import opened Prelude
  import opened Remote
  import opened StatusPatch

  datatype ProjectSpec = ProjectSpec(slug: string, name: string, description: Option<string>)
  datatype Project = Project(name: string, description: string)

  datatype Call = GetCall(slug: string) | CreateCall(slug: string, landed: bool)

  /** Slugs are the server's keys; it refuses to create one twice. */
  datatype World = World(projects: map<string, Project>, script: seq<Fault>, calls: seq<Call>)

  function Served(w: World, projects: map<string, Project>, c: Call): World {
    World(projects, Remaining(w.script), w.calls + [c])
  }

  function Get(w: World, slug: string): (World, Reply<()>) {
    (Served(w, w.projects, GetCall(slug)),
     if Upcoming(w.script) != Clean then Failed else if slug in w.projects then Ok(()) else NotFound)
  }

  function Create(w: World, slug: string, p: Project): (World, Reply<()>) {
    var landed := Upcoming(w.script) != NoEffect && slug !in w.projects;
    (Served(w, if landed then w.projects[slug := p] else w.projects, CreateCall(slug, landed)),
     if landed && Upcoming(w.script) == Clean then Ok(()) else Failed)
  }

  function Wanted(spec: ProjectSpec): Project {
    Project(spec.name, if spec.description.Some? then spec.description.value else "")
  }

  datatype Pass = Pass(w: World, failure: Option<string>)

  function ProjectPass(w: World, spec: ProjectSpec): Pass {
    var (w1, got) := Get(w, spec.slug);
    match got
    case Ok(_) => Pass(w1, None)
    case Failed => Pass(w1, Some("GetFailed"))
    case NotFound =>
      var (w2, created) := Create(w1, spec.slug, Wanted(spec));
      Pass(w2, if created.Ok? then None else Some("CreateFailed"))
  }

  function NextStatus(p: Pass, s: Status, detail: string, now: int): Status {
    if p.failure.None? then Conclude(s, true, "Synced", "Project exists in Keyline", now)
    else Conclude(s, false, p.failure.value, detail, now)
  }
}

/** The same pass as it runs. */
module ProjectController {
  import opened Prelude
  import opened Remote
  import opened StatusPatch
  import M = ProjectModel

  class ProjectClient {
    var projects: map<string, M.Project>
    var script: seq<Fault>
    var calls: seq<M.Call>

    constructor (w: M.World)
      ensures View() == w
    {
      projects, script, calls := w.projects, w.script, w.calls;
    }

    function View(): M.World
      reads this
    {
      M.World(projects, script, calls)
    }

    method Begin(c: M.Call) returns (fault: Fault)
      modifies this
      ensures fault == Upcoming(old(script)) && View() == M.Served(old(View()), old(projects), c)
    {
      fault := Clean;
      calls := calls + [c];
      if script != [] {
        fault := script[0];
        script := script[1..];
      }
    }

    method Get(slug: string) returns (reply: Reply<()>)
      modifies this
      ensures (View(), reply) == M.Get(old(View()), slug)
    {
      var fault := Begin(M.GetCall(slug));
      reply := if fault != Clean then Failed else if slug in projects then Ok(()) else NotFound;
    }

    method Create(slug: string, p: M.Project) returns (reply: Reply<()>)
      modifies this
      ensures (View(), reply) == M.Create(old(View()), slug, p)
    {
      var landed := Upcoming(script) != NoEffect && slug !in projects;
      var fault := Begin(M.CreateCall(slug, landed));
      if landed {
        projects := projects[slug := p];
      }
      reply := if landed && fault == Clean then Ok(()) else Failed;
    }
  }

  /** One pass. `blocked` is the reason the readiness gates gave, if any. */
  method Reconcile(kc: ProjectClient, proj: Resource<M.ProjectSpec>, sp: StatusPatcher<M.ProjectSpec>, blocked: Option<string>,
                   detail: string, now: int, fault: Fault)
    returns (result: Result)
    requires sp.resource == proj
    modifies kc, proj, sp.server
    ensures blocked.Some? ==>
              && kc.View() == old(kc.View())
              && proj.View() == Conclude(old(proj.View()), false, blocked.value, detail, now)
    ensures blocked.None? ==>
              var p := M.ProjectPass(old(kc.View()), proj.spec);
              kc.View() == p.w && proj.View() == M.NextStatus(p, old(proj.View()), detail, now)
    ensures sp.server.document
            == Written(old(sp.server.document), proj.manifest, sp.base, proj.View(), proj.idField, fault)
    ensures result == if fault.Clean? then RequeueAfter else Error
  {
    if blocked.Some? {
      result := sp.SetNotReady(blocked.value, detail, now, fault);
      return;
    }
    var got := kc.Get(proj.spec.slug);
    if !got.Ok? {
      if !got.NotFound? {
        result := sp.SetNotReady("GetFailed", detail, now, fault);
        return;
      }
      var description := "";
      if proj.spec.description.Some? {
        description := proj.spec.description.value;
      }
      var created := kc.Create(proj.spec.slug, M.Project(proj.spec.name, description));
      if !created.Ok? {
        result := sp.SetNotReady("CreateFailed", detail, now, fault);
        return;
      }
    }
    result := sp.SetReady("Synced", "Project exists in Keyline", now, fault);
  }
}

/** First come, first served. */
module ProjectProperties {
  import opened Prelude
  import opened Remote
  import opened StatusPatch
  import opened ProjectModel
  import MergePatch

  /** Passes of any project resources, and whatever third parties make of the projects between them. */
  datatype Attempt = For(spec: ProjectSpec, script: seq<Fault>) | ThirdParty(projects: map<string, Project>)

  function Tried(projects: map<string, Project>, a: Attempt): map<string, Project> {
    match a
    case For(spec, script) => ProjectPass(World(projects, script, []), spec).w.projects
    case ThirdParty(edited) => edited
  }

  function TriedAll(projects: map<string, Project>, many: seq<Attempt>): map<string, Project>
    decreases |many|
  {
    if many == [] then projects else TriedAll(Tried(projects, many[0]), many[1..])
  }

  /** Third parties leave this slug as it is. */
  ghost predicate Spared(projects: map<string, Project>, many: seq<Attempt>, slug: string)
    decreases |many|
  {
    many == [] ||
    var next := Tried(projects, many[0]);
    && (many[0].ThirdParty? ==> At(next, slug) == At(projects, slug))
    && Spared(next, many[1..], slug)
  }

  predicate Declares(a: Attempt, slug: string) {
    a.For? && a.spec.slug == slug
  }

  /** No pass, whatever fails, touches a project that exists, or another slug than its own. */
  lemma PassCreatesOnly(w: World, spec: ProjectSpec, slug: string)
    ensures var after := ProjectPass(w, spec).w.projects;
            && (slug in w.projects || slug != spec.slug ==> At(after, slug) == At(w.projects, slug))
            && (slug in after && slug !in w.projects ==> Agrees(after[slug], spec))
            && (w.script == [] ==> spec.slug in after)
  {
  }

  /** The outcome for one slug that third parties spare: what was there before, else what the first creation
      that landed put there. Later edits of name or description never reach the server, whichever resource
      they come from. */
  lemma {:induction false} FirstProjectStays(projects: map<string, Project>, many: seq<Attempt>, slug: string)
    requires Spared(projects, many, slug)
    ensures var after := TriedAll(projects, many);
            && (slug in projects ==> slug in after && after[slug] == projects[slug])
            && (slug in after ==> slug in projects || exists i :: 0 <= i < |many| && Declares(many[i], slug) && Agrees(after[slug], many[i].spec))
            && ((exists i :: 0 <= i < |many| && Declares(many[i], slug) && many[i].script == []) ==> slug in after)
    decreases |many|
  {
    if many != [] {
      var next, after := Tried(projects, many[0]), TriedAll(projects, many);
      if many[0].For? {
        PassCreatesOnly(World(projects, many[0].script, []), many[0].spec, slug);
      }
      assert slug in projects ==> At(next, slug) == At(projects, slug);
      FirstProjectStays(next, many[1..], slug);
      if slug in after && slug !in next {
        var i :| 0 <= i < |many[1..]| && Declares(many[1..][i], slug) && Agrees(after[slug], many[1..][i].spec);
        assert many[i + 1] == many[1..][i];
      }
      if i :| 0 <= i < |many| && Declares(many[i], slug) && many[i].script == [] {
        if i > 0 {
          assert many[1..][i - 1] == many[i];
        }
      }
    }
  }

  /** No description means empty. */
  predicate Agrees(p: Project, spec: ProjectSpec) {
    && p.name == spec.name
    && (spec.description.Some? ==> p.description == spec.description.value)
    && (spec.description.None? ==> p.description == "")
  }

  /** A pass stops at the first call that fails, in any world: so success means that no call failed and the
      project is there, and a failure names the kind of the last call. */
  lemma VerdictNamesTheCall(w: World, spec: ProjectSpec)
    ensures var p := ProjectPass(w, spec);
            && StopsAtFailure(w.script, |p.w.calls| - |w.calls|, p.failure.Some?)
            && (p.failure.Some? ==> p.failure.value == if p.w.calls[|p.w.calls| - 1].GetCall? then "GetFailed" else "CreateFailed")
            && (p.failure.None? ==> spec.slug in p.w.projects)
            && (p.failure.None? && spec.slug !in w.projects ==> Agrees(p.w.projects[spec.slug], spec))
  {
  }

  /** A clean pass always ends Ready with the project there; it agrees with the spec exactly when there was
      none or it agreed before: a difference is never corrected. */
  lemma AgreesIff(w: World, spec: ProjectSpec)
    requires w.script == []
    ensures var p := ProjectPass(w, spec);
            && p.failure.None? && spec.slug in p.w.projects
            && (Agrees(p.w.projects[spec.slug], spec) <==> spec.slug !in w.projects || Agrees(w.projects[spec.slug], spec))
            && forall slug :: slug != spec.slug ==> At(p.w.projects, slug) == At(w.projects, slug)
  {
  }

  /** After a clean pass, another one at any later time only reads, and its status patch is empty. */
  lemma ProjectQuiescence(w: World, spec: ProjectSpec, s: Status, detail: string, now: int, detail': string,
                          later: int, manifest: Doc, idField: string)
    requires w.script == []
    ensures var p := ProjectPass(w, spec);
            var s1 := NextStatus(p, s, detail, now);
            var q := ProjectPass(p.w, spec);
            var s2 := NextStatus(q, s1, detail', later);
            && q.w.projects == p.w.projects && q.w.calls == p.w.calls + [GetCall(spec.slug)]
            && s2 == s1 && IsReady(s1)
            && MergePatch.Diff(Document(manifest, s1, idField), Document(manifest, s2, idField)) == MergePatch.Obj(map[])
  {
    AgreesIff(w, spec);
    ConcludeAgain(s, true, "Synced", "Project exists in Keyline", now, later, manifest, idField);
  }
}
