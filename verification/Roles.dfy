/** The role reconciler (internal/controller/keylinerole_controller.go): probe the stored id, else find by
    name, else create. */
module RoleModel {
  import opened Prelude
  import opened Remote
  import opened StatusPatch

  datatype RoleSpec = RoleSpec(name: string, description: Option<string>)
  datatype Role = Role(name: string, description: string)

  datatype RolePatch = RolePatch(name: Option<string>, description: Option<string>)

  datatype Call =
    | GetCall(id: Id)
    | ListCall
    | CreateCall(name: string, landed: bool)
    | PatchCall(id: Id, patch: RolePatch, landed: bool)

  type World = Server<Role, Call>

  // ---------------------------------------------------------------- the server

  function Named(name: string): Role -> bool {
    (r: Role) => r.name == name
  }

  predicate NameTaken(dir: Registry<Role>, name: string, except: Option<Id>) {
    exists i | 0 <= i < |dir| :: dir[i].Some? && dir[i].value.name == name && except != Some(i)
  }

  function Get(w: World, id: Id): (World, Reply<Role>) {
    (Served(w, w.dir, GetCall(id)),
     if Upcoming(w.script) != Clean then Failed else if Has(w.dir, id) then Ok(w.dir[id].value) else NotFound)
  }

  function List(w: World): (World, Reply<seq<Item<Role>>>) {
    (Served(w, w.dir, ListCall), if Upcoming(w.script) != Clean then Failed else Ok(Page(w.dir)))
  }

  function Create(w: World, r: Role): (World, Reply<Id>) {
    var landed := Upcoming(w.script) != NoEffect && !(w.unique && NameTaken(w.dir, r.name, None));
    (Served(w, if landed then w.dir + [Some(r)] else w.dir, CreateCall(r.name, landed)),
     if landed && Upcoming(w.script) == Clean then Ok(|w.dir|) else Failed)
  }

  /** Fields that are nil in the patch are left as they are. */
  function Patched(r: Role, p: RolePatch): Role {
    Role(if p.name.Some? then p.name.value else r.name, if p.description.Some? then p.description.value else r.description)
  }

  function Patch(w: World, id: Id, p: RolePatch): (World, Reply<()>) {
    var accepted := Has(w.dir, id) && !(w.unique && p.name.Some? && NameTaken(w.dir, p.name.value, Some(id)));
    var landed := Upcoming(w.script) != NoEffect && accepted;
    (Served(w, if landed then Put(w.dir, id, Patched(w.dir[id].value, p)) else w.dir, PatchCall(id, p, landed)),
     if Upcoming(w.script) != Clean then Failed
     else if landed then Ok(())
     else if Has(w.dir, id) then Failed
     else NotFound)
  }

  // ---------------------------------------------------------------- the pass

  function Wanted(spec: RoleSpec): Role {
    Role(spec.name, if spec.description.Some? then spec.description.value else "")
  }

  function PatchFor(existing: Role, spec: RoleSpec): RolePatch {
    RolePatch(if existing.name != spec.name then Some(spec.name) else None,
              if existing.description != Wanted(spec).description then Some(Wanted(spec).description) else None)
  }

  datatype Pass = Pass(w: World, stored: StoredId, failure: Option<string>)

  /** With an unparsable stored id and no role of that name, nothing is created and the id stays. */
  function FindOrCreate(w: World, spec: RoleSpec, stored: StoredId): Pass {
    var (w1, listed) := List(w);
    if !listed.Ok? then Pass(w1, stored, Some("ListFailed"))
    else
      var found := FirstMatch(listed.value, Named(spec.name));
      if found.Some? then Pass(w1, Issued(found.value), None)
      else if stored != Empty then Pass(w1, stored, None)
      else
        var (w2, created) := Create(w1, Wanted(spec));
        if created.Ok? then Pass(w2, Issued(created.value), None) else Pass(w2, stored, Some("CreateFailed"))
  }

  function RolePass(w: World, spec: RoleSpec, stored: StoredId): Pass {
    if stored.Issued? then
      var (w1, got) := Get(w, stored.id);
      match got
      case Failed => Pass(w1, stored, Some("GetFailed"))
      case NotFound => FindOrCreate(w1, spec, Empty)
      case Ok(existing) =>
        var patch := PatchFor(existing, spec);
        if patch == RolePatch(None, None) then Pass(w1, stored, None)
        else
          var (w2, done) := Patch(w1, stored.id, patch);
          Pass(w2, stored, if done.Ok? then None else Some("PatchFailed"))
    else FindOrCreate(w, spec, stored)
  }

  /** The status written at the end of an unblocked pass. */
  function NextStatus(p: Pass, s: Status, detail: string, now: int): Status {
    var t := s.(id := p.stored);
    if p.failure.None? then Conclude(t, true, "Synced", "Role synced", now)
    else Conclude(t, false, p.failure.value, detail, now)
  }
}

/** The same pass as it runs. */
module RoleController {
  import opened Prelude
  import opened Remote
  import opened StatusPatch
  import M = RoleModel

  class RoleClient {
    const unique: bool
    var dir: Registry<M.Role>
    var script: seq<Fault>
    var calls: seq<M.Call>

    constructor (w: M.World)
      ensures View() == w
    {
      unique, dir, script, calls := w.unique, w.dir, w.script, w.calls;
    }

    function View(): M.World
      reads this
    {
      Server(dir, unique, script, calls)
    }

    method Begin(c: M.Call) returns (fault: Fault)
      modifies this
      ensures fault == Upcoming(old(script)) && View() == Served(old(View()), old(dir), c)
    {
      fault := Clean;
      calls := calls + [c];
      if script != [] {
        fault := script[0];
        script := script[1..];
      }
    }

    method Get(id: Id) returns (reply: Reply<M.Role>)
      modifies this
      ensures (View(), reply) == M.Get(old(View()), id)
    {
      var fault := Begin(M.GetCall(id));
      reply := if fault != Clean then Failed else if Has(dir, id) then Ok(dir[id].value) else NotFound;
    }

    method List() returns (reply: Reply<seq<Item<M.Role>>>)
      modifies this
      ensures (View(), reply) == M.List(old(View()))
    {
      var fault := Begin(M.ListCall);
      reply := if fault != Clean then Failed else Ok(Page(dir));
    }

    method Create(r: M.Role) returns (reply: Reply<Id>)
      modifies this
      ensures (View(), reply) == M.Create(old(View()), r)
    {
      var next := Upcoming(script);
      var landed := next != NoEffect && !(unique && M.NameTaken(dir, r.name, None));
      var fault := Begin(M.CreateCall(r.name, landed));
      reply := if landed && fault == Clean then Ok(|dir|) else Failed;
      if landed {
        dir := dir + [Some(r)];
      }
    }

    method Patch(id: Id, p: M.RolePatch) returns (reply: Reply<()>)
      modifies this
      ensures (View(), reply) == M.Patch(old(View()), id, p)
    {
      var next := Upcoming(script);
      var accepted := Has(dir, id) && !(unique && p.name.Some? && M.NameTaken(dir, p.name.value, Some(id)));
      var landed := next != NoEffect && accepted;
      var fault := Begin(M.PatchCall(id, p, landed));
      if landed {
        dir := Put(dir, id, M.Patched(dir[id].value, p));
      }
      reply := if fault != Clean then Failed else if landed then Ok(()) else if Has(dir, id) then Failed else NotFound;
    }
  }

  /** Finds the role by name in case the status was lost; creates it only without a stored id. */
  method FindOrCreate(rc: RoleClient, role: Resource<M.RoleSpec>, description: string) returns (failure: Option<string>)
    requires description == M.Wanted(role.spec).description
    modifies rc, role`id
    ensures M.Pass(rc.View(), role.id, failure) == M.FindOrCreate(old(rc.View()), role.spec, old(role.id))
  {
    var listed := rc.List();
    if !listed.Ok? {
      return Some("ListFailed");
    }
    var page := listed.value;
    var i := 0;
    while i < |page|
      invariant 0 <= i <= |page|
      invariant role.id == old(role.id)
      invariant FirstMatch(page, M.Named(role.spec.name)) == FirstMatch(page[i..], M.Named(role.spec.name))
    {
      assert page[i..][1..] == page[i + 1..];
      if page[i].value.name == role.spec.name {
        role.id := Issued(page[i].id);
        break;
      }
      i := i + 1;
    }
    if role.id == Empty {
      var created := rc.Create(M.Role(role.spec.name, description));
      if !created.Ok? {
        return Some("CreateFailed");
      }
      role.id := Issued(created.value);
    }
    return None;
  }

  /** The remote part of a pass: probe and patch the stored role, or find or create it. */
  method Sync(rc: RoleClient, role: Resource<M.RoleSpec>) returns (failure: Option<string>)
    modifies rc, role`id
    ensures M.Pass(rc.View(), role.id, failure) == M.RolePass(old(rc.View()), role.spec, old(role.id))
  {
    var description := "";
    if role.spec.description.Some? {
      description := role.spec.description.value;
    }
    if role.id.Issued? {
      var id := role.id.id;
      var got := rc.Get(id);
      if got.Failed? {
        return Some("GetFailed");
      }
      if got.Ok? {
        var patch, needsPatch := M.RolePatch(None, None), false;
        if got.value.name != role.spec.name {
          patch, needsPatch := patch.(name := Some(role.spec.name)), true;
        }
        if got.value.description != description {
          patch, needsPatch := patch.(description := Some(description)), true;
        }
        if needsPatch {
          var done := rc.Patch(id, patch);
          if !done.Ok? {
            return Some("PatchFailed");
          }
        }
        return None;
      }
      role.id := Empty;
    }
    failure := FindOrCreate(rc, role, description);
  }

  /** One pass. `blocked` is the reason the readiness gates gave, if any. */
  method Reconcile(rc: RoleClient, role: Resource<M.RoleSpec>, sp: StatusPatcher<M.RoleSpec>, blocked: Option<string>,
                   detail: string, now: int, fault: Fault)
    returns (result: Result)
    requires sp.resource == role
    modifies rc, role, sp.server
    ensures blocked.Some? ==>
              && rc.View() == old(rc.View())
              && role.View() == Conclude(old(role.View()), false, blocked.value, detail, now)
    ensures blocked.None? ==>
              var p := M.RolePass(old(rc.View()), role.spec, old(role.id));
              rc.View() == p.w && role.View() == M.NextStatus(p, old(role.View()), detail, now)
    ensures sp.server.document
            == Written(old(sp.server.document), role.manifest, sp.base, role.View(), role.idField, fault)
    ensures result == if fault.Clean? then RequeueAfter else Error
  {
    if blocked.Some? {
      result := sp.SetNotReady(blocked.value, detail, now, fault);
      return;
    }
    var failure := Sync(rc, role);
    if failure.Some? {
      result := sp.SetNotReady(failure.value, detail, now, fault);
    } else {
      result := sp.SetReady("Synced", "Role synced", now, fault);
    }
  }
}
