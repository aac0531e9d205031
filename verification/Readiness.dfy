/** The seven kinds of resources and the readiness gates at the head of every pass. */
module ReadinessModel {
  import opened Prelude
  import opened Remote
  import opened StatusPatch
  import UserModel
  import RoleModel
  import ApplicationModel
  import AssignmentModel
  import InstanceModel
  import ProjectModel
  import ServerConfig
  import VirtualServerModel

  datatype Kind = Instance | VirtualServer | Project | User | Application | Role | Assignment

  datatype Key = Key(kind: Kind, name: string)

  /** `ref` names the one resource the spec refers to; assignments refer to a role by `ref` and to a user by
      `userRef`. */
  datatype Entry = Entry(ref: string, userRef: string, status: Status)

  type Cluster = map<Key, Entry>

  function Depth(kind: Kind): nat {
    match kind
    case Instance => 0
    case VirtualServer => 1
    case Project => 2
    case User => 2
    case Application => 3
    case Role => 3
    case Assignment => 4
  }

  function ParentKind(kind: Kind): Kind {
    match kind
    case Instance => Instance
    case VirtualServer => Instance
    case Project => VirtualServer
    case User => VirtualServer
    case Application => Project
    case Role => Project
    case Assignment => Role
  }

  function Parent(c: Cluster, k: Key): Key
    requires k in c
  {
    Key(ParentKind(k.kind), c[k].ref)
  }

  /** The resources a resource refers to. */
  function Parents(c: Cluster, k: Key): set<Key>
    requires k in c
  {
    match k.kind
    case Instance => {}
    case Assignment => {Parent(c, k), Key(User, c[k].userRef)}
    case _ => {Parent(c, k)}
  }

  // ---------------------------------------------------------------- the gates

  /** What the reads of one pass can see: a read that fails looks like a missing resource. */
  datatype Sight = Sight(keys: set<Key>, secrets: set<string>)

  predicate Sees(c: Cluster, s: Sight, k: Key) {
    k in c && k in s.keys
  }

  /** The instance must exist and its credentials Secret must be readable; it need not be Ready. */
  function InstanceGate(c: Cluster, s: Sight, name: string): Option<string> {
    if !Sees(c, s, Key(Instance, name)) then Some("InstanceNotFound")
    else if name !in s.secrets then Some("SecretNotFound")
    else None
  }

  function VirtualServerGate(c: Cluster, s: Sight, name: string): Option<string> {
    var k := Key(VirtualServer, name);
    if !Sees(c, s, k) then Some("VirtualServerNotFound")
    else if !IsReady(c[k].status) then Some("VirtualServerNotReady")
    else InstanceGate(c, s, c[k].ref)
  }

  function ProjectGate(c: Cluster, s: Sight, name: string): Option<string> {
    var k := Key(Project, name);
    if !Sees(c, s, k) then Some("ProjectNotFound")
    else if !IsReady(c[k].status) then Some("ProjectNotReady")
    else VirtualServerGate(c, s, c[k].ref)
  }

  function AssignmentGate(c: Cluster, s: Sight, roleName: string, userName: string): Option<string> {
    var role, user := Key(Role, roleName), Key(User, userName);
    if !Sees(c, s, role) then Some("RoleNotFound")
    else if !IsReady(c[role].status) then Some("RoleNotReady")
    else if !Sees(c, s, user) then Some("UserNotFound")
    else if !IsReady(c[user].status) then Some("UserNotReady")
    else ProjectGate(c, s, c[role].ref)
  }

  /** Why the pass for this resource stops before any remote call, if it does. */
  function Gate(c: Cluster, s: Sight, k: Key): Option<string>
    requires k in c
  {
    match k.kind
    case Instance => None
    case VirtualServer =>
      if !Sees(c, s, Parent(c, k)) then Some("InstanceNotFound")
      else if !IsReady(c[Parent(c, k)].status) then Some("InstanceNotReady")
      else InstanceGate(c, s, c[k].ref)
    case Project => VirtualServerGate(c, s, c[k].ref)
    case User => VirtualServerGate(c, s, c[k].ref)
    case Application => ProjectGate(c, s, c[k].ref)
    case Role => ProjectGate(c, s, c[k].ref)
    case Assignment => AssignmentGate(c, s, c[k].ref, c[k].userRef)
  }

  // ---------------------------------------------------------------- steps

  /** The remote part of a pass, as far as the cluster can tell. */
  datatype Outcome = Outcome(ready: bool, reason: string, message: string, id: StoredId, managed: seq<string>)

  /** How a reconciler sums up its pass. */
  function Reported(failure: Option<string>, success: string, detail: string, id: StoredId, managed: seq<string>): Outcome {
    if failure.None? then Outcome(true, "Synced", success, id, managed) else Outcome(false, failure.value, detail, id, managed)
  }

  /** The status after that: the id and managed key ids of the pass, and the Ready condition. */
  function Concluded(s: Status, o: Outcome, now: int): Status {
    Conclude(s.(id := o.id, managed := o.managed), o.ready, o.reason, o.message, now)
  }

  /** The outcomes the reconcilers can have, in any remote world. */
  ghost predicate Possible(c: Cluster, k: Key, o: Outcome)
    requires k in c
  {
    var s := c[k].status;
    match k.kind
    case Instance => exists owned, spec, near, wire, url :: InstanceOutcome(owned, spec, near, wire, url, s, o)
    case VirtualServer => exists w, spec :: VirtualServerOutcome(w, spec, s, o)
    case Project => exists w, spec :: ProjectOutcome(w, spec, s, o)
    case User => exists w, spec, order :: UserOutcome(w, spec, order, s, o)
    case Application => exists w, spec, header :: ApplicationOutcome(w, spec, header, s, o)
    case Role => exists w, spec :: RoleOutcome(w, spec, s, o)
    case Assignment =>
      exists w :: AssignmentOutcome(w, IdAt(c, Parent(c, k)), IdAt(c, Key(User, c[k].userRef)), s, o)
  }

  function IdAt(c: Cluster, k: Key): StoredId {
    if k in c then c[k].status.id else Empty
  }

  /** A pass that panics reports nothing, and leaves no trace here. */
  ghost predicate InstanceOutcome(owned: InstanceModel.Cluster, spec: ServerConfig.InstanceSpec, near: InstanceModel.Surroundings,
                                  wire: InstanceModel.Wire, url: string, s: Status, o: Outcome) {
    var p := InstanceModel.InstancePass(owned, spec, near, wire);
    var id := if p.deployed then Plain(url) else s.id;
    match p.outcome
    case Done => o == Outcome(true, "Ready", "Keyline is deployed and token exchange succeeded", id, s.managed)
    case Failing(reason) => o == Outcome(false, reason, o.message, id, s.managed)
    case Panicking => false
  }

  ghost predicate VirtualServerOutcome(w: VirtualServerModel.World, spec: VirtualServerModel.Declared, s: Status, o: Outcome) {
    o == Reported(VirtualServerModel.VsPass(w, spec).failure, "Virtual server is in sync", o.message, s.id, s.managed)
  }

  ghost predicate ProjectOutcome(w: ProjectModel.World, spec: ProjectModel.ProjectSpec, s: Status, o: Outcome) {
    o == Reported(ProjectModel.ProjectPass(w, spec).failure, "Project exists in Keyline", o.message, s.id, s.managed)
  }

  ghost predicate UserOutcome(w: UserModel.World, spec: UserModel.UserSpec, order: seq<string>, s: Status, o: Outcome) {
    UserModel.IsOrder(order, UserModel.Desired(spec.keys)) &&
    var p := UserModel.UserPass(w, spec, s, order);
    o == Reported(p.failure, "User synced", o.message, p.stored, p.managed)
  }

  ghost predicate RoleOutcome(w: RoleModel.World, spec: RoleModel.RoleSpec, s: Status, o: Outcome) {
    var p := RoleModel.RolePass(w, spec, s.id);
    o == Reported(p.failure, "Role synced", o.message, p.stored, s.managed)
  }

  ghost predicate ApplicationOutcome(w: ApplicationModel.World, spec: ApplicationModel.AppSpec, header: string, s: Status, o: Outcome) {
    var p := ApplicationModel.AppPass(w, spec, s.id, header);
    o == Reported(p.failure, "Application synced", o.message, p.stored, s.managed)
  }

  ghost predicate AssignmentOutcome(w: AssignmentModel.World, role: StoredId, user: StoredId, s: Status, o: Outcome) {
    o == Reported(AssignmentModel.AssignmentPass(w, role, user).failure, "Role assignment synced", o.message, s.id, s.managed)
  }

  /** The status concluded from such an outcome is the one the reconciler writes: for an instance also with its
      URL stored for the first time. */
  lemma OutcomesAreWritten(s: Status, o: Outcome, now: int)
    ensures forall owned, spec, near, wire, url | InstanceOutcome(owned, spec, near, wire, url, s, o) ::
              Concluded(s, o, now)
              == InstanceModel.NextStatus(InstanceModel.InstancePass(owned, spec, near, wire), s, url, o.message, now)
    ensures forall w, spec | VirtualServerOutcome(w, spec, s, o) ::
              Concluded(s, o, now) == VirtualServerModel.NextStatus(VirtualServerModel.VsPass(w, spec), s, o.message, now)
    ensures forall w, spec | ProjectOutcome(w, spec, s, o) ::
              Concluded(s, o, now) == ProjectModel.NextStatus(ProjectModel.ProjectPass(w, spec), s, o.message, now)
    ensures forall w, spec, order | UserOutcome(w, spec, order, s, o) ::
              Concluded(s, o, now) == UserModel.NextStatus(UserModel.UserPass(w, spec, s, order), s, o.message, now)
    ensures forall w, spec | RoleOutcome(w, spec, s, o) ::
              Concluded(s, o, now) == RoleModel.NextStatus(RoleModel.RolePass(w, spec, s.id), s, o.message, now)
    ensures forall w, spec, header | ApplicationOutcome(w, spec, header, s, o) ::
              Concluded(s, o, now) == ApplicationModel.NextStatus(ApplicationModel.AppPass(w, spec, s.id, header), s, o.message, now)
    ensures forall w, role, user | AssignmentOutcome(w, role, user, s, o) ::
              Concluded(s, o, now) == AssignmentModel.NextStatus(AssignmentModel.AssignmentPass(w, role, user), s, o.message, now)
  {
  }

  /** One pass for one resource: what it sees, what its remote part does, when, and whether the status
      write is kept. */
  datatype Attempt = Attempt(key: Key, sight: Sight, outcome: Outcome, now: int, written: bool)

  function NextStatus(c: Cluster, a: Attempt): Status
    requires a.key in c
  {
    var s, o, gate := c[a.key].status, a.outcome, Gate(c, a.sight, a.key);
    if gate.Some? then Conclude(s, false, gate.value, o.message, a.now)
    else Concluded(s, o, a.now)
  }

  function Step(c: Cluster, a: Attempt): Cluster {
    if a.key in c && a.written then c[a.key := c[a.key].(status := NextStatus(c, a))] else c
  }

  function Steps(c: Cluster, many: seq<Attempt>): Cluster
    decreases |many|
  {
    if many == [] then c else Steps(Step(c, many[0]), many[1..])
  }

  ghost predicate AllPossible(c: Cluster, many: seq<Attempt>)
    decreases |many|
  {
    many == [] ||
    ((many[0].key in c ==> Possible(c, many[0].key, many[0].outcome)) && AllPossible(Step(c, many[0]), many[1..]))
  }
}

/** The gates as they run. */
module ReadinessController {
  import opened Prelude
  import opened StatusPatch
  import opened M = ReadinessModel

  method CheckGates(c: Cluster, s: Sight, k: Key) returns (blocked: Option<string>)
    requires k in c
    ensures blocked == Gate(c, s, k)
  {
    var project, virtualServer, instance := "", "", "";
    match k.kind {
      case Instance =>
        return None;
      case VirtualServer =>
        instance := c[k].ref;
        if !Sees(c, s, Key(Instance, instance)) {
          return Some("InstanceNotFound");
        }
        if !IsReady(c[Key(Instance, instance)].status) {
          return Some("InstanceNotReady");
        }
        if instance !in s.secrets {
          return Some("SecretNotFound");
        }
        return None;
      case Project =>
        virtualServer := c[k].ref;
      case User =>
        virtualServer := c[k].ref;
      case Application =>
        project := c[k].ref;
      case Role =>
        project := c[k].ref;
      case Assignment =>
        var role, user := Key(Role, c[k].ref), Key(User, c[k].userRef);
        if !Sees(c, s, role) {
          return Some("RoleNotFound");
        }
        if !IsReady(c[role].status) {
          return Some("RoleNotReady");
        }
        if !Sees(c, s, user) {
          return Some("UserNotFound");
        }
        if !IsReady(c[user].status) {
          return Some("UserNotReady");
        }
        project := c[role].ref;
    }
    if Depth(k.kind) > 2 {
      if !Sees(c, s, Key(Project, project)) {
        return Some("ProjectNotFound");
      }
      if !IsReady(c[Key(Project, project)].status) {
        return Some("ProjectNotReady");
      }
      virtualServer := c[Key(Project, project)].ref;
    }
    if !Sees(c, s, Key(VirtualServer, virtualServer)) {
      return Some("VirtualServerNotFound");
    }
    if !IsReady(c[Key(VirtualServer, virtualServer)].status) {
      return Some("VirtualServerNotReady");
    }
    instance := c[Key(VirtualServer, virtualServer)].ref;
    if !Sees(c, s, Key(Instance, instance)) {
      return Some("InstanceNotFound");
    }
    blocked := if instance !in s.secrets then Some("SecretNotFound") else None;
  }
}

/** Passes in which every call succeeds, and what they report. A 404 to the probe of a stored id counts as a
    success, and so does a 404 to a removal: the reconcilers take both in their stride. */
module SmoothPasses {
  import opened Prelude
  import opened Remote
  import opened StatusPatch
  import opened ReadinessModel
  import U = UserModel
  import R = RoleModel
  import A = ApplicationModel
  import G = AssignmentModel
  import I = InstanceModel
  import P = ProjectModel
  import V = VirtualServerModel
  import InstanceProperties
  import ServerConfig
  import UserReplay

  predicate UserCallFine(c: U.Call) {
    match c
    case CreateCall(_, _, answered) => answered
    case PatchCall(_, _, answered) => answered
    case AssociateCall(_, _, _, answered) => answered
    case RemoveCall(_, _, _, answered) => answered
    case _ => true
  }

  predicate RoleCallFine(c: R.Call) {
    (c.CreateCall? || c.PatchCall?) ==> c.landed
  }

  predicate ApplicationCallFine(c: A.Call) {
    (c.CreateCall? || c.PatchCall?) ==> c.landed
  }

  // ---------------------------------------------------------------- one pass of each kind

  /** The Deployment is available, and the secrets the spec names are there. */
  ghost predicate InstanceSmooth(owned: I.Cluster, spec: ServerConfig.InstanceSpec, near: I.Surroundings, url: string,
                                 s: Status, o: Outcome) {
    InstanceOutcome(owned, spec, near, I.CLEAR, url, s, o) && near.available && InstanceProperties.InputsPresent(spec, near)
  }

  ghost predicate VirtualServerSmooth(w: V.World, spec: V.Declared, s: Status, o: Outcome) {
    VirtualServerOutcome(w, spec, s, o) && w.script == [] && w.current.Some?
  }

  ghost predicate ProjectSmooth(w: P.World, spec: P.ProjectSpec, s: Status, o: Outcome) {
    ProjectOutcome(w, spec, s, o) && w.script == []
  }

  ghost predicate UserSmooth(w: U.World, spec: U.UserSpec, order: seq<string>, s: Status, o: Outcome) {
    UserOutcome(w, spec, order, s, o) && w.script == [] &&
    var p := U.UserPass(w, spec, s, order);
    forall i | |w.calls| <= i < |p.w.calls| :: UserCallFine(p.w.calls[i])
  }

  ghost predicate RoleSmooth(w: R.World, spec: R.RoleSpec, s: Status, o: Outcome) {
    RoleOutcome(w, spec, s, o) && w.script == [] &&
    var p := R.RolePass(w, spec, s.id);
    forall i | |w.calls| <= i < |p.w.calls| :: RoleCallFine(p.w.calls[i])
  }

  ghost predicate ApplicationSmooth(w: A.World, spec: A.AppSpec, header: string, s: Status, o: Outcome) {
    ApplicationOutcome(w, spec, header, s, o) && w.script == [] &&
    var p := A.AppPass(w, spec, s.id, header);
    forall i | |w.calls| <= i < |p.w.calls| :: ApplicationCallFine(p.w.calls[i])
  }

  ghost predicate AssignmentSmooth(w: G.World, role: StoredId, user: StoredId, s: Status, o: Outcome) {
    AssignmentOutcome(w, role, user, s, o) && w.script == [] && (role.Issued? ==> role.id in w.members) &&
    var p := G.AssignmentPass(w, role, user);
    forall i | |w.calls| <= i < |p.w.calls| :: p.w.calls[i].AssignCall? ==> p.w.calls[i].answered
  }

  /** The outcomes of a pass for which every call succeeds. */
  ghost predicate SmoothOutcome(c: Cluster, k: Key, o: Outcome)
    requires k in c
  {
    var s := c[k].status;
    match k.kind
    case Instance => exists owned, spec, near, url :: InstanceSmooth(owned, spec, near, url, s, o)
    case VirtualServer => exists w, spec :: VirtualServerSmooth(w, spec, s, o)
    case Project => exists w, spec :: ProjectSmooth(w, spec, s, o)
    case User => exists w, spec, order :: UserSmooth(w, spec, order, s, o)
    case Application => exists w, spec, header :: ApplicationSmooth(w, spec, header, s, o)
    case Role => exists w, spec :: RoleSmooth(w, spec, s, o)
    case Assignment =>
      exists w :: AssignmentSmooth(w, IdAt(c, Parent(c, k)), IdAt(c, Key(User, c[k].userRef)), s, o)
  }

  // ---------------------------------------------------------------- what they report

  lemma {:induction false} FailedAddIsLogged(w: U.World, id: Id, desired: map<string, string>, order: seq<string>, managed: seq<string>)
    requires w.script == [] && Elements(order) <= desired.Keys
    ensures var r := U.AddAll(w, id, desired, order, managed);
            && r.w.script == [] && |r.w.calls| >= |w.calls|
            && (r.failure.Some? ==> |r.w.calls| > |w.calls| && !UserCallFine(r.w.calls[|r.w.calls| - 1]))
    decreases |order|
  {
    if order != [] {
      assert order[0] in Elements(order);
      if order[0] in managed {
        FailedAddIsLogged(w, id, desired, order[1..], managed);
      } else {
        FailedAddIsLogged(U.Associate(w, id, order[0], desired[order[0]]).0, id, desired, order[1..], managed + [order[0]]);
      }
    }
  }

  lemma FailedSyncIsLogged(w: U.World, id: Id, spec: U.UserSpec, order: seq<string>, managed: seq<string>)
    requires w.script == [] && Elements(order) <= U.Desired(spec.keys).Keys
    ensures var r := U.SyncAccount(w, id, spec, order, managed);
            r.failure.Some? ==> |r.w.calls| > |w.calls| && !UserCallFine(r.w.calls[|r.w.calls| - 1])
  {
    var w1 := if spec.displayName.Some? then U.PatchName(w, id, spec.displayName.value).0 else w;
    var desired := U.Desired(spec.keys);
    FailedAddIsLogged(w1, id, desired, order, managed);
    var added := U.AddAll(w1, id, desired, order, managed);
    UserReplay.DropAllClean(added.w, id, desired, added.managed, []);
  }

  lemma SmoothUserReports(w: U.World, spec: U.UserSpec, order: seq<string>, s: Status, o: Outcome)
    requires UserSmooth(w, spec, order, s, o)
    ensures o.ready
  {
    var e := U.Ensure(w, spec.username, s.id);
    assert e.w.script == [] && e.id.Some? && |e.w.calls| >= |w.calls|;
    FailedSyncIsLogged(e.w, e.id.value, spec, order, s.managed);
  }

  lemma FailedRoleIsLogged(w: R.World, spec: R.RoleSpec, stored: StoredId)
    requires w.script == []
    ensures var p := R.RolePass(w, spec, stored);
            p.failure.Some? ==> |p.w.calls| > |w.calls| && !RoleCallFine(p.w.calls[|p.w.calls| - 1])
  {
  }

  lemma FailedApplicationIsLogged(w: A.World, spec: A.AppSpec, stored: StoredId, header: string)
    requires w.script == []
    ensures var p := A.AppPass(w, spec, stored, header);
            p.failure.Some? ==> |p.w.calls| > |w.calls| && !ApplicationCallFine(p.w.calls[|p.w.calls| - 1])
  {
  }

  lemma FailedAssignmentIsLogged(w: G.World, role: Id, user: Id)
    requires w.script == [] && role in w.members
    ensures var p := G.AssignmentPass(w, Issued(role), Issued(user));
            p.failure.Some? ==> |p.w.calls| > |w.calls| && var last := p.w.calls[|p.w.calls| - 1]; last.AssignCall? && !last.answered
  {
  }

  /** With every call succeeding each reconciler reports Ready, the assignment reconciler exactly if it finds
      two ids of the server. */
  lemma SmoothReports(c: Cluster, k: Key, o: Outcome)
    requires k in c && SmoothOutcome(c, k, o)
    ensures k.kind != Assignment ==> o.ready
    ensures k.kind == Assignment ==>
              (o.ready <==> IdAt(c, Parent(c, k)).Issued? && IdAt(c, Key(User, c[k].userRef)).Issued?)
  {
    var s := c[k].status;
    match k.kind {
      case Instance =>
        var owned, spec, near, url :| InstanceSmooth(owned, spec, near, url, s, o);
        InstanceProperties.CleanPassSettles(owned, spec, near);
      case User =>
        var w, spec, order :| UserSmooth(w, spec, order, s, o);
        SmoothUserReports(w, spec, order, s, o);
      case Role =>
        var w, spec :| RoleSmooth(w, spec, s, o);
        FailedRoleIsLogged(w, spec, s.id);
      case Application =>
        var w, spec, header :| ApplicationSmooth(w, spec, header, s, o);
        FailedApplicationIsLogged(w, spec, s.id, header);
      case Assignment =>
        var role, user := IdAt(c, Parent(c, k)), IdAt(c, Key(User, c[k].userRef));
        var w :| AssignmentSmooth(w, role, user, s, o);
        if role.Issued? && user.Issued? {
          FailedAssignmentIsLogged(w, role.id, user.id);
        }
      case _ =>
    }
  }

  /** Such outcomes are among the possible ones. */
  lemma SmoothIsPossible(c: Cluster, k: Key, o: Outcome)
    requires k in c && SmoothOutcome(c, k, o)
    ensures Possible(c, k, o)
  {
    var s := c[k].status;
    if k.kind == Instance {
      var owned, spec, near, url :| InstanceSmooth(owned, spec, near, url, s, o);
      assert InstanceOutcome(owned, spec, near, I.CLEAR, url, s, o);
    }
  }

  // ---------------------------------------------------------------- there are such passes

  const PLAIN_SPEC := ServerConfig.InstanceSpec("", ServerConfig.Resources(map[], map[]), "", "", "",
                                                ServerConfig.MEMORY_MODE, None, ServerConfig.DIRECTORY_MODE, None, None)

  lemma InstanceCanBeSmooth(s: Status) returns (o: Outcome)
    ensures exists owned, spec, near, url :: InstanceSmooth(owned, spec, near, url, s, o)
  {
    var near := I.Surroundings("", map[], I.KeyPair("", "", ""), true, (c: ServerConfig.Config) => "", false);
    var owned := InstanceProperties.NOTHING_YET;
    o := Outcome(true, "Ready", "Keyline is deployed and token exchange succeeded", Plain(""), s.managed);
    InstanceProperties.CleanPassSettles(owned, PLAIN_SPEC, near);
    assert InstanceSmooth(owned, PLAIN_SPEC, near, "", s, o);
  }

  lemma VirtualServerCanBeSmooth(s: Status) returns (o: Outcome)
    ensures exists w, spec :: VirtualServerSmooth(w, spec, s, o)
  {
    var w := V.World(Some(V.Settings("", false, false, false, "", [])), [], []);
    o := Reported(V.VsPass(w, V.NOTHING).failure, "Virtual server is in sync", "", s.id, s.managed);
    assert VirtualServerSmooth(w, V.NOTHING, s, o);
  }

  lemma ProjectCanBeSmooth(s: Status) returns (o: Outcome)
    ensures exists w, spec :: ProjectSmooth(w, spec, s, o)
  {
    var w, spec := P.World(map[], [], []), P.ProjectSpec("", "", None);
    o := Reported(P.ProjectPass(w, spec).failure, "Project exists in Keyline", "", s.id, s.managed);
    assert ProjectSmooth(w, spec, s, o);
  }

  ghost predicate AllFine(calls: seq<U.Call>) {
    forall i | 0 <= i < |calls| :: UserCallFine(calls[i])
  }

  lemma {:induction false} DropAllFine(w: U.World, id: Id, desired: map<string, string>, todo: seq<string>, kept: seq<string>)
    requires w.script == [] && AllFine(w.calls)
    ensures AllFine(U.DropAll(w, id, desired, todo, kept).w.calls)
    decreases |todo|
  {
    if todo != [] {
      if todo[0] in desired {
        DropAllFine(w, id, desired, todo[1..], kept + [todo[0]]);
      } else {
        DropAllFine(U.Remove(w, id, todo[0]).0, id, desired, todo[1..], kept);
      }
    }
  }

  lemma UserCanBeSmooth(s: Status) returns (o: Outcome)
    ensures exists w, spec, order :: UserSmooth(w, spec, order, s, o)
  {
    var spec := U.UserSpec("", None, []);
    var w := U.World([], U.Upsert, [], []);
    var p := U.UserPass(w, spec, s, []);
    o := Reported(p.failure, "User synced", "", p.stored, p.managed);
    var e := U.Ensure(w, "", s.id);
    assert e.w.script == [] && e.id.Some? && AllFine(e.w.calls);
    DropAllFine(e.w, e.id.value, map[], s.managed, []);
    UserReplay.DropAllClean(e.w, e.id.value, map[], s.managed, []);
    assert p.w == U.DropAll(e.w, e.id.value, map[], s.managed, []).w;
    assert U.IsOrder([], U.Desired([]));
    assert UserSmooth(w, spec, [], s, o);
  }

  lemma RoleCanBeSmooth(s: Status) returns (o: Outcome)
    ensures exists w, spec :: RoleSmooth(w, spec, s, o)
  {
    var spec := R.RoleSpec("", None);
    var w: R.World := Server([], false, [], []);
    var p := R.RolePass(w, spec, s.id);
    o := Reported(p.failure, "Role synced", "", p.stored, s.managed);
    assert RoleSmooth(w, spec, s, o);
  }

  lemma ApplicationCanBeSmooth(s: Status) returns (o: Outcome)
    ensures exists w, spec, header :: ApplicationSmooth(w, spec, header, s, o)
  {
    var spec := A.AppSpec("", "", "", [], None, None, false, None, None);
    var w: A.World := Server([], false, [], []);
    var p := A.AppPass(w, spec, s.id, "");
    o := Reported(p.failure, "Application synced", "", p.stored, s.managed);
    assert ApplicationSmooth(w, spec, "", s, o);
  }

  lemma AssignmentCanBeSmooth(role: StoredId, user: StoredId, s: Status) returns (o: Outcome)
    ensures exists w :: AssignmentSmooth(w, role, user, s, o)
  {
    var w := G.World(if role.Issued? then map[role.id := if user.Issued? then [user.id] else []] else map[], false, [], []);
    var p := G.AssignmentPass(w, role, user);
    o := Reported(p.failure, "Role assignment synced", "", s.id, s.managed);
    assert AssignmentSmooth(w, role, user, s, o);
  }

  /** Whatever the status of the resource, a pass can go smoothly. */
  lemma CanBeSmooth(c: Cluster, k: Key) returns (o: Outcome)
    requires k in c
    ensures SmoothOutcome(c, k, o)
  {
    var s := c[k].status;
    match k.kind {
      case Instance => o := InstanceCanBeSmooth(s);
      case VirtualServer => o := VirtualServerCanBeSmooth(s);
      case Project => o := ProjectCanBeSmooth(s);
      case User => o := UserCanBeSmooth(s);
      case Application => o := ApplicationCanBeSmooth(s);
      case Role => o := RoleCanBeSmooth(s);
      case Assignment => o := AssignmentCanBeSmooth(IdAt(c, Parent(c, k)), IdAt(c, Key(User, c[k].userRef)), s);
    }
  }
}

/** Who becomes Ready after whom, and how soon. */
module ReadinessProperties {
  import opened Prelude
  import opened Remote
  import opened StatusPatch
  import opened ReadinessModel
  import opened SmoothPasses
  import UserProgress
  import RoleProperties
  import AssignmentModel

  ghost predicate ReadyIn(c: Cluster, k: Key) {
    k in c && IsReady(c[k].status)
  }

  /** A pass reports Ready only past its gates, and the gates see every parent Ready. */
  lemma ReadyNeedsParents(c: Cluster, a: Attempt)
    requires a.key in c && IsReady(NextStatus(c, a))
    ensures Gate(c, a.sight, a.key).None? && a.outcome.ready
    ensures forall p | p in Parents(c, a.key) :: ReadyIn(c, p)
  {
    var s, o, gate := c[a.key].status, a.outcome, Gate(c, a.sight, a.key);
    if gate.Some? {
      UpsertReadsBack(s.conditions, ReadyCondition(false, gate.value, o.message, a.now), READY);
    } else {
      UpsertReadsBack(s.conditions, ReadyCondition(o.ready, o.reason, o.message, a.now), READY);
    }
  }

  /** All resources a resource refers to, directly or through others. */
  function Ancestors(c: Cluster, k: Key): set<Key>
    decreases Depth(k.kind)
  {
    if k !in c then {} else
      Parents(c, k) + set p, q | p in Parents(c, k) && q in Ancestors(c, p) :: q
  }

  ghost predicate SameRefs(c: Cluster, d: Cluster) {
    c.Keys == d.Keys && forall k | k in c :: c[k].ref == d[k].ref && c[k].userRef == d[k].userRef
  }

  lemma {:induction false} SameAncestors(c: Cluster, d: Cluster, k: Key)
    requires SameRefs(c, d)
    ensures Ancestors(c, k) == Ancestors(d, k)
    decreases Depth(k.kind)
  {
    if k in c {
      assert Parents(c, k) == Parents(d, k);
      forall p | p in Parents(c, k) ensures Ancestors(c, p) == Ancestors(d, p) {
        SameAncestors(c, d, p);
      }
    }
  }

  // ---------------------------------------------------------------- what the gates check

  /** What the gates of a resource look at. For an assignment that is the chain of its role, and its user
      alone: the virtual server of the user is not looked at, and need not be that of the role. */
  function Chain(c: Cluster, k: Key): set<Key>
    decreases Depth(k.kind)
  {
    if k !in c || k.kind == Instance then {}
    else
      {Parent(c, k)} + Chain(c, Parent(c, k)) + (if k.kind == Assignment then {Key(User, c[k].userRef)} else {})
  }

  /** These resources are visible and Ready; instances are visible with their Secret. */
  ghost predicate Open(c: Cluster, s: Sight, keys: set<Key>) {
    forall k | k in keys :: Sees(c, s, k) && if k.kind == Instance then k.name in s.secrets else IsReady(c[k].status)
  }

  lemma VirtualServerGateIff(c: Cluster, s: Sight, name: string)
    ensures var k := Key(VirtualServer, name);
            VirtualServerGate(c, s, name).None? <==> Open(c, s, {k} + Chain(c, k))
  {
    var k := Key(VirtualServer, name);
    if k in c {
      assert Chain(c, k) == {Key(Instance, c[k].ref)};
      assert Key(Instance, c[k].ref) in {k} + Chain(c, k);
    }
    assert k in {k} + Chain(c, k);
  }

  lemma ProjectGateIff(c: Cluster, s: Sight, name: string)
    ensures var k := Key(Project, name);
            ProjectGate(c, s, name).None? <==> Open(c, s, {k} + Chain(c, k))
  {
    var k := Key(Project, name);
    assert k in {k} + Chain(c, k);
    if k in c {
      VirtualServerGateIff(c, s, c[k].ref);
      assert {k} + Chain(c, k) == {k} + ({Parent(c, k)} + Chain(c, Parent(c, k)));
    }
  }

  lemma AssignmentGateIff(c: Cluster, s: Sight, k: Key)
    requires k in c && k.kind == Assignment
    ensures Gate(c, s, k).None? <==> Open(c, s, Chain(c, k))
  {
    var p, user := Parent(c, k), Key(User, c[k].userRef);
    assert p in Chain(c, k) && user in Chain(c, k);
    if p in c {
      var project := Parent(c, p);
      ProjectGateIff(c, s, c[p].ref);
      var rest := {project} + Chain(c, project);
      assert Chain(c, k) == {p, user} + rest;
      assert Open(c, s, Chain(c, k)) <==> Open(c, s, {p, user}) && Open(c, s, rest);
      assert Open(c, s, {p, user}) <==> Sees(c, s, p) && Sees(c, s, user) && IsReady(c[p].status) && IsReady(c[user].status);
    }
  }

  /** The gates of a resource open exactly when everything on its chain is visible and Ready, except that
      only a virtual server needs its instance to be Ready. */
  lemma GateOpensIff(c: Cluster, s: Sight, k: Key)
    requires k in c
    ensures Gate(c, s, k).None?
            <==> Open(c, s, Chain(c, k)) && (k.kind == VirtualServer ==> ReadyIn(c, Parent(c, k)))
  {
    match k.kind {
      case Instance =>
      case VirtualServer => assert Chain(c, k) == {Parent(c, k)};
      case Project => VirtualServerGateIff(c, s, c[k].ref); assert Chain(c, k) == {Parent(c, k)} + Chain(c, Parent(c, k));
      case User => VirtualServerGateIff(c, s, c[k].ref); assert Chain(c, k) == {Parent(c, k)} + Chain(c, Parent(c, k));
      case Application => ProjectGateIff(c, s, c[k].ref); assert Chain(c, k) == {Parent(c, k)} + Chain(c, Parent(c, k));
      case Role => ProjectGateIff(c, s, c[k].ref); assert Chain(c, k) == {Parent(c, k)} + Chain(c, Parent(c, k));
      case Assignment => AssignmentGateIff(c, s, k);
    }
  }

  // ---------------------------------------------------------------- which reason is given

  /** From a resource upward along its references, as far as they lead to known resources. */
  function Walk(c: Cluster, k: Key): seq<Key>
    decreases Depth(k.kind)
  {
    [k] + if k !in c || k.kind == Instance then [] else Walk(c, Parent(c, k))
  }

  /** The order of the reads in front of a pass: an assignment looks at its role, then its user, and then follows
      the role; the other kinds follow their one reference. */
  function Reads(c: Cluster, k: Key): seq<Key>
    requires k in c
  {
    match k.kind
    case Instance => []
    case Assignment => [Parent(c, k), Key(User, c[k].userRef)] + Walk(c, Parent(c, k))[1..]
    case _ => Walk(c, Parent(c, k))
  }

  function MissingReason(kind: Kind): string {
    match kind
    case Instance => "InstanceNotFound"
    case VirtualServer => "VirtualServerNotFound"
    case Project => "ProjectNotFound"
    case User => "UserNotFound"
    case Application => ""
    case Role => "RoleNotFound"
    case Assignment => ""
  }

  function UnreadyReason(kind: Kind): string {
    match kind
    case Instance => "InstanceNotReady"
    case VirtualServer => "VirtualServerNotReady"
    case Project => "ProjectNotReady"
    case User => "UserNotReady"
    case Application => ""
    case Role => "RoleNotReady"
    case Assignment => ""
  }

  /** What is wrong with one resource on the way. An instance also needs the Secret with the credentials, and
      need only be Ready if `strict`. */
  function Obstacle(c: Cluster, s: Sight, k: Key, strict: bool): Option<string> {
    if k !in c || k !in s.keys then Some(MissingReason(k.kind))
    else if (k.kind != Instance || strict) && !IsReady(c[k].status) then Some(UnreadyReason(k.kind))
    else if k.kind == Instance && k.name !in s.secrets then Some("SecretNotFound")
    else None
  }

  function FirstObstacle(c: Cluster, s: Sight, order: seq<Key>, strict: bool): Option<string> {
    if order == [] then None
    else
      var here := Obstacle(c, s, order[0], strict);
      if here.Some? then here else FirstObstacle(c, s, order[1..], strict)
  }

  lemma ObstacleOnWalk(c: Cluster, s: Sight, k: Key, strict: bool)
    ensures var here := Obstacle(c, s, k, strict);
            FirstObstacle(c, s, Walk(c, k), strict) ==
            if here.Some? || k !in c || k.kind == Instance then here else FirstObstacle(c, s, Walk(c, Parent(c, k)), strict)
  {
    if k in c && k.kind != Instance {
      assert Walk(c, k)[1..] == Walk(c, Parent(c, k));
    }
  }

  lemma VirtualServerObstacle(c: Cluster, s: Sight, name: string)
    ensures VirtualServerGate(c, s, name) == FirstObstacle(c, s, Walk(c, Key(VirtualServer, name)), false)
  {
    var k := Key(VirtualServer, name);
    ObstacleOnWalk(c, s, k, false);
    if k in c { ObstacleOnWalk(c, s, Parent(c, k), false); }
  }

  lemma ProjectObstacle(c: Cluster, s: Sight, name: string)
    ensures ProjectGate(c, s, name) == FirstObstacle(c, s, Walk(c, Key(Project, name)), false)
  {
    var k := Key(Project, name);
    ObstacleOnWalk(c, s, k, false);
    if k in c { VirtualServerObstacle(c, s, c[k].ref); }
  }

  lemma AssignmentObstacle(c: Cluster, s: Sight, k: Key)
    requires k in c && k.kind == Assignment
    ensures Gate(c, s, k) == FirstObstacle(c, s, Reads(c, k), false)
  {
    var role, calls := Parent(c, k), Reads(c, k);
    var above := Walk(c, role)[1..];
    assert calls == [role, Key(User, c[k].userRef)] + above;
    assert calls[1..] == [Key(User, c[k].userRef)] + above && calls[1..][1..] == above;
    if role in c {
      assert above == Walk(c, Parent(c, role));
      ProjectObstacle(c, s, c[role].ref);
    }
  }

  /** The reason a closed gate gives is that of the first obstacle in the order of the reads; a virtual server
      alone insists on a Ready instance. */
  lemma GateIsFirstObstacle(c: Cluster, s: Sight, k: Key)
    requires k in c
    ensures Gate(c, s, k) == FirstObstacle(c, s, Reads(c, k), k.kind == VirtualServer)
  {
    match k.kind {
      case Instance =>
      case VirtualServer => ObstacleOnWalk(c, s, Parent(c, k), true);
      case Project => VirtualServerObstacle(c, s, c[k].ref);
      case User => VirtualServerObstacle(c, s, c[k].ref);
      case Application => ProjectObstacle(c, s, c[k].ref);
      case Role => ProjectObstacle(c, s, c[k].ref);
      case Assignment => AssignmentObstacle(c, s, k);
    }
  }

  /** A pass that meets an obstacle reports just that: not Ready for its reason, the id and the managed keys as they
      were. Without one the condition is what the remote part reports. */
  lemma BlockedSaysWhy(c: Cluster, a: Attempt)
    requires a.key in c
    ensures var obstacle := FirstObstacle(c, a.sight, Reads(c, a.key), a.key.kind == VirtualServer);
            var next, was := NextStatus(c, a), c[a.key].status;
            && ReadyAt(next).Some?
            && var said := ReadyAt(next).value;
               && said.message == a.outcome.message
               && (obstacle.Some? ==>
                     && said.status == No && said.reason == obstacle.value && next.id == was.id && next.managed == was.managed)
               && (obstacle.None? ==>
                     && said.status == (if a.outcome.ready then Yes else No) && said.reason == a.outcome.reason
                     && next.id == a.outcome.id && next.managed == a.outcome.managed)
  {
    hide Gate, FirstObstacle, Conclude, ReadyAt;
    GateIsFirstObstacle(c, a.sight, a.key);
    var was, o, gate := c[a.key].status, a.outcome, Gate(c, a.sight, a.key);
    if gate.Some? {
      ConcludeSets(was, false, gate.value, o.message, a.now);
    } else {
      ConcludeSets(was.(id := o.id, managed := o.managed), o.ready, o.reason, o.message, a.now);
    }
  }

  // ---------------------------------------------------------------- order

  /** Everything that has been Ready at some point of the run. */
  function EverReady(c: Cluster, many: seq<Attempt>): set<Key>
    decreases |many|
  {
    (set k | k in c && IsReady(c[k].status)) + (if many == [] then {} else EverReady(Step(c, many[0]), many[1..]))
  }

  /** The same, with what was Ready before. */
  ghost predicate Ordered(c: Cluster, before: set<Key>) {
    && (forall k | ReadyIn(c, k) :: k in before)
    && (forall k, p | k in before && k in c && p in Parents(c, k) :: p in before)
  }

  lemma StepStaysOrdered(c: Cluster, a: Attempt, before: set<Key>)
    requires Ordered(c, before)
    ensures var d := Step(c, a);
            SameRefs(c, d) && Ordered(d, before + set k | k in d && IsReady(d[k].status))
  {
    var d := Step(c, a);
    var after := before + set k | k in d && IsReady(d[k].status);
    forall k, p | k in after && k in d && p in Parents(d, k) ensures p in after {
      assert Parents(d, k) == Parents(c, k);
      if k !in before {
        assert k == a.key;
        ReadyNeedsParents(c, a);
        assert ReadyIn(c, p);
      }
    }
  }

  lemma {:induction false} RunStaysOrdered(c: Cluster, many: seq<Attempt>, before: set<Key>)
    requires Ordered(c, before)
    ensures SameRefs(c, Steps(c, many)) && Ordered(Steps(c, many), before + EverReady(c, many))
    decreases |many|
  {
    var now := set k | k in c && IsReady(c[k].status);
    assert now <= before by {
      forall k | k in now ensures k in before { assert ReadyIn(c, k); }
    }
    if many == [] {
      assert before + EverReady(c, many) == before;
    } else {
      var d := Step(c, many[0]);
      var next := set k | k in d && IsReady(d[k].status);
      StepStaysOrdered(c, many[0], before);
      RunStaysOrdered(d, many[1..], before + next);
      assert next <= EverReady(d, many[1..]);
      assert (before + next) + EverReady(d, many[1..]) == before + EverReady(c, many);
    }
  }

  lemma {:induction false} AncestorsInside(c: Cluster, before: set<Key>, k: Key)
    requires Ordered(c, before) && k in before
    ensures Ancestors(c, k) <= before
    decreases Depth(k.kind)
  {
    if k in c {
      forall p | p in Parents(c, k) ensures p in before && Ancestors(c, p) <= before {
        AncestorsInside(c, before, p);
      }
    }
  }

  /** Nothing becomes Ready before everything it depends on has been Ready: in every run from a cluster
      where nothing is Ready, whatever the passes see, whatever fails, and whatever status writes are lost,
      every ancestor of a Ready resource has been Ready. */
  lemma ReadinessFollowsDependencies(c: Cluster, many: seq<Attempt>, k: Key)
    requires forall j | j in c :: !IsReady(c[j].status)
    requires ReadyIn(Steps(c, many), k)
    ensures Ancestors(c, k) <= EverReady(c, many)
  {
    RunStaysOrdered(c, many, {});
    var d := Steps(c, many);
    var ever := {} + EverReady(c, many);
    assert ever == EverReady(c, many);
    AncestorsInside(d, ever, k);
    SameAncestors(c, d, k);
  }

  // ---------------------------------------------------------------- stored ids

  /** No damaged ids, and no Ready user or role without an id of the server. */
  ghost predicate IdsSound(c: Cluster) {
    forall k | k in c && (k.kind == User || k.kind == Role) ::
      !c[k].status.id.Plain? && (IsReady(c[k].status) ==> c[k].status.id.Issued?)
  }

  /** What the reconcilers can do to a stored id. */
  lemma PossibleIds(c: Cluster, k: Key, o: Outcome)
    requires k in c && Possible(c, k, o) && (k.kind == User || k.kind == Role)
    requires !c[k].status.id.Plain?
    ensures !o.id.Plain? && (o.ready ==> o.id.Issued?)
  {
    var s := c[k].status;
    if k.kind == User {
      var w, spec, order :| UserOutcome(w, spec, order, s, o);
      UserProgress.StoredIdShape(w, spec, s, order);
    } else {
      var w, spec :| RoleOutcome(w, spec, s, o);
      RoleProperties.ReadyWithoutIdIff(w, spec, s.id);
    }
  }

  lemma StepKeepsIds(c: Cluster, a: Attempt)
    requires IdsSound(c) && (a.key in c ==> Possible(c, a.key, a.outcome))
    ensures IdsSound(Step(c, a))
  {
    if a.key in c && a.written && (a.key.kind == User || a.key.kind == Role) {
      var next := NextStatus(c, a);
      PossibleIds(c, a.key, a.outcome);
      if IsReady(next) {
        ReadyNeedsParents(c, a);
      }
    }
  }

  lemma {:induction false} RunKeepsIds(c: Cluster, many: seq<Attempt>)
    requires IdsSound(c) && AllPossible(c, many)
    ensures IdsSound(Steps(c, many))
    decreases |many|
  {
    if many != [] {
      StepKeepsIds(c, many[0]);
      RunKeepsIds(Step(c, many[0]), many[1..]);
    }
  }

  /** In every run from new resources, an assignment that passes its gates finds two ids the server issued:
      the exits for a role or user without a valid id are never taken. */
  lemma InvalidIdExitsUnreachable(c: Cluster, many: seq<Attempt>, k: Key, s: Sight, w: AssignmentModel.World)
    requires forall j | j in c :: c[j].status == NEW_STATUS
    requires AllPossible(c, many)
    requires var d := Steps(c, many); k in d && k.kind == Assignment && Gate(d, s, k).None?
    ensures var d := Steps(c, many);
            var role, user := IdAt(d, Parent(d, k)), IdAt(d, Key(User, d[k].userRef));
            && role.Issued? && user.Issued?
            && var p := AssignmentModel.AssignmentPass(w, role, user);
               p.failure != Some("RoleNotReady") && p.failure != Some("UserNotReady")
  {
    RunKeepsIds(c, many);
  }

  // ---------------------------------------------------------------- rounds

  /** Every reference leads to a resource. */
  ghost predicate RefsResolve(c: Cluster) {
    forall k | k in c :: Parents(c, k) <= c.Keys
  }

  ghost predicate SeesAll(c: Cluster, s: Sight) {
    c.Keys <= s.keys && forall k | k in c && k.kind == Instance :: k.name in s.secrets
  }

  /** A pass that sees everything, for which every call succeeds and whose status write is kept. */
  ghost predicate Smooth(c: Cluster, a: Attempt) {
    && a.key in c
    && SmoothOutcome(c, a.key, a.outcome)
    && a.written
    && SeesAll(c, a.sight)
  }

  ghost predicate AllSmooth(c: Cluster, many: seq<Attempt>)
    decreases |many|
  {
    many == [] || (Smooth(c, many[0]) && AllSmooth(Step(c, many[0]), many[1..]))
  }

  ghost predicate NoDamagedIds(c: Cluster) {
    forall k | k in c && (k.kind == User || k.kind == Role) :: !c[k].status.id.Plain?
  }

  /** Ready, and with an id where others need it. */
  ghost predicate Settled(c: Cluster, k: Key) {
    ReadyIn(c, k) && (k.kind == User || k.kind == Role ==> c[k].status.id.Issued?)
  }

  ghost predicate SettledBelow(c: Cluster, depth: nat) {
    forall k | k in c && Depth(k.kind) < depth :: Settled(c, k)
  }

  lemma {:induction false} ChainBelow(c: Cluster, k: Key)
    requires RefsResolve(c) && k in c
    ensures forall a | a in Chain(c, k) :: a in c && Depth(a.kind) < Depth(k.kind)
    decreases Depth(k.kind)
  {
    if k.kind != Instance {
      assert Parent(c, k) in Parents(c, k);
      ChainBelow(c, Parent(c, k));
      if k.kind == Assignment {
        assert Key(User, c[k].userRef) in Parents(c, k);
      }
    }
  }

  /** Once everything less deep is settled, the gates let a pass that sees everything through. */
  lemma GatesOpen(c: Cluster, s: Sight, k: Key)
    requires RefsResolve(c) && SeesAll(c, s) && k in c && SettledBelow(c, Depth(k.kind))
    ensures Gate(c, s, k).None?
    ensures forall p | p in Parents(c, k) :: Settled(c, p)
  {
    ChainBelow(c, k);
    assert Open(c, s, Chain(c, k)) by {
      forall a | a in Chain(c, k) ensures Settled(c, a) {}
    }
    if k.kind == VirtualServer {
      assert Parent(c, k) in Parents(c, k) && Settled(c, Parent(c, k));
    }
    GateOpensIff(c, s, k);
  }

  /** One smooth pass behind settled parents settles its resource. */
  lemma SmoothSettles(c: Cluster, a: Attempt)
    requires RefsResolve(c) && NoDamagedIds(c) && Smooth(c, a) && SettledBelow(c, Depth(a.key.kind))
    ensures Settled(Step(c, a), a.key)
  {
    var o, k := a.outcome, a.key;
    GatesOpen(c, a.sight, k);
    SmoothReports(c, k, o);
    if k.kind == Assignment {
      assert Parent(c, k) in Parents(c, k) && Key(User, c[k].userRef) in Parents(c, k);
    }
    if k.kind == User || k.kind == Role {
      SmoothIsPossible(c, k, o);
      PossibleIds(c, k, o);
    }
    UpsertReadsBack(c[k].status.conditions, ReadyCondition(o.ready, o.reason, o.message, a.now), READY);
  }

  lemma StepKeepsRefs(c: Cluster, a: Attempt)
    requires RefsResolve(c)
    ensures var d := Step(c, a); SameRefs(c, d) && RefsResolve(d)
  {
    var d := Step(c, a);
    forall k | k in d ensures Parents(d, k) <= d.Keys {
      assert Parents(d, k) == Parents(c, k);
    }
  }

  lemma SmoothKeepsIds(c: Cluster, a: Attempt)
    requires NoDamagedIds(c) && Smooth(c, a)
    ensures NoDamagedIds(Step(c, a))
  {
    if a.key.kind == User || a.key.kind == Role {
      SmoothIsPossible(c, a.key, a.outcome);
      PossibleIds(c, a.key, a.outcome);
    }
  }

  lemma SmoothStep(c: Cluster, a: Attempt, depth: nat)
    requires RefsResolve(c) && NoDamagedIds(c) && Smooth(c, a) && SettledBelow(c, depth)
    ensures var d := Step(c, a);
            && d.Keys == c.Keys && RefsResolve(d) && NoDamagedIds(d) && SettledBelow(d, depth)
            && (Depth(a.key.kind) <= depth ==> Settled(d, a.key))
            && (forall k | k in c && k != a.key :: d[k] == c[k])
  {
    var d := Step(c, a);
    StepKeepsRefs(c, a);
    SmoothKeepsIds(c, a);
    if Depth(a.key.kind) <= depth {
      SmoothSettles(c, a);
    }
    forall k | k in d && Depth(k.kind) < depth ensures Settled(d, k) {
      if k != a.key {
        assert Settled(c, k) && d[k] == c[k];
      }
    }
  }

  lemma {:induction false} SmoothRun(c: Cluster, many: seq<Attempt>, depth: nat)
    requires RefsResolve(c) && NoDamagedIds(c) && AllSmooth(c, many) && SettledBelow(c, depth)
    ensures var d := Steps(c, many);
            && d.Keys == c.Keys && RefsResolve(d) && NoDamagedIds(d) && SettledBelow(d, depth)
            && forall k | k in c && Depth(k.kind) <= depth && (Settled(c, k) || Tries(many, k)) :: Settled(d, k)
    decreases |many|
  {
    hide RefsResolve, NoDamagedIds, SettledBelow, Smooth, Step;
    if many != [] {
      var d := Step(c, many[0]);
      SmoothStep(c, many[0], depth);
      SmoothRun(d, many[1..], depth);
      forall k | k in c && Depth(k.kind) <= depth && (Settled(c, k) || Tries(many, k))
        ensures Settled(d, k) || Tries(many[1..], k)
      {
        if k != many[0].key && !Settled(c, k) {
          TriesLater(many, k);
        } else if k != many[0].key {
          assert d[k] == c[k];
        }
      }
    }
  }

  ghost predicate Tries(many: seq<Attempt>, k: Key) {
    exists i :: 0 <= i < |many| && many[i].key == k
  }

  lemma TriesLater(many: seq<Attempt>, k: Key)
    requires Tries(many, k) && many[0].key != k
    ensures Tries(many[1..], k)
  {
    var i :| 0 <= i < |many| && many[i].key == k;
    assert many[1..][i - 1].key == k;
  }

  /** A round: at least one pass for every resource, in any order. */
  ghost predicate IsRound(c: Cluster, many: seq<Attempt>) {
    forall k | k in c :: Tries(many, k)
  }

  function AfterRounds(c: Cluster, rounds: seq<seq<Attempt>>): Cluster
    decreases |rounds|
  {
    if rounds == [] then c else AfterRounds(Steps(c, rounds[0]), rounds[1..])
  }

  ghost predicate SmoothRounds(c: Cluster, rounds: seq<seq<Attempt>>)
    decreases |rounds|
  {
    rounds == [] ||
    (IsRound(c, rounds[0]) && AllSmooth(c, rounds[0]) && SmoothRounds(Steps(c, rounds[0]), rounds[1..]))
  }

  lemma {:induction false} RoundsSettle(c: Cluster, rounds: seq<seq<Attempt>>, depth: nat)
    requires RefsResolve(c) && NoDamagedIds(c) && SmoothRounds(c, rounds) && SettledBelow(c, depth)
    ensures AfterRounds(c, rounds).Keys == c.Keys && SettledBelow(AfterRounds(c, rounds), depth + |rounds|)
    decreases |rounds|
  {
    if rounds != [] {
      SmoothRun(c, rounds[0], depth);
      var d := Steps(c, rounds[0]);
      assert SettledBelow(d, depth + 1);
      RoundsSettle(d, rounds[1..], depth + 1);
    }
  }

  /** Bounded convergence: with every call succeeding and no damaged ids at the start, a resource of depth n is Ready after
      n + 1 rounds, whatever the order within each round, and from whatever readiness before; so after five
      rounds every resource is, however many there are. */
  lemma FiveRoundsSuffice(c: Cluster, rounds: seq<seq<Attempt>>)
    requires RefsResolve(c) && NoDamagedIds(c) && SmoothRounds(c, rounds)
    ensures var d := AfterRounds(c, rounds);
            && d.Keys == c.Keys
            && (forall k | k in c && Depth(k.kind) < |rounds| :: ReadyIn(d, k))
            && (|rounds| >= 5 ==> forall k | k in c :: ReadyIn(d, k))
  {
    RoundsSettle(c, rounds, 0);
    var d := AfterRounds(c, rounds);
    forall k | k in c && Depth(k.kind) < |rounds| ensures ReadyIn(d, k) {
      assert Settled(d, k);
    }
    forall k | k in c ensures Depth(k.kind) < 5 {}
  }

  // ---------------------------------------------------------------- there are smooth rounds

  lemma SmoothAttempt(c: Cluster, k: Key) returns (a: Attempt)
    requires k in c
    ensures Smooth(c, a) && a.key == k && Step(c, a).Keys == c.Keys
  {
    hide SmoothOutcome;
    var o := CanBeSmooth(c, k);
    a := Attempt(k, Sight(c.Keys, set j | j in c && j.kind == Instance :: j.name), o, 0, true);
    assert SeesAll(c, a.sight);
  }

  lemma {:induction false} SmoothOrder(c: Cluster, keys: seq<Key>) returns (many: seq<Attempt>)
    requires forall k | k in keys :: k in c
    ensures AllSmooth(c, many) && |many| == |keys| && forall i :: 0 <= i < |keys| ==> many[i].key == keys[i]
    decreases |keys|
  {
    hide Smooth, Step;
    many := [];
    if keys != [] {
      var a := SmoothAttempt(c, keys[0]);
      var rest := SmoothOrder(Step(c, a), keys[1..]);
      many := [a] + rest;
      assert many[1..] == rest;
    }
  }

  lemma OrderIsRound(c: Cluster, many: seq<Attempt>, keys: seq<Key>)
    requires |many| == |keys| && forall i :: 0 <= i < |keys| ==> many[i].key == keys[i]
    requires forall k | k in c :: k in keys
    ensures IsRound(c, many)
  {
    forall k | k in c ensures Tries(many, k) {
      var i :| 0 <= i < |keys| && keys[i] == k;
      assert many[i].key == k;
    }
  }

  /** The hypothesis of FiveRoundsSuffice can be met from every cluster, new resources included, by rounds that
      take the resources in any given orders. */
  lemma {:induction false} SmoothRoundsExist(c: Cluster, orders: seq<seq<Key>>) returns (rounds: seq<seq<Attempt>>)
    requires forall i, k :: 0 <= i < |orders| ==> (k in orders[i] <==> k in c)
    ensures SmoothRounds(c, rounds) && |rounds| == |orders|
    ensures forall i :: 0 <= i < |orders| ==> |rounds[i]| == |orders[i]|
    ensures forall i, j :: 0 <= i < |orders| && 0 <= j < |orders[i]| ==> rounds[i][j].key == orders[i][j]
    decreases |orders|
  {
    hide AllSmooth, IsRound, Steps;
    rounds := [];
    if orders != [] {
      assert forall k :: k in orders[0] <==> k in c;
      var many := SmoothOrder(c, orders[0]);
      var d := Steps(c, many);
      StepsKeepKeys(c, many);
      OrderIsRound(c, many, orders[0]);
      var rest := SmoothRoundsExist(d, orders[1..]);
      rounds := [many] + rest;
      assert rounds[1..] == rest;
    }
  }

  lemma {:induction false} StepsKeepKeys(c: Cluster, many: seq<Attempt>)
    ensures Steps(c, many).Keys == c.Keys
    decreases |many|
  {
    if many != [] {
      StepsKeepKeys(Step(c, many[0]), many[1..]);
    }
  }
}
