/** The role-assignment reconciler (internal/controller/keylineroleassignment_controller.go). */
module AssignmentModel {
  import opened Prelude
  import opened Remote
  import opened StatusPatch

  /** The users of each role in the order in which the server lists them. */
  type Membership = map<Id, seq<Id>>

  datatype Call =
    | ListCall(role: Id)
    | AssignCall(role: Id, user: Id, landed: bool, answered: bool)

  /** A strict server refuses to assign a role twice; another one accepts it without effect. */
  datatype World = World(members: Membership, strict: bool, script: seq<Fault>, calls: seq<Call>)

  function Served(w: World, members: Membership, c: Call): World {
    World(members, w.strict, Remaining(w.script), w.calls + [c])
  }

  function FirstPage(users: seq<Id>): seq<Id> {
    if |users| <= PAGE_SIZE then users else users[..PAGE_SIZE]
  }

  function ListUsers(w: World, role: Id): (World, Reply<seq<Id>>) {
    (Served(w, w.members, ListCall(role)),
     if Upcoming(w.script) != Clean then Failed else if role in w.members then Ok(FirstPage(w.members[role])) else NotFound)
  }

  function Assign(w: World, role: Id, user: Id): (World, Reply<()>) {
    var known := role in w.members;
    var landed := Upcoming(w.script) != NoEffect && known && user !in w.members[role];
    var answered := Upcoming(w.script) == Clean && known && (landed || !w.strict);
    (Served(w, if landed then w.members[role := w.members[role] + [user]] else w.members, AssignCall(role, user, landed, answered)),
     if answered then Ok(()) else if Upcoming(w.script) == Clean && !known then NotFound else Failed)
  }

  datatype Pass = Pass(w: World, failure: Option<string>)

  function AssignmentPass(w: World, role: StoredId, user: StoredId): Pass {
    if !role.Issued? then Pass(w, Some("RoleNotReady"))
    else if !user.Issued? then Pass(w, Some("UserNotReady"))
    else
      var (w1, listed) := ListUsers(w, role.id);
      if !listed.Ok? then Pass(w1, Some("ListFailed"))
      else if user.id in listed.value then Pass(w1, None)
      else
        var (w2, done) := Assign(w1, role.id, user.id);
        Pass(w2, if done.Ok? then None else Some("AssignFailed"))
  }

  function NextStatus(p: Pass, s: Status, detail: string, now: int): Status {
    if p.failure.None? then Conclude(s, true, "Synced", "Role assignment synced", now)
    else Conclude(s, false, p.failure.value, detail, now)
  }
}

/** The same pass as it runs. */
module AssignmentController {
  import opened Prelude
  import opened Remote
  import opened StatusPatch
  import M = AssignmentModel

  class RoleMembershipClient {
    const strict: bool
    var members: M.Membership
    var script: seq<Fault>
    var calls: seq<M.Call>

    constructor (w: M.World)
      ensures View() == w
    {
      strict, members, script, calls := w.strict, w.members, w.script, w.calls;
    }

    function View(): M.World
      reads this
    {
      M.World(members, strict, script, calls)
    }

    method Begin(c: M.Call) returns (fault: Fault)
      modifies this
      ensures fault == Upcoming(old(script)) && View() == M.Served(old(View()), old(members), c)
    {
      fault := Clean;
      calls := calls + [c];
      if script != [] {
        fault := script[0];
        script := script[1..];
      }
    }

    method ListUsers(role: Id) returns (reply: Reply<seq<Id>>)
      modifies this
      ensures (View(), reply) == M.ListUsers(old(View()), role)
    {
      var fault := Begin(M.ListCall(role));
      reply := if fault != Clean then Failed else if role in members then Ok(M.FirstPage(members[role])) else NotFound;
    }

    method Assign(role: Id, user: Id) returns (reply: Reply<()>)
      modifies this
      ensures (View(), reply) == M.Assign(old(View()), role, user)
    {
      var known := role in members;
      var landed := Upcoming(script) != NoEffect && known && user !in members[role];
      var answered := Upcoming(script) == Clean && known && (landed || !strict);
      var fault := Begin(M.AssignCall(role, user, landed, answered));
      if landed {
        members := members[role := members[role] + [user]];
      }
      reply := if answered then Ok(()) else if fault == Clean && !known then NotFound else Failed;
    }
  }

  /** The remote part of a pass. */
  method Sync(rc: RoleMembershipClient, role: StoredId, user: StoredId) returns (failure: Option<string>)
    modifies rc
    ensures M.Pass(rc.View(), failure) == M.AssignmentPass(old(rc.View()), role, user)
  {
    if !role.Issued? {
      return Some("RoleNotReady");
    }
    if !user.Issued? {
      return Some("UserNotReady");
    }
    var listed := rc.ListUsers(role.id);
    if !listed.Ok? {
      return Some("ListFailed");
    }
    var isAssigned := false;
    var i := 0;
    while i < |listed.value|
      invariant 0 <= i <= |listed.value|
      invariant !isAssigned && user.id !in listed.value[..i]
    {
      if listed.value[i] == user.id {
        isAssigned := true;
        break;
      }
      i := i + 1;
    }
    if !isAssigned {
      var done := rc.Assign(role.id, user.id);
      if !done.Ok? {
        return Some("AssignFailed");
      }
    }
    return None;
  }

  /** One pass. `blocked` is the reason the readiness gates gave, if any; `role` and `user` are the ids in
      the statuses of the resources the assignment refers to. */
  method Reconcile(rc: RoleMembershipClient, assignment: Resource<()>, sp: StatusPatcher<()>, blocked: Option<string>,
                   role: StoredId, user: StoredId, detail: string, now: int, fault: Fault)
    returns (result: Result)
    requires sp.resource == assignment
    modifies rc, assignment, sp.server
    ensures blocked.Some? ==>
              && rc.View() == old(rc.View())
              && assignment.View() == Conclude(old(assignment.View()), false, blocked.value, detail, now)
    ensures blocked.None? ==>
              var p := M.AssignmentPass(old(rc.View()), role, user);
              rc.View() == p.w && assignment.View() == M.NextStatus(p, old(assignment.View()), detail, now)
    ensures sp.server.document
            == Written(old(sp.server.document), assignment.manifest, sp.base, assignment.View(), assignment.idField, fault)
    ensures result == if fault.Clean? then RequeueAfter else Error
  {
    if blocked.Some? {
      result := sp.SetNotReady(blocked.value, detail, now, fault);
      return;
    }
    var failure := Sync(rc, role, user);
    if failure.Some? {
      result := sp.SetNotReady(failure.value, detail, now, fault);
    } else {
      result := sp.SetReady("Synced", "Role assignment synced", now, fault);
    }
  }
}

/** Membership over runs of many assignments. */
module AssignmentProperties {
  import opened Prelude
  import opened Remote
  import opened StatusPatch
  import opened AssignmentModel
  import MergePatch

  datatype Pair = Pair(role: Id, user: Id)

  predicate IsMember(m: Membership, p: Pair) {
    p.role in m && p.user in m[p.role]
  }

  /** Passes for any of the assignments, with whatever failures they meet, and whatever third parties make of
      the membership between them. */
  datatype Attempt = For(pair: Pair, script: seq<Fault>) | ThirdParty(members: Membership)

  function Tried(m: Membership, strict: bool, calls: seq<Call>, a: Attempt): (Membership, seq<Call>) {
    match a
    case For(pair, script) =>
      var p := AssignmentPass(World(m, strict, script, calls), Issued(pair.role), Issued(pair.user));
      (p.w.members, p.w.calls)
    case ThirdParty(members) => (members, calls)
  }

  function TriedAll(m: Membership, strict: bool, calls: seq<Call>, many: seq<Attempt>): (Membership, seq<Call>)
    decreases |many|
  {
    if many == [] then (m, calls) else
      var (m', c) := Tried(m, strict, calls, many[0]);
      TriedAll(m', strict, c, many[1..])
  }

  /** Third parties neither add nor revoke this pair, nor add or delete its role. */
  ghost predicate Spared(m: Membership, strict: bool, calls: seq<Call>, many: seq<Attempt>, q: Pair)
    decreases |many|
  {
    many == [] ||
    var (m', c) := Tried(m, strict, calls, many[0]);
    && (many[0].ThirdParty? ==> IsMember(m', q) == IsMember(m, q) && (q.role in m' <==> q.role in m))
    && Spared(m', strict, c, many[1..], q)
  }

  predicate Declared(a: Attempt, q: Pair) {
    a.For? && a.pair == q
  }

  /** A pass changes the membership by at most its own pair, and never takes a user out. */
  lemma PassAddsAtMostItsPair(w: World, pair: Pair)
    ensures var p := AssignmentPass(w, Issued(pair.role), Issued(pair.user));
            && p.w.members.Keys == w.members.Keys && p.w.strict == w.strict
            && forall q ::
                 && (IsMember(w.members, q) ==> IsMember(p.w.members, q))
                 && (IsMember(p.w.members, q) ==> IsMember(w.members, q) || q == pair)
    ensures w.script == [] && pair.role in w.members ==>
              IsMember(AssignmentPass(w, Issued(pair.role), Issued(pair.user)).w.members, pair)
  {
    var (w1, listed) := ListUsers(w, pair.role);
    if listed.Ok? {
      assert forall u | u in listed.value :: u in w.members[pair.role];
    }
  }

  lemma {:induction false} RunAddsAtMostDeclared(m: Membership, strict: bool, calls: seq<Call>, many: seq<Attempt>, q: Pair)
    requires Spared(m, strict, calls, many, q)
    ensures var m' := TriedAll(m, strict, calls, many).0;
            && (IsMember(m, q) ==> IsMember(m', q))
            && (IsMember(m', q) ==> IsMember(m, q) || (q.role in m && exists i :: 0 <= i < |many| && Declared(many[i], q)))
    decreases |many|
  {
    if many != [] {
      if many[0].For? {
        PassAddsAtMostItsPair(World(m, strict, many[0].script, calls), many[0].pair);
      }
      var (m1, c1) := Tried(m, strict, calls, many[0]);
      RunAddsAtMostDeclared(m1, strict, c1, many[1..], q);
      if i :| 0 <= i < |many[1..]| && Declared(many[1..][i], q) {
        assert Declared(many[i + 1], q);
      }
    }
  }

  /** Confluence. Whatever the order of the passes, whatever failed in between and whatever third parties did to
      other pairs: once the assignment of a pair with an existing role has had one clean pass, the pair is a
      member; and without such an assignment it is one exactly if it was at the start. So the members are
      the initial ones and the declared ones: nobody else, and nobody missing. */
  lemma {:induction false} MembershipConfluence(m: Membership, strict: bool, calls: seq<Call>, many: seq<Attempt>, q: Pair)
    requires Spared(m, strict, calls, many, q)
    requires forall i :: 0 <= i < |many| && Declared(many[i], q) ==>
               exists k :: 0 <= k < |many| && Declared(many[k], q) && many[k].script == []
    ensures IsMember(TriedAll(m, strict, calls, many).0, q)
            <==> IsMember(m, q) || (q.role in m && exists i :: 0 <= i < |many| && Declared(many[i], q))
    decreases |many|
  {
    RunAddsAtMostDeclared(m, strict, calls, many, q);
    if many != [] {
      var (m1, c1) := Tried(m, strict, calls, many[0]);
      if many[0].For? {
        PassAddsAtMostItsPair(World(m, strict, many[0].script, calls), many[0].pair);
      }
      if Declared(many[0], q) && many[0].script == [] {
        RunAddsAtMostDeclared(m1, strict, c1, many[1..], q);
      } else if k :| 0 <= k < |many| && Declared(many[k], q) && many[k].script == [] {
        assert Declared(many[1..][k - 1], q) && many[1..][k - 1].script == [];
        MembershipConfluence(m1, strict, c1, many[1..], q);
      }
    }
  }

  // ---------------------------------------------------------------- how often Assign is called

  function Succeeded(calls: seq<Call>, q: Pair): nat {
    if calls == [] then 0 else
      var c := calls[|calls| - 1];
      Succeeded(calls[..|calls| - 1], q) + (if c.AssignCall? && c.answered && Pair(c.role, c.user) == q then 1 else 0)
  }

  lemma LoggedSucceeded(calls: seq<Call>, c: Call, q: Pair)
    ensures Succeeded(calls + [c], q)
            == Succeeded(calls, q) + (if c.AssignCall? && c.answered && Pair(c.role, c.user) == q then 1 else 0)
  {
    assert (calls + [c])[..|calls|] == calls;
  }

  /** A listing shows the oldest thousand users of a role. */
  predicate AmongFirst(users: seq<Id>, user: Id) {
    exists i :: 0 <= i < |users| && i < 1000 && users[i] == user
  }

  lemma PageShowsFirst(users: seq<Id>, user: Id)
    ensures user in FirstPage(users) <==> AmongFirst(users, user)
  {
    if i :| 0 <= i < |users| && i < 1000 && users[i] == user {
      assert FirstPage(users)[i] == user;
    }
  }

  /** A listing of the pair's role shows all its users. */
  predicate Fits(m: Membership, q: Pair) {
    q.role in m ==> |m[q.role]| <= 1000
  }

  function Taken(m: Membership, q: Pair): nat {
    if IsMember(m, q) then 1 else 0
  }

  lemma PassSucceedsForNewcomersOnly(w: World, pair: Pair, q: Pair)
    requires Fits(w.members, q)
    ensures var p := AssignmentPass(w, Issued(pair.role), Issued(pair.user));
            && Succeeded(p.w.calls, q) - Taken(p.w.members, q) <= Succeeded(w.calls, q) - Taken(w.members, q)
            && Taken(w.members, q) <= Taken(p.w.members, q)
  {
    var (w1, listed) := ListUsers(w, pair.role);
    LoggedSucceeded(w.calls, ListCall(pair.role), q);
    if listed.Ok? && pair.user !in listed.value {
      var (w2, _) := Assign(w1, pair.role, pair.user);
      LoggedSucceeded(w1.calls, w2.calls[|w1.calls|], q);
    }
  }

  /** Whenever a pass runs, the role of this pair fits its page. */
  ghost predicate AlwaysFits(m: Membership, strict: bool, calls: seq<Call>, many: seq<Attempt>, q: Pair)
    decreases |many|
  {
    many == [] ||
    var (m', c) := Tried(m, strict, calls, many[0]);
    (many[0].For? ==> Fits(m, q)) && AlwaysFits(m', strict, c, many[1..], q)
  }

  /** How often in the run third parties revoke the pair, or delete its role. */
  function Revoked(m: Membership, strict: bool, calls: seq<Call>, many: seq<Attempt>, q: Pair): nat
    decreases |many|
  {
    if many == [] then 0 else
      var (m', c) := Tried(m, strict, calls, many[0]);
      (if Taken(m', q) < Taken(m, q) then 1 else 0) + Revoked(m', strict, c, many[1..], q)
  }

  lemma {:induction false} RunSucceeds(m: Membership, strict: bool, calls: seq<Call>, many: seq<Attempt>, q: Pair)
    requires AlwaysFits(m, strict, calls, many, q)
    ensures var (m', c') := TriedAll(m, strict, calls, many);
            Succeeded(c', q) - Taken(m', q) <= Succeeded(calls, q) - Taken(m, q) + Revoked(m, strict, calls, many, q)
    decreases |many|
  {
    if many != [] {
      if many[0].For? {
        PassSucceedsForNewcomersOnly(World(m, strict, many[0].script, calls), many[0].pair, q);
      }
      var (m1, c1) := Tried(m, strict, calls, many[0]);
      RunSucceeds(m1, strict, c1, many[1..], q);
    }
  }

  /** While its role has at most a page of users, Assign succeeds for a pair at most once more often than third
      parties revoke it over any run, and one time less if it was assigned at the start; the operator itself
      never revokes. So without revocations it succeeds at most once, and never for a pair assigned before. */
  lemma AssignSucceedsAtMostOnce(m: Membership, strict: bool, many: seq<Attempt>, q: Pair)
    requires AlwaysFits(m, strict, [], many, q)
    ensures Succeeded(TriedAll(m, strict, [], many).1, q) + Taken(m, q) <= 1 + Revoked(m, strict, [], many, q)
  {
    RunSucceeds(m, strict, [], many, q);
  }

  /** The page is where this ends: a clean pass calls Assign for a member exactly when the member is listed
      beyond the first page; and it ends Ready exactly when both ids parse, the role exists, and a strict
      server is not asked again in this way. */
  lemma ReadyIff(w: World, role: StoredId, user: StoredId)
    requires w.script == []
    ensures var p := AssignmentPass(w, role, user);
            p.failure.None? <==>
              && role.Issued? && user.Issued? && role.id in w.members
              && !(w.strict && user.id in w.members[role.id] && !AmongFirst(w.members[role.id], user.id))
    ensures role.Issued? && user.Issued? && role.id in w.members && user.id in w.members[role.id] ==>
              (|AssignmentPass(w, role, user).w.calls| == |w.calls| + 2 <==> !AmongFirst(w.members[role.id], user.id))
  {
    if role.Issued? && user.Issued? && role.id in w.members { PageShowsFirst(w.members[role.id], user.id); }
  }

  /** A pass without two server ids makes no call and says which is missing. Else it stops at the first call that
      fails, in any world: so success means that no call failed and the user has the role, and a failure names
      the kind of the last call. */
  lemma VerdictNamesTheCall(w: World, role: StoredId, user: StoredId)
    ensures var p := AssignmentPass(w, role, user);
            && (!role.Issued? ==> p == Pass(w, Some("RoleNotReady")))
            && (role.Issued? && !user.Issued? ==> p == Pass(w, Some("UserNotReady")))
            && (role.Issued? && user.Issued? ==>
                  && StopsAtFailure(w.script, |p.w.calls| - |w.calls|, p.failure.Some?)
                  && (p.failure.Some? ==> p.failure.value == if p.w.calls[|p.w.calls| - 1].ListCall? then "ListFailed" else "AssignFailed")
                  && (p.failure.None? ==> IsMember(p.w.members, Pair(role.id, user.id))))
  {
  }

  /** Once the user is listed, a clean pass at any later time only reads. */
  lemma AssignmentQuiescence(w: World, role: Id, user: Id, s: Status, detail: string, now: int, detail': string,
                             later: int, manifest: Doc, idField: string)
    requires w.script == [] && role in w.members && AmongFirst(w.members[role], user)
    ensures var p := AssignmentPass(w, Issued(role), Issued(user));
            var s1 := NextStatus(p, s, detail, now);
            var q := AssignmentPass(p.w, Issued(role), Issued(user));
            var s2 := NextStatus(q, s1, detail', later);
            && q.w.members == w.members && q.w.calls == w.calls + [ListCall(role)] + [ListCall(role)]
            && s2 == s1 && IsReady(s1)
            && MergePatch.Diff(Document(manifest, s1, idField), Document(manifest, s2, idField)) == MergePatch.Obj(map[])
  {
    PageShowsFirst(w.members[role], user);
    ConcludeAgain(s, true, "Synced", "Role assignment synced", now, later, manifest, idField);
  }
}
