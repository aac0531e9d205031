/** How often service accounts are created, over runs in which third parties may do anything to the accounts
    between any two calls. */
module UserAccounts {
  import opened Prelude
  import opened Remote
  import opened StatusPatch
  import opened UserModel
  import opened UserReplay
  import opened UserLedger

  function Created(calls: seq<Call>, username: string): nat {
    if calls == [] then 0 else
      var c := calls[|calls| - 1];
      Created(calls[..|calls| - 1], username) + (if c.CreateCall? && c.landed && c.username == username then 1 else 0)
  }

  lemma LoggedCreated(calls: seq<Call>, c: Call, username: string)
    ensures Created(calls + [c], username)
            == Created(calls, username) + (if c.CreateCall? && c.landed && c.username == username then 1 else 0)
  {
    assert (calls + [c])[..|calls|] == calls;
  }

  ghost predicate Present(dir: Registry<Account>, username: string) {
    !Nowhere(dir, 0, Wanted(username))
  }

  ghost function Taken(dir: Registry<Account>, username: string): nat {
    if Present(dir, username) then 1 else 0
  }

  function DeletesIn(edits: seq<Edit>): nat {
    if edits == [] then 0 else (if edits[0].Delete? then 1 else 0) + DeletesIn(edits[1..])
  }

  function Deletes(script: seq<Turn>): nat {
    if script == [] then 0 else DeletesIn(script[0].edits) + Deletes(script[1..])
  }

  /** Creations so far, and deletions still to come, less one if the account is there. No call lets this rise
      but a creation, and a creation only makes up for what its search saw missing. */
  ghost function Potential(w: World, username: string): int {
    Created(w.calls, username) + Deletes(w.script) - Taken(w.dir, username)
  }

  // ---------------------------------------------------------------- single calls

  lemma IdentityKept(d: Registry<Account>, e: Registry<Account>, username: string)
    requires forall i: nat | Has(d, i) && Wanted(username)(d[i].value) :: Has(e, i) && Wanted(username)(e[i].value)
    ensures Taken(d, username) <= Taken(e, username)
  {
  }

  lemma {:induction false} EditsTake(dir: Registry<Account>, edits: seq<Edit>, username: string)
    ensures Taken(AllEdited(dir, edits), username) + DeletesIn(edits) >= Taken(dir, username)
    decreases |edits|
  {
    if edits != [] {
      var next := Edited(dir, edits[0]);
      if !edits[0].Delete? {
        IdentityKept(dir, next, username);
      }
      EditsTake(next, edits[1..], username);
    }
  }

  lemma ArriveTakes(w: World, username: string)
    ensures var a := Arrive(w); Deletes(a.script) - Taken(a.dir, username) <= Deletes(w.script) - Taken(w.dir, username)
  {
    if w.script != [] {
      EditsTake(w.dir, w.script[0].edits, username);
    }
  }

  /** A call other than a creation leaves every account its name. */
  lemma OtherCallKeeps(w: World, after: World, c: Call, username: string)
    requires !c.CreateCall? && after.calls == w.calls + [c] && after.script == Arrive(w).script
    requires SameIdentities(Arrive(w).dir, after.dir)
    ensures Potential(after, username) <= Potential(w, username)
  {
    ArriveTakes(w, username);
    LoggedCreated(w.calls, c, username);
    IdentityKept(Arrive(w).dir, after.dir, username);
  }

  /** A creation after a search that saw no such account. */
  lemma CreateMakesUp(w: World, made: string, username: string)
    requires made == username ==> !Present(w.dir, username)
    ensures Potential(Create(w, made).0, username) <= Potential(w, username)
  {
    var after := Create(w, made).0;
    ArriveTakes(w, username);
    LoggedCreated(w.calls, after.calls[|w.calls|], username);
    IdentityKept(Arrive(w).dir, after.dir, username);
    if after.calls[|w.calls|].landed && made == username {
      assert Has(after.dir, |after.dir| - 1) && Wanted(username)(after.dir[|after.dir| - 1].value);
    }
  }

  // ---------------------------------------------------------------- one pass

  /** What the listing of a pass sees, if it makes one. */
  function ListedDir(w: World, stored: StoredId): Registry<Account> {
    if stored.Issued? then Arrive(Arrive(w)).dir else Arrive(w).dir
  }

  /** The pass makes a listing at all: it has no stored id, or finds that account gone. */
  predicate Lists(w: World, stored: StoredId) {
    !stored.Issued? || Get(w, stored.id).1.NotFound?
  }

  lemma FindKeepsPotential(w: World, username: string, stored: StoredId, u: string)
    requires FitsPage(Arrive(w).dir)
    ensures Potential(FindOrCreate(w, username, stored).w, u) <= Potential(w, u)
  {
    var (w1, listed) := List(w);
    OtherCallKeeps(w, w1, ListCall, u);
    if listed.Ok? && FirstMatch(listed.value, Wanted(username)).None? {
      SearchFits(w1.dir, Wanted(username));
      CreateMakesUp(w1, username, u);
      assert FindOrCreate(w, username, stored).w == Create(w1, username).0;
    } else {
      assert FindOrCreate(w, username, stored).w == w1;
    }
  }

  lemma EnsureKeepsPotential(w: World, username: string, stored: StoredId, u: string)
    requires Lists(w, stored) ==> FitsPage(ListedDir(w, stored))
    ensures Potential(Ensure(w, username, stored).w, u) <= Potential(w, u)
  {
    if stored.Issued? {
      var (w1, got) := Get(w, stored.id);
      OtherCallKeeps(w, w1, GetCall(stored.id), u);
      if got.NotFound? {
        FindKeepsPotential(w1, username, Empty, u);
      }
    } else {
      FindKeepsPotential(w, username, stored, u);
    }
  }

  lemma AssociateKeepsPotential(w: World, id: Id, kid: string, pem: string, u: string)
    ensures Potential(Associate(w, id, kid, pem).0, u) <= Potential(w, u)
  {
    var after := Associate(w, id, kid, pem).0;
    OtherCallKeeps(w, after, after.calls[|w.calls|], u);
  }

  lemma RemoveKeepsPotential(w: World, id: Id, kid: string, u: string)
    ensures Potential(Remove(w, id, kid).0, u) <= Potential(w, u)
  {
    var after := Remove(w, id, kid).0;
    OtherCallKeeps(w, after, after.calls[|w.calls|], u);
  }

  lemma {:induction false} AddAllKeepsPotential(w: World, id: Id, desired: map<string, string>, order: seq<string>,
                                                managed: seq<string>, u: string)
    requires Elements(order) <= desired.Keys
    ensures Potential(AddAll(w, id, desired, order, managed).w, u) <= Potential(w, u)
    decreases |order|
  {
    if order != [] {
      assert order[0] in Elements(order);
      if order[0] in managed {
        AddAllKeepsPotential(w, id, desired, order[1..], managed, u);
      } else {
        AssociateKeepsPotential(w, id, order[0], desired[order[0]], u);
        var (w', reply) := Associate(w, id, order[0], desired[order[0]]);
        if reply.Ok? {
          AddAllKeepsPotential(w', id, desired, order[1..], managed + [order[0]], u);
        }
      }
    }
  }

  lemma {:induction false} DropAllKeepsPotential(w: World, id: Id, desired: map<string, string>, todo: seq<string>,
                                                 kept: seq<string>, u: string)
    ensures Potential(DropAll(w, id, desired, todo, kept).w, u) <= Potential(w, u)
    decreases |todo|
  {
    if todo != [] {
      if todo[0] in desired {
        DropAllKeepsPotential(w, id, desired, todo[1..], kept + [todo[0]], u);
      } else {
        RemoveKeepsPotential(w, id, todo[0], u);
        var (w', reply) := Remove(w, id, todo[0]);
        if !reply.Failed? {
          DropAllKeepsPotential(w', id, desired, todo[1..], kept, u);
        }
      }
    }
  }

  lemma SyncKeysKeepsPotential(w: World, id: Id, desired: map<string, string>, order: seq<string>, managed: seq<string>, u: string)
    requires Elements(order) <= desired.Keys
    ensures Potential(SyncKeys(w, id, desired, order, managed).w, u) <= Potential(w, u)
  {
    AddAllKeepsPotential(w, id, desired, order, managed, u);
    var a := AddAll(w, id, desired, order, managed);
    if a.failure.None? {
      DropAllKeepsPotential(a.w, id, desired, a.managed, [], u);
    }
  }

  lemma SyncAccountKeepsPotential(w: World, id: Id, spec: UserSpec, order: seq<string>, managed: seq<string>, u: string)
    requires IsOrder(order, Desired(spec.keys))
    ensures Potential(SyncAccount(w, id, spec, order, managed).w, u) <= Potential(w, u)
  {
    hide Potential;
    if spec.displayName.Some? {
      PatchKeepsPotential(w, id, spec.displayName.value, u);
      var (w1, done) := PatchName(w, id, spec.displayName.value);
      if done.Ok? {
        SyncKeysKeepsPotential(w1, id, Desired(spec.keys), order, managed, u);
      }
    } else {
      SyncKeysKeepsPotential(w, id, Desired(spec.keys), order, managed, u);
    }
  }

  lemma PatchKeepsPotential(w: World, id: Id, displayName: string, u: string)
    ensures Potential(PatchName(w, id, displayName).0, u) <= Potential(w, u)
  {
    var after := PatchName(w, id, displayName).0;
    OtherCallKeeps(w, after, after.calls[|w.calls|], u);
  }

  lemma PassKeepsPotential(w: World, spec: UserSpec, s: Status, order: seq<string>, u: string)
    requires IsOrder(order, Desired(spec.keys)) && (Lists(w, s.id) ==> FitsPage(ListedDir(w, s.id)))
    ensures Potential(UserPass(w, spec, s, order).w, u) <= Potential(w, u)
  {
    hide Potential, ListedDir, Lists;
    var e := Ensure(w, spec.username, s.id);
    EnsureKeepsPotential(w, spec.username, s.id, u);
    if e.id.Some? {
      SyncAccountKeepsPotential(e.w, e.id.value, spec, order, s.managed, u);
    }
  }

  // ---------------------------------------------------------------- runs

  /** Passes of any user resources from any status, and third-party edits between them. An iteration order that
      is none for the spec is no pass. */
  datatype Attempt =
    | For(spec: UserSpec, status: Status, script: seq<Turn>, order: seq<string>)
    | Others(edits: seq<Edit>)

  ghost function Tried(dir: Registry<Account>, policy: Policy, calls: seq<Call>, a: Attempt): (Registry<Account>, seq<Call>) {
    match a
    case For(spec, status, script, order) =>
      if !IsOrder(order, Desired(spec.keys)) then (dir, calls) else
        var p := UserPass(World(dir, policy, script, calls), spec, status, order);
        (p.w.dir, p.w.calls)
    case Others(edits) => (AllEdited(dir, edits), calls)
  }

  ghost function TriedAll(dir: Registry<Account>, policy: Policy, calls: seq<Call>, many: seq<Attempt>): (Registry<Account>, seq<Call>)
    decreases |many|
  {
    if many == [] then (dir, calls) else
      var (d, c) := Tried(dir, policy, calls, many[0]);
      TriedAll(d, policy, c, many[1..])
  }

  function DeletesOf(many: seq<Attempt>): nat {
    if many == [] then 0
    else (if many[0].For? then Deletes(many[0].script) else DeletesIn(many[0].edits)) + DeletesOf(many[1..])
  }

  /** Every listing of the run sees at most a page of accounts. */
  ghost predicate AlwaysFits(dir: Registry<Account>, policy: Policy, calls: seq<Call>, many: seq<Attempt>)
    decreases |many|
  {
    many == [] ||
    var (d, c) := Tried(dir, policy, calls, many[0]);
    && (many[0].For? ==>
          var w := World(dir, policy, many[0].script, calls);
          Lists(w, many[0].status.id) ==> FitsPage(ListedDir(w, many[0].status.id)))
    && AlwaysFits(d, policy, c, many[1..])
  }

  lemma {:induction false} RunBound(dir: Registry<Account>, policy: Policy, calls: seq<Call>, many: seq<Attempt>, username: string)
    requires AlwaysFits(dir, policy, calls, many)
    ensures var (d, c) := TriedAll(dir, policy, calls, many);
            Created(c, username) - Taken(d, username) <= Created(calls, username) - Taken(dir, username) + DeletesOf(many)
    decreases |many|
  {
    if many != [] {
      match many[0] {
        case For(spec, status, script, order) =>
          if IsOrder(order, Desired(spec.keys)) {
            PassKeepsPotential(World(dir, policy, script, calls), spec, status, order, username);
          }
        case Others(edits) => EditsTake(dir, edits, username);
      }
      var (d, c) := Tried(dir, policy, calls, many[0]);
      RunBound(d, policy, c, many[1..], username);
    }
  }

  /** However many resources name the same username, whatever fails, is lost or is edited between any two
      calls: the operator creates at most one account per username, and none where one existed, plus one for
      each account third parties delete, as long as passes run one at a time and listings fit the page. */
  lemma AtMostOneAccount(dir: Registry<Account>, policy: Policy, many: seq<Attempt>, username: string)
    requires AlwaysFits(dir, policy, [], many)
    ensures Created(TriedAll(dir, policy, [], many).1, username) + Taken(dir, username) <= 1 + DeletesOf(many)
  {
    RunBound(dir, policy, [], many, username);
  }

  /** The page is where this ends: a clean pass without a usable stored id creates a second account exactly
      when a full page of live accounts precedes the first one of that name. */
  lemma SecondAccountIff(w: World, username: string, stored: StoredId)
    requires w.script == [] && !(stored.Issued? && Has(w.dir, stored.id)) && Present(w.dir, username)
    ensures Created(Ensure(w, username, stored).w.calls, username) > Created(w.calls, username)
            <==> BeyondPage(w.dir, Wanted(username))
  {
    MissedIff(w.dir, Wanted(username));
    var w0 := if stored.Issued? then Get(w, stored.id).0 else w;
    if stored.Issued? {
      LoggedCreated(w.calls, GetCall(stored.id), username);
    }
    var (w1, listed) := List(w0);
    LoggedCreated(w0.calls, ListCall, username);
    LoggedCreated(w1.calls, Create(w1, username).0.calls[|w1.calls|], username);
  }
}
