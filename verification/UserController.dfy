/** The service-user reconciler as it runs: loops and calls that change the remote account and the
    in-memory resource step by step. */
module UserController {
  import opened Prelude
  import opened Remote
  import opened StatusPatch
  import M = UserModel

  /** The remote user API. */
  class UserClient {
    const policy: M.Policy
    var dir: Registry<M.Account>
    var script: seq<M.Turn>
    var calls: seq<M.Call>

    constructor (w: M.World)
      ensures View() == w
    {
      policy, dir, script, calls := w.policy, w.dir, w.script, w.calls;
    }

    function View(): M.World
      reads this
    {
      M.World(dir, policy, script, calls)
    }

    /** Third parties act, then the call meets its fate. */
    method Begin() returns (fault: Fault)
      modifies this
      ensures fault == M.NextFault(old(View())) && View() == M.Arrive(old(View()))
    {
      fault := Clean;
      if script != [] {
        fault := script[0].fault;
        dir := M.AllEdited(dir, script[0].edits);
        script := script[1..];
      }
    }

    method Get(id: Id) returns (reply: Reply<()>)
      modifies this
      ensures (View(), reply) == M.Get(old(View()), id)
    {
      var fault := Begin();
      calls := calls + [M.GetCall(id)];
      reply := if fault != Clean then Failed else if Has(dir, id) then Ok(()) else NotFound;
    }

    method List() returns (reply: Reply<seq<Item<M.Account>>>)
      modifies this
      ensures (View(), reply) == M.List(old(View()))
    {
      var fault := Begin();
      calls := calls + [M.ListCall];
      reply := if fault != Clean then Failed else Ok(Page(dir));
    }

    method CreateServiceUser(username: string) returns (reply: Reply<Id>)
      modifies this
      ensures (View(), reply) == M.Create(old(View()), username)
    {
      var fault := Begin();
      reply := if fault == Clean then Ok(|dir|) else Failed;
      calls := calls + [M.CreateCall(username, fault != NoEffect, fault == Clean)];
      if fault != NoEffect {
        dir := dir + [Some(M.Account(username, true, "", map[]))];
      }
    }

    method Patch(id: Id, displayName: string) returns (reply: Reply<()>)
      modifies this
      ensures (View(), reply) == M.PatchName(old(View()), id, displayName)
    {
      var fault := Begin();
      var landed := fault != NoEffect && Has(dir, id);
      calls := calls + [M.PatchCall(id, landed, landed && fault == Clean)];
      if landed {
        dir := Put(dir, id, dir[id].value.(displayName := displayName));
      }
      reply := if fault != Clean then Failed else if landed then Ok(()) else NotFound;
    }

    method AssociateServiceUserPublicKey(id: Id, kid: string, pem: string) returns (reply: Reply<()>)
      modifies this
      ensures (View(), reply) == M.Associate(old(View()), id, kid, pem)
    {
      var fault := Begin();
      var known := Has(dir, id);
      var landed := fault != NoEffect && known && (policy.Upsert? || kid !in dir[id].value.keys);
      calls := calls + [M.AssociateCall(id, kid, landed, landed && fault == Clean)];
      if landed {
        dir := Put(dir, id, dir[id].value.(keys := dir[id].value.keys[kid := pem]));
      }
      reply := if fault != Clean then Failed else if landed then Ok(()) else if !known then NotFound else Failed;
    }

    method RemoveServiceUserPublicKey(id: Id, kid: string) returns (reply: Reply<()>)
      modifies this
      ensures (View(), reply) == M.Remove(old(View()), id, kid)
    {
      var fault := Begin();
      var landed := fault != NoEffect && Has(dir, id) && kid in dir[id].value.keys;
      calls := calls + [M.RemoveCall(id, kid, landed, fault == Clean)];
      if landed {
        dir := Put(dir, id, dir[id].value.(keys := dir[id].value.keys - {kid}));
      }
      reply := if fault != Clean then Failed else if landed then Ok(()) else NotFound;
    }
  }

  /** Finds the account by stored id, else by username, else creates it. The stored id is cleared on 404
      and set as soon as the account is known, whatever happens later in the pass. */
  method EnsureServiceUser(uc: UserClient, user: Resource<M.UserSpec>) returns (id: Option<Id>, failure: string)
    modifies uc, user`id
    ensures M.Ensured(uc.View(), user.id, id, failure)
            == M.Ensure(old(uc.View()), user.spec.username, old(user.id))
  {
    if user.id.Issued? {
      var stored := user.id.id;
      var got := uc.Get(stored);
      if got.Ok? {
        return Some(stored), "";
      }
      if !got.NotFound? {
        return None, "GetFailed";
      }
      user.id := Empty;
    }
    ghost var w, held := uc.View(), user.id;
    var listed := uc.List();
    if !listed.Ok? {
      return None, "ListFailed";
    }
    var page := listed.value;
    for i := 0 to |page|
      invariant FirstMatch(page, M.Wanted(user.spec.username)) == FirstMatch(page[i..], M.Wanted(user.spec.username))
    {
      assert page[i..][1..] == page[i + 1..];
      if page[i].value.username == user.spec.username && page[i].value.isService {
        user.id := Issued(page[i].id);
        return Some(page[i].id), "";
      }
    }
    var created := uc.CreateServiceUser(user.spec.username);
    if !created.Ok? {
      return None, "CreateFailed";
    }
    user.id := Issued(created.value);
    return Some(created.value), "";
  }

  /** Associates the desired keys that are not in the ledger, and enters each at once. */
  method AddMissing(uc: UserClient, user: Resource<M.UserSpec>, id: Id, desired: map<string, string>, order: seq<string>)
    returns (failure: Option<string>)
    requires Elements(order) <= desired.Keys
    modifies uc, user`managed
    ensures M.KeySync(uc.View(), user.managed, failure) == M.AddAll(old(uc.View()), id, desired, order, old(user.managed))
  {
    var managed: set<string> := {};
    for i := 0 to |user.managed|
      invariant managed == Elements(user.managed[..i])
    {
      managed := managed + {user.managed[i]};
    }
    assert user.managed[..|user.managed|] == user.managed;
    ghost var whole := M.AddAll(uc.View(), id, desired, order, user.managed);
    for i := 0 to |order|
      invariant managed == Elements(user.managed)
      invariant Elements(order[i..]) <= desired.Keys
      invariant whole == M.AddAll(uc.View(), id, desired, order[i..], user.managed)
    {
      assert order[i] in Elements(order);
      assert order[i..][1..] == order[i + 1..];
      if order[i] in managed {
        continue;
      }
      var reply := uc.AssociateServiceUserPublicKey(id, order[i], desired[order[i]]);
      if !reply.Ok? {
        return Some("AssociateKeyFailed");
      }
      user.managed := user.managed + [order[i]];
      managed := managed + {order[i]};
    }
    return None;
  }

  /** The additive key sync. `order` is the order in which the runtime happens to iterate over the
      desired keys. An aborted removal phase leaves the ledger as it was when the phase began. */
  method ReconcileKeys(uc: UserClient, user: Resource<M.UserSpec>, id: Id, order: seq<string>)
    returns (failure: Option<string>)
    requires M.IsOrder(order, M.Desired(user.spec.keys))
    modifies uc, user`managed
    ensures M.KeySync(uc.View(), user.managed, failure)
            == M.SyncKeys(old(uc.View()), id, M.Desired(user.spec.keys), order, old(user.managed))
  {
    var desired: map<string, string> := map[];
    for i := 0 to |user.spec.keys|
      invariant desired == M.Desired(user.spec.keys[..i])
    {
      desired := desired[user.spec.keys[i].kid := user.spec.keys[i].pem];
      assert user.spec.keys[..i + 1][..i] == user.spec.keys[..i];
    }
    assert user.spec.keys[..|user.spec.keys|] == user.spec.keys;
    failure := AddMissing(uc, user, id, desired, order);
    if failure.Some? {
      return;
    }
    label Dropping:
    var kept: seq<string> := [];
    ghost var phase := M.DropAll(uc.View(), id, desired, user.managed, kept);
    for i := 0 to |user.managed|
      invariant user.managed == old@Dropping(user.managed)
      invariant phase == M.DropAll(uc.View(), id, desired, user.managed[i..], kept)
    {
      assert user.managed[i..][1..] == user.managed[i + 1..];
      if user.managed[i] in desired {
        kept := kept + [user.managed[i]];
        continue;
      }
      var reply := uc.RemoveServiceUserPublicKey(id, user.managed[i]);
      if reply.Failed? {
        return Some("RemoveKeyFailed");
      }
    }
    user.managed := kept;
    return None;
  }

  /** The pass after the readiness gates: account, display name, keys, one status write. */
  method ReconcileWithClient(uc: UserClient, user: Resource<M.UserSpec>, sp: StatusPatcher<M.UserSpec>,
                             order: seq<string>, detail: string, now: int, fault: Fault)
    returns (result: Result)
    requires M.IsOrder(order, M.Desired(user.spec.keys)) && sp.resource == user
    modifies uc, user, sp.server
    ensures var p := M.UserPass(old(uc.View()), user.spec, old(user.View()), order);
            && uc.View() == p.w
            && user.View() == M.NextStatus(p, old(user.View()), detail, now)
    ensures sp.server.document
            == Written(old(sp.server.document), user.manifest, sp.base, user.View(), user.idField, fault)
    ensures result == if fault.Clean? then RequeueAfter else Error
  {
    var id, failure := EnsureServiceUser(uc, user);
    if id.None? {
      result := sp.SetNotReady(failure, detail, now, fault);
      return;
    }
    if user.spec.displayName.Some? {
      var renamed := uc.Patch(id.value, user.spec.displayName.value);
      if !renamed.Ok? {
        result := sp.SetNotReady("PatchFailed", detail, now, fault);
        return;
      }
    }
    var keyFailure := ReconcileKeys(uc, user, id.value, order);
    if keyFailure.Some? {
      result := sp.SetNotReady(keyFailure.value, detail, now, fault);
      return;
    }
    result := sp.SetReady("Synced", "User synced", now, fault);
  }
}
