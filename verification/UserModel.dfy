/** What one pass of the service-user reconciler computes
    (internal/controller/keylineuser_controller.go), as functions of the remote state, the status and
    the outcome of every remote call. */
module UserModel {
  import opened Prelude
  import opened Remote
  import opened StatusPatch

  datatype PublicKey = PublicKey(kid: string, pem: string)
  datatype UserSpec = UserSpec(username: string, displayName: Option<string>, keys: seq<PublicKey>)

  /** A remote account; `keys` maps key ids to PEM text. */
  datatype Account = Account(username: string, isService: bool, displayName: string, keys: map<string, string>)

  /** Whether associating a key id the account already has replaces the key or is refused. */
  datatype Policy = Upsert | Refuse

  /** What third parties may do to the server between two calls of the operator. */
  datatype Edit =
    | SetKey(id: Id, kid: string, pem: string)
    | DropKey(id: Id, kid: string)
    | Register(account: Account)
    | Delete(id: Id)

  datatype Turn = Turn(edits: seq<Edit>, fault: Fault)

  /** One remote call: `landed` when it took effect, `answered` when the operator got no error (for a
      removal, 404 counts as an answer). */
  datatype Call =
    | GetCall(id: Id)
    | ListCall
    | CreateCall(username: string, landed: bool, answered: bool)
    | PatchCall(id: Id, landed: bool, answered: bool)
    | AssociateCall(id: Id, kid: string, landed: bool, answered: bool)
    | RemoveCall(id: Id, kid: string, landed: bool, answered: bool)

  /** The server, what will befall the next calls, and the calls made so far. */
  datatype World = World(dir: Registry<Account>, policy: Policy, script: seq<Turn>, calls: seq<Call>)

  // ---------------------------------------------------------------- the server

  function Edited(dir: Registry<Account>, e: Edit): Registry<Account> {
    match e
    case SetKey(id, kid, pem) =>
      if Has(dir, id) then Put(dir, id, dir[id].value.(keys := dir[id].value.keys[kid := pem])) else dir
    case DropKey(id, kid) =>
      if Has(dir, id) then Put(dir, id, dir[id].value.(keys := dir[id].value.keys - {kid})) else dir
    case Register(account) => dir + [Some(account)]
    case Delete(id) => if Has(dir, id) then dir[id := None] else dir
  }

  function AllEdited(dir: Registry<Account>, edits: seq<Edit>): Registry<Account>
    decreases |edits|
  {
    if edits == [] then dir else AllEdited(Edited(dir, edits[0]), edits[1..])
  }

  function NextFault(w: World): Fault {
    if w.script == [] then Clean else w.script[0].fault
  }

  /** The world as the next call finds it; beyond its script every call is clean. */
  function Arrive(w: World): World {
    if w.script == [] then w
    else w.(dir := AllEdited(w.dir, w.script[0].edits), script := w.script[1..])
  }

  function Log(w: World, c: Call): World {
    w.(calls := w.calls + [c])
  }

  function Get(w: World, id: Id): (World, Reply<()>) {
    var a := Arrive(w);
    (Log(a, GetCall(id)),
     if NextFault(w) != Clean then Failed else if Has(a.dir, id) then Ok(()) else NotFound)
  }

  function List(w: World): (World, Reply<seq<Item<Account>>>) {
    var a := Arrive(w);
    (Log(a, ListCall), if NextFault(w) != Clean then Failed else Ok(Page(a.dir)))
  }

  function Create(w: World, username: string): (World, Reply<Id>) {
    var a := Arrive(w);
    var landed, answered := NextFault(w) != NoEffect, NextFault(w) == Clean;
    (Log(if landed then a.(dir := a.dir + [Some(Account(username, true, "", map[]))]) else a,
         CreateCall(username, landed, answered)),
     if answered then Ok(|a.dir|) else Failed)
  }

  function PatchName(w: World, id: Id, displayName: string): (World, Reply<()>) {
    var a := Arrive(w);
    var landed := NextFault(w) != NoEffect && Has(a.dir, id);
    (Log(if landed then a.(dir := Put(a.dir, id, a.dir[id].value.(displayName := displayName))) else a,
         PatchCall(id, landed, landed && NextFault(w) == Clean)),
     if NextFault(w) != Clean then Failed else if landed then Ok(()) else NotFound)
  }

  function Associate(w: World, id: Id, kid: string, pem: string): (World, Reply<()>) {
    var a := Arrive(w);
    var landed := NextFault(w) != NoEffect && Has(a.dir, id) && (w.policy.Upsert? || kid !in a.dir[id].value.keys);
    (Log(if landed then a.(dir := Put(a.dir, id, a.dir[id].value.(keys := a.dir[id].value.keys[kid := pem]))) else a,
         AssociateCall(id, kid, landed, landed && NextFault(w) == Clean)),
     if NextFault(w) != Clean then Failed
     else if landed then Ok(())
     else if !Has(a.dir, id) then NotFound
     else Failed)
  }

  function Remove(w: World, id: Id, kid: string): (World, Reply<()>) {
    var a := Arrive(w);
    var landed := NextFault(w) != NoEffect && Has(a.dir, id) && kid in a.dir[id].value.keys;
    (Log(if landed then a.(dir := Put(a.dir, id, a.dir[id].value.(keys := a.dir[id].value.keys - {kid}))) else a,
         RemoveCall(id, kid, landed, NextFault(w) == Clean)),
     if NextFault(w) != Clean then Failed else if landed then Ok(()) else NotFound)
  }

  // ---------------------------------------------------------------- the pass

  function Desired(keys: seq<PublicKey>): map<string, string> {
    if keys == [] then map[] else Desired(keys[..|keys| - 1])[keys[|keys| - 1].kid := keys[|keys| - 1].pem]
  }

  /** An order in which the runtime may iterate over the desired keys. */
  ghost predicate IsOrder(order: seq<string>, desired: map<string, string>) {
    NoDup(order) && Elements(order) == desired.Keys
  }

  datatype KeySync = KeySync(w: World, managed: seq<string>, failure: Option<string>)

  function AddAll(w: World, id: Id, desired: map<string, string>, order: seq<string>, managed: seq<string>): KeySync
    requires Elements(order) <= desired.Keys
    decreases |order|
  {
    if order == [] then KeySync(w, managed, None)
    else
      assert order[0] in Elements(order);
      if order[0] in managed then AddAll(w, id, desired, order[1..], managed)
      else
        var (w', reply) := Associate(w, id, order[0], desired[order[0]]);
        if reply.Ok? then AddAll(w', id, desired, order[1..], managed + [order[0]])
        else KeySync(w', managed, Some("AssociateKeyFailed"))
  }

  /** `managed` of the result is the list of kept key ids. */
  function DropAll(w: World, id: Id, desired: map<string, string>, todo: seq<string>, kept: seq<string>): KeySync
    decreases |todo|
  {
    if todo == [] then KeySync(w, kept, None)
    else if todo[0] in desired then DropAll(w, id, desired, todo[1..], kept + [todo[0]])
    else
      var (w', reply) := Remove(w, id, todo[0]);
      if reply.Failed? then KeySync(w', kept, Some("RemoveKeyFailed"))
      else DropAll(w', id, desired, todo[1..], kept)
  }

  /** An aborted removal phase leaves the status list as it was when the phase began. */
  function SyncKeys(w: World, id: Id, desired: map<string, string>, order: seq<string>, managed: seq<string>): KeySync
    requires Elements(order) <= desired.Keys
  {
    var added := AddAll(w, id, desired, order, managed);
    if added.failure.Some? then added
    else
      var dropped := DropAll(added.w, id, desired, added.managed, []);
      if dropped.failure.Some? then dropped.(managed := added.managed) else dropped
  }

  datatype Ensured = Ensured(w: World, stored: StoredId, id: Option<Id>, failure: string)

  function Wanted(username: string): Account -> bool {
    (a: Account) => a.username == username && a.isService
  }

  function FindOrCreate(w: World, username: string, stored: StoredId): Ensured {
    var (w1, listed) := List(w);
    if !listed.Ok? then Ensured(w1, stored, None, "ListFailed")
    else match FirstMatch(listed.value, Wanted(username))
      case Some(id) => Ensured(w1, Issued(id), Some(id), "")
      case None =>
        var (w2, created) := Create(w1, username);
        if created.Ok? then Ensured(w2, Issued(created.value), Some(created.value), "")
        else Ensured(w2, stored, None, "CreateFailed")
  }

  function Ensure(w: World, username: string, stored: StoredId): Ensured {
    if stored.Issued? then
      var (w1, got) := Get(w, stored.id);
      match got
      case Ok(_) => Ensured(w1, stored, Some(stored.id), "")
      case NotFound => FindOrCreate(w1, username, Empty)
      case Failed => Ensured(w1, stored, None, "GetFailed")
    else FindOrCreate(w, username, stored)
  }

  /** Display name first, then the keys. */
  function SyncAccount(w: World, id: Id, spec: UserSpec, order: seq<string>, managed: seq<string>): KeySync
    requires Elements(order) <= Desired(spec.keys).Keys
  {
    var (w1, renamed) := if spec.displayName.Some? then PatchName(w, id, spec.displayName.value) else (w, Ok(()));
    if !renamed.Ok? then KeySync(w1, managed, Some("PatchFailed"))
    else SyncKeys(w1, id, Desired(spec.keys), order, managed)
  }

  datatype Pass = Pass(w: World, stored: StoredId, managed: seq<string>, failure: Option<string>)

  /** Everything a pass does after the readiness gates, up to the status write. */
  function UserPass(w: World, spec: UserSpec, s: Status, order: seq<string>): Pass
    requires Elements(order) <= Desired(spec.keys).Keys
  {
    var e := Ensure(w, spec.username, s.id);
    if e.id.None? then Pass(e.w, e.stored, s.managed, Some(e.failure))
    else
      var k := SyncAccount(e.w, e.id.value, spec, order, s.managed);
      Pass(k.w, e.stored, k.managed, k.failure)
  }

  /** The status the pass tries to write; `detail` is the text of whatever error occurred. */
  function NextStatus(p: Pass, s: Status, detail: string, now: int): Status {
    var t := Status(p.stored, p.managed, s.conditions);
    if p.failure.None? then Conclude(t, true, "Synced", "User synced", now)
    else Conclude(t, false, p.failure.value, detail, now)
  }
}
