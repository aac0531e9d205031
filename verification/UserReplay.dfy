/** The service-user pass on a server that third parties leave alone: its exact effect, and why an
    interrupted pass can always be repeated. */
module UserReplay {
  import opened Prelude
  import opened Remote
  import opened StatusPatch
  import opened UserModel
  import MergePatch

  /** No third party acts during the calls of this world. */
  ghost predicate Quiet(w: World) {
    forall i :: 0 <= i < |w.script| ==> w.script[i].edits == []
  }

  // ---------------------------------------------------------------- one account

  /** The keys a successful sync leaves: wanted keys that were not managed get their PEM, managed keys
      that are not wanted are gone, all others stay as they are. */
  function Synced(keys: map<string, string>, desired: map<string, string>, managed: set<string>): map<string, string> {
    (map kid | kid in keys && (kid in managed ==> kid in desired) :: keys[kid]) +
    (map kid | kid in desired && kid !in managed :: desired[kid])
  }

  /** An account and its ledger somewhere between the start of a sync and its end. */
  ghost predicate Partway(desired: map<string, string>, k0: map<string, string>, m0: set<string>,
                          k1: map<string, string>, m1: set<string>)
  {
    forall kid ::
      if kid in desired && kid !in m0 then
        (At(k1, kid) == At(k0, kid) || At(k1, kid) == Some(desired[kid])) &&
        (kid in m1 ==> At(k1, kid) == Some(desired[kid]))
      else if kid in m0 && kid !in desired then
        (At(k1, kid) == At(k0, kid) || At(k1, kid) == None) &&
        (kid !in m1 ==> At(k1, kid) == None)
      else
        At(k1, kid) == At(k0, kid) && (kid in m1 <==> kid in m0)
  }

  lemma SyncedAt(keys: map<string, string>, desired: map<string, string>, managed: set<string>, kid: string)
    ensures At(Synced(keys, desired, managed), kid)
            == if kid in desired && kid !in managed then Some(desired[kid])
               else if kid in managed && kid !in desired then None
               else At(keys, kid)
  {
  }

  /** Wherever it stopped, a later sync ends in the same keys, with the new ledger or with the old. */
  lemma PartwayEndsTheSame(desired: map<string, string>, k0: map<string, string>, m0: set<string>,
                           k1: map<string, string>, m1: set<string>)
    requires Partway(desired, k0, m0, k1, m1)
    ensures Synced(k1, desired, m1) == Synced(k0, desired, m0)
    ensures Synced(k1, desired, m0) == Synced(k0, desired, m0)
    ensures m1 == desired.Keys ==> k1 == Synced(k0, desired, m0)
  {
    forall kid
      ensures At(Synced(k1, desired, m1), kid) == At(Synced(k0, desired, m0), kid)
      ensures At(Synced(k1, desired, m0), kid) == At(Synced(k0, desired, m0), kid)
      ensures m1 == desired.Keys ==> At(k1, kid) == At(Synced(k0, desired, m0), kid)
    {
      SyncedAt(k1, desired, m1, kid);
      SyncedAt(k1, desired, m0, kid);
      SyncedAt(k0, desired, m0, kid);
    }
    SameByAt(Synced(k1, desired, m1), Synced(k0, desired, m0));
    SameByAt(Synced(k1, desired, m0), Synced(k0, desired, m0));
    if m1 == desired.Keys {
      SameByAt(k1, Synced(k0, desired, m0));
    }
  }

  ghost function Keys(dir: Registry<Account>, id: Id): map<string, string>
    requires Has(dir, id)
  {
    dir[id].value.keys
  }

  /** Only the keys of account `id` differ. */
  ghost predicate OnlyKeys(d: Registry<Account>, e: Registry<Account>, id: Id) {
    Has(d, id) && Has(e, id) && e == Put(d, id, d[id].value.(keys := Keys(e, id)))
  }

  lemma AssociateEffect(w: World, id: Id, kid: string, pem: string) returns (landed: bool)
    requires Quiet(w) && Has(w.dir, id)
    ensures var (w', reply) := Associate(w, id, kid, pem);
            && Quiet(w') && OnlyKeys(w.dir, w'.dir, id)
            && Keys(w'.dir, id) == (if landed then Keys(w.dir, id)[kid := pem] else Keys(w.dir, id))
            && w'.calls == w.calls + [AssociateCall(id, kid, landed, reply.Ok?)]
            && (reply.Ok? ==> landed)
  {
    landed := NextFault(w) != NoEffect && (w.policy.Upsert? || kid !in Keys(w.dir, id));
  }

  lemma AssociatePartway(w: World, id: Id, desired: map<string, string>, kid: string, managed: seq<string>,
                         k0: map<string, string>, m0: set<string>)
    requires Quiet(w) && Has(w.dir, id) && kid in desired && kid !in managed
    requires Partway(desired, k0, m0, Keys(w.dir, id), Elements(managed))
    ensures var (w', reply) := Associate(w, id, kid, desired[kid]);
            && Quiet(w')
            && OnlyKeys(w.dir, w'.dir, id)
            && Partway(desired, k0, m0, Keys(w'.dir, id), Elements(if reply.Ok? then managed + [kid] else managed))
  {
    var landed := AssociateEffect(w, id, kid, desired[kid]);
    assert Elements(managed + [kid]) == Elements(managed) + {kid};
    var k1, m1 := Keys(w.dir, id), Elements(managed);
    assert Partway(desired, k0, m0, k1[kid := desired[kid]], m1 + {kid});
    assert Partway(desired, k0, m0, k1[kid := desired[kid]], m1);
  }

  lemma {:induction false} AddAllPartway(w: World, id: Id, desired: map<string, string>, order: seq<string>,
                                         managed: seq<string>, k0: map<string, string>, m0: set<string>)
    requires Quiet(w) && Has(w.dir, id) && Elements(order) <= desired.Keys
    requires Partway(desired, k0, m0, Keys(w.dir, id), Elements(managed))
    ensures var r := AddAll(w, id, desired, order, managed);
            && Quiet(r.w)
            && OnlyKeys(w.dir, r.w.dir, id)
            && Partway(desired, k0, m0, Keys(r.w.dir, id), Elements(r.managed))
            && (r.failure.None? ==> Elements(r.managed) == Elements(managed) + Elements(order))
    decreases |order|
  {
    if order != [] {
      assert order[0] in Elements(order);
      assert Elements(order) == {order[0]} + Elements(order[1..]);
      if order[0] in managed {
        AddAllPartway(w, id, desired, order[1..], managed, k0, m0);
      } else {
        AssociatePartway(w, id, desired, order[0], managed, k0, m0);
        var (w', reply) := Associate(w, id, order[0], desired[order[0]]);
        if reply.Ok? {
          assert Elements(managed + [order[0]]) == Elements(managed) + {order[0]};
          AddAllPartway(w', id, desired, order[1..], managed + [order[0]], k0, m0);
        }
      }
    }
  }

  lemma RemovePartway(w: World, id: Id, desired: map<string, string>, kid: string, k0: map<string, string>, m0: set<string>, m: set<string>)
    requires Quiet(w) && Has(w.dir, id) && kid in m && kid !in desired
    requires Partway(desired, k0, m0, Keys(w.dir, id), m)
    ensures var (w', reply) := Remove(w, id, kid);
            && Quiet(w')
            && OnlyKeys(w.dir, w'.dir, id)
            && Partway(desired, k0, m0, Keys(w'.dir, id), m)
            && Keys(w'.dir, id).Keys <= Keys(w.dir, id).Keys
            && (!reply.Failed? ==> kid !in Keys(w'.dir, id))
  {
  }

  /** Whatever the removal phase does, it takes nothing but unwanted key ids of the ledger off the account. */
  lemma {:induction false} DropAllPartway(w: World, id: Id, desired: map<string, string>, todo: seq<string>, kept: seq<string>,
                                          k0: map<string, string>, m0: set<string>, m: set<string>)
    requires Quiet(w) && Has(w.dir, id) && Elements(todo) <= m
    requires Partway(desired, k0, m0, Keys(w.dir, id), m)
    ensures var r := DropAll(w, id, desired, todo, kept);
            && Quiet(r.w)
            && OnlyKeys(w.dir, r.w.dir, id)
            && Partway(desired, k0, m0, Keys(r.w.dir, id), m)
            && Keys(r.w.dir, id).Keys <= Keys(w.dir, id).Keys
            && (r.failure.None? ==>
                  && Elements(r.managed) == Elements(kept) + (Elements(todo) * desired.Keys)
                  && forall kid | kid in todo && kid !in desired :: kid !in Keys(r.w.dir, id))
    decreases |todo|
  {
    if todo != [] {
      assert todo[0] in Elements(todo);
      assert Elements(todo) == {todo[0]} + Elements(todo[1..]);
      if todo[0] in desired {
        assert Elements(kept + [todo[0]]) == Elements(kept) + {todo[0]};
        DropAllPartway(w, id, desired, todo[1..], kept + [todo[0]], k0, m0, m);
      } else {
        RemovePartway(w, id, desired, todo[0], k0, m0, m);
        var (w', reply) := Remove(w, id, todo[0]);
        if !reply.Failed? {
          DropAllPartway(w', id, desired, todo[1..], kept, k0, m0, m);
        }
      }
    }
  }

  /** A key sync on a live account, wherever it stops, is partway; if it reports success the ledger is
      exactly the set of wanted keys. */
  lemma SyncKeysPartway(w: World, id: Id, desired: map<string, string>, order: seq<string>, managed: seq<string>)
    requires Quiet(w) && Has(w.dir, id) && Elements(order) == desired.Keys
    ensures var r := SyncKeys(w, id, desired, order, managed);
            && OnlyKeys(w.dir, r.w.dir, id)
            && Partway(desired, Keys(w.dir, id), Elements(managed), Keys(r.w.dir, id), Elements(r.managed))
            && (r.failure.None? ==> Elements(r.managed) == desired.Keys)
  {
    var k0, m0 := Keys(w.dir, id), Elements(managed);
    var a := AddAll(w, id, desired, order, managed);
    AddAllPartway(w, id, desired, order, managed, k0, m0);
    if a.failure.None? {
      DropAllPartway(a.w, id, desired, a.managed, [], k0, m0, Elements(a.managed));
    }
  }

  // ---------------------------------------------------------------- finding the account

  /** The account a clean pass works on, created when there is none. */
  function Resolve(dir: Registry<Account>, username: string, stored: StoredId): (Registry<Account>, Id) {
    if stored.Issued? && Has(dir, stored.id) then (dir, stored.id)
    else match FirstMatch(Page(dir), Wanted(username))
      case Some(id) => (dir, id)
      case None => (dir + [Some(Account(username, true, "", map[]))], |dir|)
  }

  predicate Creates(dir: Registry<Account>, username: string, stored: StoredId) {
    !(stored.Issued? && Has(dir, stored.id)) && FirstMatch(Page(dir), Wanted(username)).None?
  }

  /** The same accounts under the same names, whatever else they hold. */
  ghost predicate SameIdentities(d: Registry<Account>, e: Registry<Account>) {
    |d| == |e| &&
    forall i :: 0 <= i < |d| ==>
      && d[i].Some? == e[i].Some?
      && (d[i].Some? ==> d[i].value.username == e[i].value.username && d[i].value.isService == e[i].value.isService)
  }

  lemma {:induction false} SameSearch(d: Registry<Account>, e: Registry<Account>, username: string, from: nat, limit: nat)
    requires SameIdentities(d, e) && from <= |d|
    ensures FirstMatch(Rows(d, from, limit), Wanted(username)) == FirstMatch(Rows(e, from, limit), Wanted(username))
    decreases |d| - from
  {
    if from < |d| && limit > 0 {
      if d[from].Some? {
        SameSearch(d, e, username, from + 1, limit - 1);
        assert Rows(d, from, limit)[1..] == Rows(d, from + 1, limit - 1);
        assert Rows(e, from, limit)[1..] == Rows(e, from + 1, limit - 1);
      } else {
        SameSearch(d, e, username, from + 1, limit);
      }
    }
  }

  /** A page of listed accounts with room for one more. */
  predicate Room(dir: Registry<Account>, username: string, stored: StoredId) {
    LiveFrom(dir, 0) < PAGE_SIZE || !Creates(dir, username, stored)
  }

  /** A newly created account is found again. */
  lemma CreatedIsFound(dir: Registry<Account>, username: string)
    requires FirstMatch(Page(dir), Wanted(username)).None? && LiveFrom(dir, 0) < PAGE_SIZE
    ensures FirstMatch(Page(dir + [Some(Account(username, true, "", map[]))]), Wanted(username)) == Some(|dir|)
  {
    AppendedIsFound(dir, Account(username, true, "", map[]), Wanted(username));
  }

  lemma FindOutcome(w: World, username: string, stored: StoredId)
    requires Quiet(w)
    ensures var e := FindOrCreate(w, username, stored);
            var (d, id) := Resolve(w.dir, username, Empty);
            && Quiet(e.w)
            && (e.id.Some? ==> e.w.dir == d && e.id == Some(id) && e.stored == Issued(id) && Has(d, id))
            && (e.id.None? ==> (e.w.dir == w.dir || e.w.dir == d) && e.stored == stored)
            && (w.script == [] ==> e.id.Some? && e.w.script == [])
  {
    SearchPage(w.dir, 0, PAGE_SIZE, Wanted(username));
    var (w1, listed) := List(w);
    assert Quiet(w1) && w1.dir == w.dir;
  }

  lemma EnsureOutcome(w: World, username: string, stored: StoredId)
    requires Quiet(w)
    ensures var e := Ensure(w, username, stored);
            var (d, id) := Resolve(w.dir, username, stored);
            && Quiet(e.w)
            && (e.id.Some? ==> e.w.dir == d && e.id == Some(id) && e.stored == Issued(id) && Has(d, id))
            && (e.id.None? ==> e.w.dir == w.dir || e.w.dir == d)
            && (e.id.None? ==> e.stored == stored || (e.stored == Empty && !(stored.Issued? && Has(w.dir, stored.id))))
            && (w.script == [] ==> e.id.Some? && e.w.script == [])
  {
    if stored.Issued? {
      var (w1, got) := Get(w, stored.id);
      assert Quiet(w1) && w1.dir == w.dir;
      if got.NotFound? {
        FindOutcome(w1, username, Empty);
      }
    } else {
      FindOutcome(w, username, stored);
    }
  }

  // ---------------------------------------------------------------- one pass

  function Finished(a: Account, spec: UserSpec, managed: set<string>): Account {
    a.(displayName := if spec.displayName.Some? then spec.displayName.value else a.displayName,
       keys := Synced(a.keys, Desired(spec.keys), managed))
  }

  lemma Resolved(dir: Registry<Account>, username: string, stored: StoredId)
    ensures var (d, id) := Resolve(dir, username, stored); Has(d, id)
  {
    SearchPage(dir, 0, PAGE_SIZE, Wanted(username));
  }

  /** The accounts after a clean pass. */
  function CleanDir(dir: Registry<Account>, spec: UserSpec, stored: StoredId, managed: set<string>): Registry<Account> {
    var (d, id) := Resolve(dir, spec.username, stored);
    Resolved(dir, spec.username, stored);
    Put(d, id, Finished(d[id].value, spec, managed))
  }

  /** An account whose sync began with ledger `m0` in `d` and has got as far as `e`. */
  ghost predicate AccountPartway(spec: UserSpec, d: Registry<Account>, m0: set<string>,
                                 e: Registry<Account>, m1: set<string>, id: Id)
  {
    && Has(d, id) && Has(e, id)
    && e == Put(d, id, d[id].value.(displayName := e[id].value.displayName, keys := Keys(e, id)))
    && (e[id].value.displayName == d[id].value.displayName || Some(e[id].value.displayName) == spec.displayName)
    && Partway(Desired(spec.keys), Keys(d, id), m0, Keys(e, id), m1)
  }

  lemma SyncAccountPartway(w: World, id: Id, spec: UserSpec, order: seq<string>, managed: seq<string>)
    requires Quiet(w) && Has(w.dir, id) && IsOrder(order, Desired(spec.keys))
    ensures var r := SyncAccount(w, id, spec, order, managed);
            && AccountPartway(spec, w.dir, Elements(managed), r.w.dir, Elements(r.managed), id)
            && (r.failure.None? ==>
                  && Elements(r.managed) == Desired(spec.keys).Keys
                  && (spec.displayName.Some? ==> r.w.dir[id].value.displayName == spec.displayName.value))
  {
    var w1 := if spec.displayName.Some? then PatchName(w, id, spec.displayName.value).0 else w;
    assert Has(w1.dir, id) && Keys(w1.dir, id) == Keys(w.dir, id);
    SyncKeysPartway(w1, id, Desired(spec.keys), order, managed);
  }

  /** A pass that reports success, however rough the ride and whatever the iteration order, has exactly
      the effect of a clean pass: wanted unmanaged keys set to their PEM, managed unwanted keys gone, every
      other key, account and field untouched. */
  lemma SuccessIsExact(w: World, spec: UserSpec, s: Status, order: seq<string>)
    requires Quiet(w) && IsOrder(order, Desired(spec.keys))
    requires UserPass(w, spec, s, order).failure.None?
    ensures var p := UserPass(w, spec, s, order);
            && p.w.dir == CleanDir(w.dir, spec, s.id, Elements(s.managed))
            && p.stored == Issued(Resolve(w.dir, spec.username, s.id).1)
            && Elements(p.managed) == Desired(spec.keys).Keys
  {
    var e := Ensure(w, spec.username, s.id);
    EnsureOutcome(w, spec.username, s.id);
    var id := e.id.value;
    SyncAccountPartway(e.w, id, spec, order, s.managed);
    var p := UserPass(w, spec, s, order);
    PartwayEndsTheSame(Desired(spec.keys), Keys(e.w.dir, id), Elements(s.managed), Keys(p.w.dir, id), Elements(p.managed));
  }

  // ---------------------------------------------------------------- interrupted passes

  /** A pass may meet any failures (a crash after some call is the next call failing and the status
      write being lost), iterate in any order, and lose its status write. */
  datatype Interruption = Interruption(script: seq<Turn>, order: seq<string>, written: bool, detail: string, now: int)

  ghost predicate Admissible(i: Interruption, spec: UserSpec) {
    IsOrder(i.order, Desired(spec.keys)) && forall k :: 0 <= k < |i.script| ==> i.script[k].edits == []
  }

  datatype Site = Site(dir: Registry<Account>, status: Status)

  ghost function Interrupt(site: Site, policy: Policy, spec: UserSpec, i: Interruption): Site
    requires Admissible(i, spec)
  {
    var p := UserPass(World(site.dir, policy, i.script, []), spec, site.status, i.order);
    Site(p.w.dir, if i.written then NextStatus(p, site.status, i.detail, i.now) else site.status)
  }

  /** The calls made so far do not influence a pass. */
  ghost function CleanOf(site: Site, spec: UserSpec): Registry<Account> {
    CleanDir(site.dir, spec, site.status.id, Elements(site.status.managed))
  }

  lemma ResolveAgain(d: Registry<Account>, e: Registry<Account>, username: string, stored: StoredId)
    requires SameIdentities(d, e)
    ensures Creates(d, username, stored) == Creates(e, username, stored)
    ensures !Creates(d, username, stored) ==>
              Resolve(e, username, stored) == (e, Resolve(d, username, stored).1)
  {
    SameSearch(d, e, username, 0, PAGE_SIZE);
  }

  /** Once the account exists, both the id a pass would have stored and the id stored before it lead
      back to that account. */
  lemma ResolveStable(dir: Registry<Account>, username: string, stored: StoredId)
    requires Room(dir, username, stored)
    ensures var (d, id) := Resolve(dir, username, stored);
            && Resolve(d, username, Issued(id)) == (d, id)
            && Resolve(d, username, stored) == (d, id)
            && (!(stored.Issued? && Has(dir, stored.id)) ==> Resolve(d, username, Empty) == (d, id))
  {
    Resolved(dir, username, stored);
    if Creates(dir, username, stored) {
      CreatedIsFound(dir, username);
    }
  }

  /** A pass stops either before it knows the account, or with that account partway. */
  lemma PassPartway(w: World, spec: UserSpec, s: Status, order: seq<string>)
    requires Quiet(w) && IsOrder(order, Desired(spec.keys))
    ensures var p := UserPass(w, spec, s, order);
            var (d, id) := Resolve(w.dir, spec.username, s.id);
            || (&& (p.w.dir == w.dir || p.w.dir == d)
                && (p.stored == s.id || (p.stored == Empty && !(s.id.Issued? && Has(w.dir, s.id.id))))
                && p.managed == s.managed)
            || (p.stored == Issued(id) && AccountPartway(spec, d, Elements(s.managed), p.w.dir, Elements(p.managed), id))
  {
    var e := Ensure(w, spec.username, s.id);
    EnsureOutcome(w, spec.username, s.id);
    if e.id.Some? {
      SyncAccountPartway(e.w, e.id.value, spec, order, s.managed);
    }
  }

  lemma AccountPartwayOutcome(spec: UserSpec, dir: Registry<Account>, stored: StoredId, m0: set<string>,
                              e: Registry<Account>, m1: set<string>, stored1: StoredId, managed1: set<string>)
    requires Room(dir, spec.username, stored)
    requires var (d, id) := Resolve(dir, spec.username, stored);
             && AccountPartway(spec, d, m0, e, m1, id)
             && (stored1 == stored || stored1 == Issued(id))
    requires managed1 == m0 || managed1 == m1
    ensures Resolve(e, spec.username, stored1) == (e, Resolve(dir, spec.username, stored).1)
    ensures CleanDir(e, spec, stored1, managed1) == CleanDir(dir, spec, stored, m0)
  {
    var (d, id) := Resolve(dir, spec.username, stored);
    ResolveStable(dir, spec.username, stored);
    assert SameIdentities(d, e);
    ResolveAgain(d, e, spec.username, stored1);
    PartwayEndsTheSame(Desired(spec.keys), Keys(d, id), m0, Keys(e, id), m1);
  }

  /** What the next pass reads after an interrupted one leads it to the same end. */
  lemma StopKeepsOutcome(w: World, spec: UserSpec, s: Status, order: seq<string>, written: bool)
    requires Quiet(w) && IsOrder(order, Desired(spec.keys)) && Room(w.dir, spec.username, s.id)
    ensures var p := UserPass(w, spec, s, order);
            var (stored, managed) := if written then (p.stored, p.managed) else (s.id, s.managed);
            && CleanDir(p.w.dir, spec, stored, Elements(managed)) == CleanDir(w.dir, spec, s.id, Elements(s.managed))
            && Resolve(p.w.dir, spec.username, stored).1 == Resolve(w.dir, spec.username, s.id).1
            && Room(p.w.dir, spec.username, stored)
  {
    var p := UserPass(w, spec, s, order);
    PassPartway(w, spec, s, order);
    ResolveStable(w.dir, spec.username, s.id);
    var (d, id) := Resolve(w.dir, spec.username, s.id);
    var (stored, managed) := if written then (p.stored, p.managed) else (s.id, s.managed);
    if p.stored == Issued(id) && AccountPartway(spec, d, Elements(s.managed), p.w.dir, Elements(p.managed), id) {
      AccountPartwayOutcome(spec, w.dir, s.id, Elements(s.managed), p.w.dir, Elements(p.managed), stored, Elements(managed));
    } else if p.w.dir == w.dir {
      assert Resolve(p.w.dir, spec.username, stored) == Resolve(w.dir, spec.username, s.id);
    } else {
      assert Resolve(p.w.dir, spec.username, stored) == (d, id);
    }
  }

  /** One interrupted pass does not change where a clean pass ends. */
  lemma InterruptKeepsOutcome(site: Site, policy: Policy, spec: UserSpec, i: Interruption)
    requires Admissible(i, spec) && Room(site.dir, spec.username, site.status.id)
    ensures var after := Interrupt(site, policy, spec, i);
            && CleanOf(after, spec) == CleanOf(site, spec)
            && Resolve(after.dir, spec.username, after.status.id).1 == Resolve(site.dir, spec.username, site.status.id).1
            && Room(after.dir, spec.username, after.status.id)
  {
    hide CleanDir, Resolve, Room, UserPass;
    StopKeepsOutcome(World(site.dir, policy, i.script, []), spec, site.status, i.order, i.written);
  }

  ghost function InterruptAll(site: Site, policy: Policy, spec: UserSpec, many: seq<Interruption>): Site
    requires forall k :: 0 <= k < |many| ==> Admissible(many[k], spec)
    decreases |many|
  {
    if many == [] then site else InterruptAll(Interrupt(site, policy, spec, many[0]), policy, spec, many[1..])
  }

  lemma {:induction false} InterruptAllKeepsOutcome(site: Site, policy: Policy, spec: UserSpec, many: seq<Interruption>)
    requires forall k :: 0 <= k < |many| ==> Admissible(many[k], spec)
    requires Room(site.dir, spec.username, site.status.id)
    ensures var after := InterruptAll(site, policy, spec, many);
            && CleanOf(after, spec) == CleanOf(site, spec)
            && Resolve(after.dir, spec.username, after.status.id).1 == Resolve(site.dir, spec.username, site.status.id).1
            && Room(after.dir, spec.username, after.status.id)
    decreases |many|
  {
    if many != [] {
      InterruptKeepsOutcome(site, policy, spec, many[0]);
      InterruptAllKeepsOutcome(Interrupt(site, policy, spec, many[0]), policy, spec, many[1..]);
    }
  }

  // ---------------------------------------------------------------- clean passes

  /** A wanted key that is not managed although the account already has it. */
  ghost predicate Conflict(dir: Registry<Account>, spec: UserSpec, stored: StoredId, managed: set<string>) {
    var (d, id) := Resolve(dir, spec.username, stored);
    Resolved(dir, spec.username, stored);
    exists kid :: kid in Desired(spec.keys) && kid !in managed && kid in Keys(d, id)
  }

  lemma {:induction false} AddAllClean(w: World, id: Id, desired: map<string, string>, order: seq<string>, managed: seq<string>)
    requires w.script == [] && Has(w.dir, id) && NoDup(order) && Elements(order) <= desired.Keys
    ensures var r := AddAll(w, id, desired, order, managed);
            && r.w.script == []
            && Has(r.w.dir, id)
            && (r.failure.None? <==> w.policy.Upsert? || forall kid :: kid in order && kid !in managed ==> kid !in Keys(w.dir, id))
    decreases |order|
  {
    if order != [] {
      assert order[0] in Elements(order);
      assert Elements(order) == {order[0]} + Elements(order[1..]);
      forall kid ensures kid in order <==> kid == order[0] || kid in order[1..] {
        assert kid in order <==> kid in Elements(order);
      }
      if order[0] in managed {
        AddAllClean(w, id, desired, order[1..], managed);
      } else {
        var (w', reply) := Associate(w, id, order[0], desired[order[0]]);
        if reply.Ok? {
          AddAllClean(w', id, desired, order[1..], managed + [order[0]]);
        }
      }
    }
  }

  lemma {:induction false} DropAllClean(w: World, id: Id, desired: map<string, string>, todo: seq<string>, kept: seq<string>)
    requires w.script == []
    ensures DropAll(w, id, desired, todo, kept).failure.None?
    decreases |todo|
  {
    if todo != [] {
      if todo[0] in desired {
        DropAllClean(w, id, desired, todo[1..], kept + [todo[0]]);
      } else {
        DropAllClean(Remove(w, id, todo[0]).0, id, desired, todo[1..], kept);
      }
    }
  }

  /** A clean pass succeeds exactly when associating is an upsert or no wanted unmanaged key is on the
      account already. */
  lemma CleanPassSucceedsIff(w: World, spec: UserSpec, s: Status, order: seq<string>)
    requires w.script == [] && IsOrder(order, Desired(spec.keys))
    ensures UserPass(w, spec, s, order).failure.None?
            <==> w.policy.Upsert? || !Conflict(w.dir, spec, s.id, Elements(s.managed))
  {
    var e := Ensure(w, spec.username, s.id);
    EnsureOutcome(w, spec.username, s.id);
    var id := e.id.value;
    var w1 := if spec.displayName.Some? then PatchName(e.w, id, spec.displayName.value).0 else e.w;
    var desired := Desired(spec.keys);
    AddAllClean(w1, id, desired, order, s.managed);
    forall kid ensures kid in order <==> kid in desired {
      assert kid in Elements(order) <==> kid in desired.Keys;
    }
    var a := AddAll(w1, id, desired, order, s.managed);
    DropAllClean(a.w, id, desired, a.managed, []);
  }

  /** Replay safety. However often a pass was interrupted after any of its calls, with failed calls
      landing or not, the account being created or not, and status writes lost or not: one clean pass then
      leaves the accounts, the stored id and the managed key ids of a single clean pass from the start. */
  lemma ReplaySafety(site: Site, spec: UserSpec, many: seq<Interruption>, order: seq<string>, once: seq<string>)
    requires forall k :: 0 <= k < |many| ==> Admissible(many[k], spec)
    requires IsOrder(order, Desired(spec.keys)) && IsOrder(once, Desired(spec.keys))
    requires Room(site.dir, spec.username, site.status.id)
    ensures var after := InterruptAll(site, Upsert, spec, many);
            var p := UserPass(World(after.dir, Upsert, [], []), spec, after.status, order);
            var q := UserPass(World(site.dir, Upsert, [], []), spec, site.status, once);
            && p.failure.None? && q.failure.None?
            && p.w.dir == q.w.dir
            && p.stored == q.stored
            && Elements(p.managed) == Elements(q.managed)
  {
    var after := InterruptAll(site, Upsert, spec, many);
    InterruptAllKeepsOutcome(site, Upsert, spec, many);
    var w, v := World(after.dir, Upsert, [], []), World(site.dir, Upsert, [], []);
    CleanPassSucceedsIff(w, spec, after.status, order);
    CleanPassSucceedsIff(v, spec, site.status, once);
    SuccessIsExact(w, spec, after.status, order);
    SuccessIsExact(v, spec, site.status, once);
  }

  lemma {:induction false} RefusedStaysUnmanaged(w: World, id: Id, desired: map<string, string>, order: seq<string>,
                                                 managed: seq<string>, kid: string)
    requires Quiet(w) && w.policy.Refuse? && Has(w.dir, id) && Elements(order) <= desired.Keys
    requires kid in Keys(w.dir, id) && kid !in managed
    ensures var r := AddAll(w, id, desired, order, managed);
            && Has(r.w.dir, id) && kid in Keys(r.w.dir, id) && kid !in r.managed
            && (kid in order ==> r.failure.Some?)
    decreases |order|
  {
    if order != [] {
      assert order[0] in Elements(order);
      assert Elements(order) == {order[0]} + Elements(order[1..]);
      if order[0] in managed {
        RefusedStaysUnmanaged(w, id, desired, order[1..], managed, kid);
      } else {
        var (w', reply) := Associate(w, id, order[0], desired[order[0]]);
        if reply.Ok? {
          RefusedStaysUnmanaged(w', id, desired, order[1..], managed + [order[0]], kid);
        }
      }
    }
  }

  /** Where duplicates are refused, such a key (one lost reply suffices to produce it) makes every later
      pass fail, however it runs, for as long as the key stays wanted. */
  lemma RefusalPersists(w: World, spec: UserSpec, s: Status, order: seq<string>, id: Id, kid: string)
    requires Quiet(w) && w.policy.Refuse? && IsOrder(order, Desired(spec.keys))
    requires s.id == Issued(id) && Has(w.dir, id)
    requires kid in Desired(spec.keys) && kid !in s.managed && kid in Keys(w.dir, id)
    ensures var p := UserPass(w, spec, s, order);
            && p.failure.Some?
            && p.stored == s.id && Has(p.w.dir, id) && kid in Keys(p.w.dir, id) && kid !in p.managed
  {
    var e := Ensure(w, spec.username, s.id);
    if e.id.Some? {
      var w1 := if spec.displayName.Some? then PatchName(e.w, id, spec.displayName.value).0 else e.w;
      assert kid in Elements(order);
      RefusedStaysUnmanaged(w1, id, Desired(spec.keys), order, s.managed, kid);
    }
  }

  // ---------------------------------------------------------------- the ledger as a list

  lemma {:induction false} AddAllNoDup(w: World, id: Id, desired: map<string, string>, order: seq<string>, managed: seq<string>)
    requires Elements(order) <= desired.Keys && NoDup(managed)
    ensures NoDup(AddAll(w, id, desired, order, managed).managed)
    decreases |order|
  {
    if order != [] {
      assert order[0] in Elements(order);
      if order[0] in managed {
        AddAllNoDup(w, id, desired, order[1..], managed);
      } else {
        var (w', reply) := Associate(w, id, order[0], desired[order[0]]);
        if reply.Ok? {
          AddAllNoDup(w', id, desired, order[1..], managed + [order[0]]);
        }
      }
    }
  }

  lemma {:induction false} DropAllNoDup(w: World, id: Id, desired: map<string, string>, todo: seq<string>, kept: seq<string>)
    requires NoDup(kept + todo)
    ensures NoDup(DropAll(w, id, desired, todo, kept).managed)
    decreases |todo|
  {
    var all := kept + todo;
    if todo == [] {
      assert all == kept;
    } else {
      if todo[0] in desired {
        assert (kept + [todo[0]]) + todo[1..] == all;
        DropAllNoDup(w, id, desired, todo[1..], kept + [todo[0]]);
      } else {
        var (w', reply) := Remove(w, id, todo[0]);
        var shorter := kept + todo[1..];
        forall i, j | 0 <= i < j < |shorter| ensures shorter[i] != shorter[j] {
          assert shorter[i] == all[if i < |kept| then i else i + 1];
          assert shorter[j] == all[if j < |kept| then j else j + 1];
        }
        assert forall i, j :: 0 <= i < j < |kept| ==> kept[i] == all[i] && kept[j] == all[j];
        if !reply.Failed? {
          DropAllNoDup(w', id, desired, todo[1..], kept);
        }
      }
    }
  }

  /** A ledger without duplicates stays without duplicates, in every pass. */
  lemma ManagedStaysDuplicateFree(w: World, spec: UserSpec, s: Status, order: seq<string>)
    requires IsOrder(order, Desired(spec.keys)) && NoDup(s.managed)
    ensures NoDup(UserPass(w, spec, s, order).managed)
  {
    var e := Ensure(w, spec.username, s.id);
    if e.id.Some? {
      var id, desired := e.id.value, Desired(spec.keys);
      var w1 := if spec.displayName.Some? then PatchName(e.w, id, spec.displayName.value).0 else e.w;
      var a := AddAll(w1, id, desired, order, s.managed);
      AddAllNoDup(w1, id, desired, order, s.managed);
      assert [] + a.managed == a.managed;
      DropAllNoDup(a.w, id, desired, a.managed, []);
    }
  }

  // ---------------------------------------------------------------- quiescence

  lemma {:induction false} NothingToAdd(w: World, id: Id, desired: map<string, string>, order: seq<string>, managed: seq<string>)
    requires Elements(order) <= desired.Keys && Elements(order) <= Elements(managed)
    ensures AddAll(w, id, desired, order, managed) == KeySync(w, managed, None)
    decreases |order|
  {
    if order != [] {
      assert order[0] in Elements(order);
      NothingToAdd(w, id, desired, order[1..], managed);
    }
  }

  lemma {:induction false} NothingToDrop(w: World, id: Id, desired: map<string, string>, todo: seq<string>, kept: seq<string>)
    requires Elements(todo) <= desired.Keys
    ensures DropAll(w, id, desired, todo, kept) == KeySync(w, kept + todo, None)
    decreases |todo|
  {
    if todo == [] {
      assert kept + todo == kept;
    } else {
      assert todo[0] in Elements(todo);
      NothingToDrop(w, id, desired, todo[1..], kept + [todo[0]]);
      assert (kept + [todo[0]]) + todo[1..] == kept + todo;
    }
  }

  /** When the ledger is the set of wanted keys, the key sync makes no call at all, in any world. */
  lemma SettledSyncIsSilent(w: World, id: Id, desired: map<string, string>, order: seq<string>, managed: seq<string>)
    requires Elements(order) == desired.Keys && Elements(managed) == desired.Keys
    ensures SyncKeys(w, id, desired, order, managed) == KeySync(w, managed, None)
  {
    NothingToAdd(w, id, desired, order, managed);
    NothingToDrop(w, id, desired, managed, []);
    assert [] + managed == managed;
  }

  /** The account is as the spec wants it, as far as the ledger can tell. */
  ghost predicate Settled(dir: Registry<Account>, spec: UserSpec, stored: StoredId, managed: set<string>) {
    && stored.Issued? && Has(dir, stored.id)
    && managed == Desired(spec.keys).Keys
    && (spec.displayName.Some? ==> dir[stored.id].value.displayName == spec.displayName.value)
  }

  lemma SuccessSettles(w: World, spec: UserSpec, s: Status, order: seq<string>)
    requires Quiet(w) && IsOrder(order, Desired(spec.keys))
    requires UserPass(w, spec, s, order).failure.None?
    ensures var p := UserPass(w, spec, s, order); Settled(p.w.dir, spec, p.stored, Elements(p.managed))
  {
    var e := Ensure(w, spec.username, s.id);
    EnsureOutcome(w, spec.username, s.id);
    SyncAccountPartway(e.w, e.id.value, spec, order, s.managed);
  }

  lemma SettledPass(w: World, spec: UserSpec, s: Status, order: seq<string>)
    requires w.script == [] && IsOrder(order, Desired(spec.keys))
    requires Settled(w.dir, spec, s.id, Elements(s.managed))
    ensures var p := UserPass(w, spec, s, order);
            && p.w.dir == w.dir && p.stored == s.id && p.managed == s.managed && p.failure.None?
            && p.w.calls == w.calls + [GetCall(s.id.id)] +
                 (if spec.displayName.Some? then [PatchCall(s.id.id, true, true)] else [])
  {
    var id := s.id.id;
    var (w1, _) := Get(w, id);
    var w2 := if spec.displayName.Some? then PatchName(w1, id, spec.displayName.value).0 else w1;
    assert w2.dir == w.dir;
    SettledSyncIsSilent(w2, id, Desired(spec.keys), order, s.managed);
  }

  /** After a pass that reported success, a clean pass at any later time changes neither the server nor
      the status, makes no key call, and its status patch is empty. */
  lemma UserQuiescence(w: World, spec: UserSpec, s: Status, order: seq<string>, detail: string, now: int,
                       again: World, order': seq<string>, detail': string, later: int, manifest: Doc, idField: string)
    requires Quiet(w) && IsOrder(order, Desired(spec.keys)) && IsOrder(order', Desired(spec.keys))
    requires UserPass(w, spec, s, order).failure.None?
    requires again.dir == UserPass(w, spec, s, order).w.dir && again.script == []
    ensures var s1 := NextStatus(UserPass(w, spec, s, order), s, detail, now);
            var p := UserPass(again, spec, s1, order');
            var s2 := NextStatus(p, s1, detail', later);
            && p.w.dir == again.dir
            && s2 == s1 && IsReady(s1)
            && p.w.calls == again.calls + [GetCall(s1.id.id)] +
                 (if spec.displayName.Some? then [PatchCall(s1.id.id, true, true)] else [])
            && MergePatch.Diff(Document(manifest, s1, idField), Document(manifest, s2, idField)) == MergePatch.Obj(map[])
  {
    var p0 := UserPass(w, spec, s, order);
    SuccessSettles(w, spec, s, order);
    var s1 := NextStatus(p0, s, detail, now);
    var before := Status(p0.stored, p0.managed, s.conditions);
    ConcludeAgain(before, true, "Synced", "User synced", now, later, manifest, idField);
    SettledPass(again, spec, s1, order');
    assert Status(s1.id, s1.managed, s1.conditions) == s1;
  }
}
