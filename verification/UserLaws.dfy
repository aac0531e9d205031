/** What a service-user pass means for its spec: which keys it wants, whose account it takes, and what its
    verdict says about its calls. */
module UserLaws {
  import opened Prelude
  import opened Remote
  import opened StatusPatch
  import opened UserModel
  import opened UserReplay
  import opened UserLedger

  // ---------------------------------------------------------------- which keys

  /** No later entry of the spec names the same kid. */
  ghost predicate LastOfItsKid(keys: seq<PublicKey>, i: nat) {
    i < |keys| && forall j :: i < j < |keys| ==> keys[j].kid != keys[i].kid
  }

  lemma {:induction false} ListedIsDesired(keys: seq<PublicKey>, kid: string)
    ensures kid in Desired(keys) <==> exists k :: k in keys && k.kid == kid
  {
    if keys != [] {
      var n := |keys| - 1;
      ListedIsDesired(keys[..n], kid);
      assert forall k :: k in keys <==> k in keys[..n] || k == keys[n];
    }
  }

  lemma {:induction false} LastIsDesired(keys: seq<PublicKey>, i: nat)
    requires LastOfItsKid(keys, i)
    ensures keys[i].kid in Desired(keys) && Desired(keys)[keys[i].kid] == keys[i].pem
  {
    var n := |keys| - 1;
    if i < n {
      assert forall j :: i < j < n ==> keys[..n][j] == keys[j];
      LastIsDesired(keys[..n], i);
      assert keys[n].kid != keys[i].kid;
    }
  }

  lemma DesiredIsListed(keys: seq<PublicKey>)
    ensures Desired(keys).Keys == set k | k in keys :: k.kid
    ensures forall i: nat | LastOfItsKid(keys, i) :: keys[i].kid in Desired(keys) && Desired(keys)[keys[i].kid] == keys[i].pem
  {
    forall kid ensures kid in Desired(keys) <==> kid in set k | k in keys :: k.kid {
      ListedIsDesired(keys, kid);
    }
    forall i: nat | LastOfItsKid(keys, i) ensures keys[i].kid in Desired(keys) && Desired(keys)[keys[i].kid] == keys[i].pem {
      LastIsDesired(keys, i);
    }
  }

  /** What success promises, in terms of the listed keys alone: the ledger is exactly the listed kids; each of
      them that was not in the ledger is on the account with the PEM of its last entry; what was in the ledger
      and is not listed is gone; all else is untouched. */
  lemma SuccessServesTheSpec(w: World, spec: UserSpec, s: Status, order: seq<string>)
    requires Quiet(w) && IsOrder(order, Desired(spec.keys))
    requires UserPass(w, spec, s, order).failure.None?
    ensures var p := UserPass(w, spec, s, order);
            var (d, id) := Resolve(w.dir, spec.username, s.id);
            var listed := set k | k in spec.keys :: k.kid;
            && p.stored == Issued(id) && Has(d, id) && Has(p.w.dir, id)
            && Elements(p.managed) == listed
            && (forall i: nat | LastOfItsKid(spec.keys, i) && spec.keys[i].kid !in s.managed ::
                  At(p.w.dir[id].value.keys, spec.keys[i].kid) == Some(spec.keys[i].pem))
            && (forall kid | kid in s.managed && kid !in listed :: kid !in p.w.dir[id].value.keys)
            && (forall kid | kid in s.managed <==> kid in listed :: At(p.w.dir[id].value.keys, kid) == At(d[id].value.keys, kid))
            && (spec.displayName.Some? ==> p.w.dir[id].value.displayName == spec.displayName.value)
            && (spec.displayName.None? ==> p.w.dir[id].value.displayName == d[id].value.displayName)
  {
    SuccessIsExact(w, spec, s, order);
    DesiredIsListed(spec.keys);
    Resolved(w.dir, spec.username, s.id);
    var (d, id) := Resolve(w.dir, spec.username, s.id);
    forall kid ensures At(Synced(d[id].value.keys, Desired(spec.keys), Elements(s.managed)), kid)
                       == if kid in Desired(spec.keys) && kid !in s.managed then Some(Desired(spec.keys)[kid])
                          else if kid in s.managed && kid !in Desired(spec.keys) then None
                          else At(d[id].value.keys, kid) {
      SyncedAt(d[id].value.keys, Desired(spec.keys), Elements(s.managed), kid);
      assert kid in s.managed <==> kid in Elements(s.managed);
    }
  }

  // ---------------------------------------------------------------- the list in the status

  /** The kids of a list that are in the set, in their order. */
  function Kept(kids: seq<string>, listed: set<string>): seq<string> {
    if kids == [] then [] else (if kids[0] in listed then [kids[0]] else []) + Kept(kids[1..], listed)
  }

  /** The kids of a list that are not in the other list, in their order. */
  function New(kids: seq<string>, managed: seq<string>): seq<string> {
    if kids == [] then [] else (if kids[0] in managed then [] else [kids[0]]) + New(kids[1..], managed)
  }

  lemma {:induction false} NewIgnores(kids: seq<string>, managed: seq<string>, kid: string)
    requires kid !in kids
    ensures New(kids, managed + [kid]) == New(kids, managed)
  {
    if kids != [] {
      NewIgnores(kids[1..], managed, kid);
      assert kids[0] in managed + [kid] <==> kids[0] in managed;
    }
  }

  lemma {:induction false} KeptJoins(kids: seq<string>, more: seq<string>, listed: set<string>)
    requires Elements(more) <= listed
    ensures Kept(kids + more, listed) == Kept(kids, listed) + more
  {
    if kids != [] {
      assert (kids + more)[1..] == kids[1..] + more;
      KeptJoins(kids[1..], more, listed);
    } else if more != [] {
      assert kids + more == more && more[0] in Elements(more);
      assert [] + more[1..] == more[1..];
      KeptJoins([], more[1..], listed);
      assert Kept(more, listed) == [more[0]] + more[1..];
    }
  }

  lemma {:induction false} NewAmong(kids: seq<string>, managed: seq<string>)
    ensures Elements(New(kids, managed)) <= Elements(kids)
  {
    if kids != [] {
      NewAmong(kids[1..], managed);
      assert Elements(kids) == {kids[0]} + Elements(kids[1..]);
      assert forall kid :: kid in New(kids, managed) ==> kid == kids[0] || kid in Elements(New(kids[1..], managed));
    }
  }

  lemma {:induction false} AddAllAppends(w: World, id: Id, desired: map<string, string>, order: seq<string>, managed: seq<string>)
    returns (n: nat)
    requires NoDup(order) && Elements(order) <= desired.Keys
    ensures var r, added := AddAll(w, id, desired, order, managed), New(order, managed);
            && n <= |added| && r.managed == managed + added[..n]
            && (r.failure.None? ==> n == |added|)
    decreases |order|
  {
    n := 0;
    if order != [] {
      var kid, rest := order[0], order[1..];
      assert kid in Elements(order) && kid !in rest;
      if kid in managed {
        n := AddAllAppends(w, id, desired, rest, managed);
      } else {
        var (w', reply) := Associate(w, id, kid, desired[kid]);
        if reply.Ok? {
          n := AddAllAppends(w', id, desired, rest, managed + [kid]);
          NewIgnores(rest, managed, kid);
          AppendOne(managed, kid, New(rest, managed), n);
          n := n + 1;
        }
      }
    }
  }

  lemma AppendOne(managed: seq<string>, kid: string, added: seq<string>, n: nat)
    requires n <= |added|
    ensures managed + [kid] + added[..n] == managed + ([kid] + added)[..n + 1]
  {
  }

  lemma {:induction false} DropAllFilters(w: World, id: Id, desired: map<string, string>, todo: seq<string>, kept: seq<string>)
    ensures var r := DropAll(w, id, desired, todo, kept); r.failure.None? ==> r.managed == kept + Kept(todo, desired.Keys)
    decreases |todo|
  {
    if todo != [] {
      DropAllFilters(w, id, desired, todo[1..], kept + [todo[0]]);
      DropAllFilters(Remove(w, id, todo[0]).0, id, desired, todo[1..], kept);
      assert kept + [todo[0]] + Kept(todo[1..], desired.Keys) == kept + ([todo[0]] + Kept(todo[1..], desired.Keys));
    }
  }

  /** The list a key sync leaves, with its order: after success the old entries that are still listed, then the
      new ones as they were associated; after a failed removal everything; after a failed association what was
      there and the new ones so far. */
  lemma ManagedListAfter(w: World, id: Id, spec: UserSpec, order: seq<string>, managed: seq<string>)
    requires IsOrder(order, Desired(spec.keys))
    ensures var r := SyncKeys(w, id, Desired(spec.keys), order, managed);
            var listed := set k | k in spec.keys :: k.kid;
            && (r.failure.None? ==> r.managed == Kept(managed, listed) + New(order, managed))
            && (r.failure == Some("RemoveKeyFailed") ==> r.managed == managed + New(order, managed))
            && (r.failure == Some("AssociateKeyFailed") ==> managed <= r.managed <= managed + New(order, managed))
  {
    hide AddAll, DropAll, Kept, New, Desired;
    var desired, appended := Desired(spec.keys), New(order, managed);
    DesiredIsListed(spec.keys);
    var n := AddAllAppends(w, id, desired, order, managed);
    AddAllReason(w, id, desired, order, managed);
    var added := AddAll(w, id, desired, order, managed);
    DropAllFilters(added.w, id, desired, added.managed, []);
    DropAllReason(added.w, id, desired, added.managed, []);
    if added.failure.None? {
      assert appended[..n] == appended && added.managed == managed + appended;
      NewAmong(order, managed);
      KeptJoins(managed, appended, desired.Keys);
    }
  }

  // ---------------------------------------------------------------- whose account

  predicate IsAccountOf(a: Account, username: string) {
    a.username == username && a.isService
  }

  /** A live stored id is taken as it is. Otherwise the account is the oldest listed service account of exactly
      that username, and only if there is none on the first page a new one of that name without keys. */
  lemma WhoseAccount(dir: Registry<Account>, username: string, stored: StoredId)
    ensures var (d, id) := Resolve(dir, username, stored);
            && Has(d, id)
            && (stored.Issued? && Has(dir, stored.id) ==> d == dir && id == stored.id)
            && (!(stored.Issued? && Has(dir, stored.id)) ==>
                  && IsAccountOf(d[id].value, username)
                  && (d == dir ==> forall j: nat | j < id && Has(d, j) :: !IsAccountOf(d[j].value, username))
                  && (d == dir || (d == dir + [Some(d[id].value)] && id == |dir| && d[id].value.keys == map[]))
                  && (d != dir <==> forall item | item in Page(dir) :: !IsAccountOf(item.value, username)))
  {
    SearchPage(dir, 0, PAGE_SIZE, Wanted(username));
    MissIsNone(Page(dir), username);
  }

  lemma {:induction false} MissIsNone(rows: seq<Item<Account>>, username: string)
    ensures FirstMatch(rows, Wanted(username)).None? <==> forall item | item in rows :: !IsAccountOf(item.value, username)
  {
    if rows != [] {
      MissIsNone(rows[1..], username);
      assert forall item :: item in rows <==> item == rows[0] || item in rows[1..];
    }
  }

  /** So a successful pass without a live stored id stores that of a service account of the spec's username. */
  lemma AdoptsItsOwn(w: World, spec: UserSpec, s: Status, order: seq<string>)
    requires Quiet(w) && IsOrder(order, Desired(spec.keys))
    requires UserPass(w, spec, s, order).failure.None? && !(s.id.Issued? && Has(w.dir, s.id.id))
    ensures var p := UserPass(w, spec, s, order);
            && p.stored.Issued? && Has(p.w.dir, p.stored.id)
            && p.w.dir[p.stored.id].value.username == spec.username
            && p.w.dir[p.stored.id].value.isService
  {
    SuccessIsExact(w, spec, s, order);
    WhoseAccount(w.dir, spec.username, s.id);
  }

  // ---------------------------------------------------------------- what the verdict says

  function ReasonOf(c: Call): string {
    match c
    case GetCall(_) => "GetFailed"
    case ListCall => "ListFailed"
    case CreateCall(_, _, _) => "CreateFailed"
    case PatchCall(_, _, _) => "PatchFailed"
    case AssociateCall(_, _, _, _) => "AssociateKeyFailed"
    case RemoveCall(_, _, _, _) => "RemoveKeyFailed"
  }

  function FaultOf(script: seq<Turn>, i: nat): Fault {
    if i < |script| then script[i].fault else Clean
  }

  /** From one world to a later one every call was clean, except possibly the last if it failed; and then the
      reason is that of this call. */
  ghost predicate Led(w: World, after: World, failure: Option<string>) {
    var k := |after.calls| - |w.calls|;
    && k >= 0
    && after.script == (if k <= |w.script| then w.script[k..] else [])
    && (failure.Some? ==> k > 0 && failure.value == ReasonOf(after.calls[|after.calls| - 1]))
    && forall i: nat | i < (if failure.Some? then k - 1 else k) :: FaultOf(w.script, i) == Clean
  }

  lemma LedTwo(w: World, w1: World, w2: World, failure: Option<string>)
    requires Led(w, w1, None) && Led(w1, w2, failure)
    ensures Led(w, w2, failure)
  {
    var k, k1 := |w2.calls| - |w.calls|, |w1.calls| - |w.calls|;
    forall i: nat | i < (if failure.Some? then k - 1 else k) ensures FaultOf(w.script, i) == Clean {
      if i >= k1 {
        assert FaultOf(w1.script, i - k1) == FaultOf(w.script, i);
      }
    }
  }

  /** One call. */
  lemma LedOne(w: World, after: World, failure: Option<string>)
    requires |after.calls| == |w.calls| + 1 && after.script == Arrive(w).script
    requires failure.None? ==> NextFault(w) == Clean
    requires failure.Some? ==> failure.value == ReasonOf(after.calls[|w.calls|])
    ensures Led(w, after, failure)
  {
  }

  lemma FindLed(w: World, username: string, stored: StoredId)
    ensures var e := FindOrCreate(w, username, stored); Led(w, e.w, if e.id.None? then Some(e.failure) else None)
  {
    hide Led;
    var (w1, listed) := List(w);
    LedOne(w, w1, if listed.Ok? then None else Some("ListFailed"));
    if listed.Ok? && FirstMatch(listed.value, Wanted(username)).None? {
      var (w2, created) := Create(w1, username);
      LedOne(w1, w2, if created.Ok? then None else Some("CreateFailed"));
      LedTwo(w, w1, w2, if created.Ok? then None else Some("CreateFailed"));
    }
  }

  /** A probe that fails leaves the stored id, one that finds the account gone clears it for good. */
  lemma EnsureLed(w: World, username: string, stored: StoredId)
    ensures var e := Ensure(w, username, stored);
            && Led(w, e.w, if e.id.None? then Some(e.failure) else None)
            && (e.id.None? ==> e.stored == if stored.Issued? && Get(w, stored.id).1.NotFound? then Empty else stored)
            && (e.id.Some? ==> e.stored == Issued(e.id.value))
  {
    hide Led;
    if stored.Issued? {
      var (w1, got) := Get(w, stored.id);
      LedOne(w, w1, if got.Failed? then Some("GetFailed") else None);
      if got.NotFound? {
        FindLed(w1, username, Empty);
        var e := FindOrCreate(w1, username, Empty);
        LedTwo(w, w1, e.w, if e.id.None? then Some(e.failure) else None);
      }
    } else {
      FindLed(w, username, stored);
    }
  }

  lemma {:induction false} AddAllLed(w: World, id: Id, desired: map<string, string>, order: seq<string>, managed: seq<string>)
    requires Elements(order) <= desired.Keys
    ensures var r := AddAll(w, id, desired, order, managed); Led(w, r.w, r.failure)
    decreases |order|
  {
    if order != [] {
      assert order[0] in Elements(order);
      if order[0] in managed {
        AddAllLed(w, id, desired, order[1..], managed);
      } else {
        var (w', reply) := Associate(w, id, order[0], desired[order[0]]);
        LedOne(w, w', if reply.Ok? then None else Some("AssociateKeyFailed"));
        if reply.Ok? {
          AddAllLed(w', id, desired, order[1..], managed + [order[0]]);
          var r := AddAll(w', id, desired, order[1..], managed + [order[0]]);
          LedTwo(w, w', r.w, r.failure);
        }
      }
    }
  }

  lemma {:induction false} DropAllLed(w: World, id: Id, desired: map<string, string>, todo: seq<string>, kept: seq<string>)
    ensures var r := DropAll(w, id, desired, todo, kept); Led(w, r.w, r.failure)
    decreases |todo|
  {
    if todo != [] {
      if todo[0] in desired {
        DropAllLed(w, id, desired, todo[1..], kept + [todo[0]]);
      } else {
        var (w', reply) := Remove(w, id, todo[0]);
        LedOne(w, w', if reply.Failed? then Some("RemoveKeyFailed") else None);
        if !reply.Failed? {
          DropAllLed(w', id, desired, todo[1..], kept);
          var r := DropAll(w', id, desired, todo[1..], kept);
          LedTwo(w, w', r.w, r.failure);
        }
      }
    }
  }

  lemma SyncKeysLed(w: World, id: Id, desired: map<string, string>, order: seq<string>, managed: seq<string>)
    requires Elements(order) <= desired.Keys
    ensures var r := SyncKeys(w, id, desired, order, managed); Led(w, r.w, r.failure)
  {
    hide Led;
    AddAllLed(w, id, desired, order, managed);
    var a := AddAll(w, id, desired, order, managed);
    if a.failure.None? {
      DropAllLed(a.w, id, desired, a.managed, []);
      var r := DropAll(a.w, id, desired, a.managed, []);
      LedTwo(w, a.w, r.w, r.failure);
    }
  }

  /** The display name comes first: if that fails no key is touched. */
  lemma SyncAccountLed(w: World, id: Id, spec: UserSpec, order: seq<string>, managed: seq<string>)
    requires IsOrder(order, Desired(spec.keys))
    ensures var r := SyncAccount(w, id, spec, order, managed);
            && Led(w, r.w, r.failure)
            && (spec.displayName.Some? && !PatchName(w, id, spec.displayName.value).1.Ok? ==>
                  r.failure == Some("PatchFailed") && r.managed == managed && SameKeyCalls(w.calls, r.w.calls))
  {
    hide Led;
    if spec.displayName.Some? {
      var (w1, done) := PatchName(w, id, spec.displayName.value);
      LedOne(w, w1, if done.Ok? then None else Some("PatchFailed"));
      OtherCall(w.calls, w1.calls[|w.calls|]);
      if done.Ok? {
        SyncKeysLed(w1, id, Desired(spec.keys), order, managed);
        var r := SyncKeys(w1, id, Desired(spec.keys), order, managed);
        LedTwo(w, w1, r.w, r.failure);
      }
    } else {
      SyncKeysLed(w, id, Desired(spec.keys), order, managed);
    }
  }

  lemma {:induction false} AddAllReason(w: World, id: Id, desired: map<string, string>, order: seq<string>, managed: seq<string>)
    requires Elements(order) <= desired.Keys
    ensures AddAll(w, id, desired, order, managed).failure in {None, Some("AssociateKeyFailed")}
    decreases |order|
  {
    if order != [] {
      assert order[0] in Elements(order);
      AddAllReason(w, id, desired, order[1..], managed);
      AddAllReason(Associate(w, id, order[0], desired[order[0]]).0, id, desired, order[1..], managed + [order[0]]);
    }
  }

  lemma {:induction false} DropAllReason(w: World, id: Id, desired: map<string, string>, todo: seq<string>, kept: seq<string>)
    ensures DropAll(w, id, desired, todo, kept).failure in {None, Some("RemoveKeyFailed")}
    decreases |todo|
  {
    if todo != [] {
      DropAllReason(w, id, desired, todo[1..], kept + [todo[0]]);
      DropAllReason(Remove(w, id, todo[0]).0, id, desired, todo[1..], kept);
    }
  }

  lemma SyncReason(w: World, id: Id, spec: UserSpec, order: seq<string>, managed: seq<string>)
    requires IsOrder(order, Desired(spec.keys))
    ensures SyncAccount(w, id, spec, order, managed).failure
            in {None, Some("PatchFailed"), Some("AssociateKeyFailed"), Some("RemoveKeyFailed")}
  {
    var w1 := if spec.displayName.Some? then PatchName(w, id, spec.displayName.value).0 else w;
    AddAllReason(w1, id, Desired(spec.keys), order, managed);
    var added := AddAll(w1, id, Desired(spec.keys), order, managed);
    DropAllReason(added.w, id, Desired(spec.keys), added.managed, []);
  }

  /** A pass stops at the first call that fails, in any world: so success means that no call failed, and a
      failure names the kind of the last call. */
  lemma VerdictNamesTheCall(w: World, spec: UserSpec, s: Status, order: seq<string>)
    requires IsOrder(order, Desired(spec.keys))
    ensures var p := UserPass(w, spec, s, order); Led(w, p.w, p.failure)
    ensures var p := UserPass(w, spec, s, order);
            && (p.failure in {Some("GetFailed"), Some("ListFailed"), Some("CreateFailed")} ==>
                  && p.stored == (if s.id.Issued? && Get(w, s.id.id).1.NotFound? then Empty else s.id)
                  && p.managed == s.managed)
            && (p.failure !in {Some("GetFailed"), Some("ListFailed"), Some("CreateFailed")} ==>
                  p.stored.Issued? && (s.id.Issued? && Get(w, s.id.id).1.Ok? ==> p.stored == s.id))
  {
    hide Led;
    EnsureLed(w, spec.username, s.id);
    var e := Ensure(w, spec.username, s.id);
    if e.id.Some? {
      SyncAccountLed(e.w, e.id.value, spec, order, s.managed);
      var k := SyncAccount(e.w, e.id.value, spec, order, s.managed);
      LedTwo(w, e.w, k.w, k.failure);
      SyncReason(e.w, e.id.value, spec, order, s.managed);
    }
  }
}
