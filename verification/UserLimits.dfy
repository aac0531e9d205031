/** Exactly where the documented promises about keys end. */
module UserLimits {
  import opened Prelude
  import opened Remote
  import opened StatusPatch
  import opened UserModel
  import opened UserReplay
  import opened UserLedger
  import opened UserBacking

  // ---------------------------------------------------------------- keys taken off an account

  /** The account the pass works on has the key before the pass and not after it. */
  ghost predicate Loses(w: World, spec: UserSpec, s: Status, order: seq<string>, kid: string)
    requires IsOrder(order, Desired(spec.keys))
  {
    var (d, id) := Resolve(w.dir, spec.username, s.id);
    var after := UserPass(w, spec, s, order).w.dir;
    Has(d, id) && kid in Keys(d, id) && !(Has(after, id) && kid in Keys(after, id))
  }

  lemma {:induction false} AddAllLosesNone(w: World, id: Id, desired: map<string, string>, order: seq<string>, managed: seq<string>)
    requires Quiet(w) && Has(w.dir, id) && Elements(order) <= desired.Keys
    ensures var r := AddAll(w, id, desired, order, managed); Has(r.w.dir, id) && Keys(w.dir, id).Keys <= Keys(r.w.dir, id).Keys
    decreases |order|
  {
    if order != [] {
      assert order[0] in Elements(order);
      if order[0] in managed {
        AddAllLosesNone(w, id, desired, order[1..], managed);
      } else {
        var landed := AssociateEffect(w, id, order[0], desired[order[0]]);
        var (w', reply) := Associate(w, id, order[0], desired[order[0]]);
        if reply.Ok? {
          AddAllLosesNone(w', id, desired, order[1..], managed + [order[0]]);
        }
      }
    }
  }

  /** A clean pass on its account: it fails if associating does, and removes only after that. */
  lemma CleanPassPhases(w: World, spec: UserSpec, s: Status, order: seq<string>) returns (w1: World, id: Id)
    requires w.script == [] && IsOrder(order, Desired(spec.keys))
    ensures var (d, i) := Resolve(w.dir, spec.username, s.id);
            && id == i && Has(d, id) && w1.script == [] && Has(w1.dir, id) && Keys(w1.dir, id) == Keys(d, id)
            && SameKeyCalls(w.calls, w1.calls)
    ensures var a := AddAll(w1, id, Desired(spec.keys), order, s.managed);
            var p := UserPass(w, spec, s, order);
            && p.failure == a.failure
            && p.w == (if a.failure.Some? then a.w else DropAll(a.w, id, Desired(spec.keys), a.managed, []).w)
  {
    var e := Ensure(w, spec.username, s.id);
    EnsureOutcome(w, spec.username, s.id);
    EnsureTouchesNoKey(w, spec.username, s.id);
    id, w1 := e.id.value, e.w;
    if spec.displayName.Some? {
      w1 := PatchName(e.w, id, spec.displayName.value).0;
      OtherCall(e.w.calls, w1.calls[|e.w.calls|]);
    }
    var a := AddAll(w1, id, Desired(spec.keys), order, s.managed);
    AddAllClean(w1, id, Desired(spec.keys), order, s.managed);
    DropAllClean(a.w, id, Desired(spec.keys), a.managed, []);
  }

  ghost predicate Succeeds(w: World, spec: UserSpec, s: Status) {
    w.policy.Upsert? || !Conflict(w.dir, spec, s.id, Elements(s.managed))
  }

  lemma SuccessLoses(w: World, spec: UserSpec, s: Status, order: seq<string>, kid: string)
    requires Quiet(w) && IsOrder(order, Desired(spec.keys)) && UserPass(w, spec, s, order).failure.None?
    ensures var (d, id) := Resolve(w.dir, spec.username, s.id);
            && Has(d, id)
            && (Loses(w, spec, s, order, kid) <==> kid in Keys(d, id) && kid in s.managed && kid !in Desired(spec.keys))
  {
    SuccessIsExact(w, spec, s, order);
    Resolved(w.dir, spec.username, s.id);
    var (d, id) := Resolve(w.dir, spec.username, s.id);
    SyncedAt(Keys(d, id), Desired(spec.keys), Elements(s.managed), kid);
    assert kid in s.managed <==> kid in Elements(s.managed);
    var after := UserPass(w, spec, s, order).w.dir;
    assert Has(after, id) && Keys(after, id) == Synced(Keys(d, id), Desired(spec.keys), Elements(s.managed));
  }

  lemma FailureLosesNone(w: World, spec: UserSpec, s: Status, order: seq<string>, kid: string)
    requires w.script == [] && IsOrder(order, Desired(spec.keys)) && UserPass(w, spec, s, order).failure.Some?
    ensures !Loses(w, spec, s, order, kid)
  {
    var w1, id := CleanPassPhases(w, spec, s, order);
    AddAllLosesNone(w1, id, Desired(spec.keys), order, s.managed);
  }

  /** Which keys a clean pass takes off the account it works on: exactly those in the ledger that are no
      longer wanted, if it gets past associating. */
  lemma LostKeysIff(w: World, spec: UserSpec, s: Status, order: seq<string>, kid: string)
    requires w.script == [] && IsOrder(order, Desired(spec.keys))
    ensures var (d, id) := Resolve(w.dir, spec.username, s.id);
            && Has(d, id)
            && (Loses(w, spec, s, order, kid)
                <==> Succeeds(w, spec, s) && kid in Keys(d, id) && kid in s.managed && kid !in Desired(spec.keys))
  {
    CleanPassSucceedsIff(w, spec, s, order);
    Resolved(w.dir, spec.username, s.id);
    if UserPass(w, spec, s, order).failure.None? {
      SuccessLoses(w, spec, s, order, kid);
    } else {
      FailureLosesNone(w, spec, s, order, kid);
    }
  }

  /** No other account changes at all. */
  lemma OtherAccountsUntouched(w: World, spec: UserSpec, s: Status, order: seq<string>, other: Id)
    requires Quiet(w) && IsOrder(order, Desired(spec.keys))
    requires Has(w.dir, other) && other != Resolve(w.dir, spec.username, s.id).1
    ensures var after := UserPass(w, spec, s, order).w.dir; Has(after, other) && after[other] == w.dir[other]
  {
    PassPartway(w, spec, s, order);
  }

  /** The documented promise is that keys associated out-of-band stay. A clean pass breaks it exactly if it gets
      past associating and the account it works on holds a key that is in the ledger and not wanted but that
      the operator has not put there, or has removed since. A ledger that is backed by the stored account
      allows that only if that account is gone: the stale id is cleared, its ledger is not. How a ledger
      ceases to be backed otherwise is the matter of StepBackedIff. */
  lemma ForeignKeyLossIff(w: World, spec: UserSpec, s: Status, order: seq<string>)
    requires w.script == [] && IsOrder(order, Desired(spec.keys))
    ensures var (d, id) := Resolve(w.dir, spec.username, s.id);
            && Has(d, id)
            && ((exists kid :: Loses(w, spec, s, order, kid) && (id, kid) !in Outstanding(w.calls))
                <==> Succeeds(w, spec, s) &&
                     exists kid :: kid in Keys(d, id) && kid in s.managed && kid !in Desired(spec.keys) && (id, kid) !in Outstanding(w.calls))
    ensures var id := Resolve(w.dir, spec.username, s.id).1;
            s.id.Issued? && Has(w.dir, s.id.id) && Backed(w.calls, s.id.id, s.managed) ==>
              forall kid | Loses(w, spec, s, order, kid) :: (id, kid) in Outstanding(w.calls)
  {
    Resolved(w.dir, spec.username, s.id);
    forall kid
      ensures var (d, id) := Resolve(w.dir, spec.username, s.id);
              && Has(d, id)
              && (Loses(w, spec, s, order, kid)
                  <==> Succeeds(w, spec, s) && kid in Keys(d, id) && kid in s.managed && kid !in Desired(spec.keys))
    {
      LostKeysIff(w, spec, s, order, kid);
    }
  }

  // ---------------------------------------------------------------- removals asked for

  lemma {:induction false} ForeignRemovalLogged(w: World, id: Id, desired: map<string, string>, todo: seq<string>, kept: seq<string>, kid: string)
    requires w.script == [] && kid in todo && kid !in desired && (id, kid) !in Acked(w.calls)
    ensures !OnlyOwnRemovals(DropAll(w, id, desired, todo, kept).w.calls)
    decreases |todo|
  {
    if todo[0] in desired {
      ForeignRemovalLogged(w, id, desired, todo[1..], kept + [todo[0]], kid);
    } else {
      var (w', _) := Remove(w, id, todo[0]);
      Logged(w.calls, w'.calls[|w.calls|]);
      if todo[0] == kid {
        StaysForeign(w', id, desired, todo[1..], kept);
      } else {
        ForeignRemovalLogged(w', id, desired, todo[1..], kept, kid);
      }
    }
  }

  lemma {:induction false} StaysForeign(w: World, id: Id, desired: map<string, string>, todo: seq<string>, kept: seq<string>)
    requires !OnlyOwnRemovals(w.calls)
    ensures !OnlyOwnRemovals(DropAll(w, id, desired, todo, kept).w.calls)
    decreases |todo|
  {
    if todo != [] {
      if todo[0] in desired {
        StaysForeign(w, id, desired, todo[1..], kept + [todo[0]]);
      } else {
        var (w', reply) := Remove(w, id, todo[0]);
        Logged(w.calls, w'.calls[|w.calls|]);
        if !reply.Failed? {
          StaysForeign(w', id, desired, todo[1..], kept);
        }
      }
    }
  }

  lemma {:induction false} AddAllCallsOnly(w: World, id: Id, desired: map<string, string>, order: seq<string>, managed: seq<string>)
    requires Elements(order) <= desired.Keys
    ensures var r := AddAll(w, id, desired, order, managed);
            && OnlyOwnRemovals(r.w.calls) == OnlyOwnRemovals(w.calls)
            && Elements(managed) <= Elements(r.managed) <= Elements(managed) + desired.Keys
            && Acked(w.calls) <= Acked(r.w.calls)
            && forall pair | pair in Acked(r.w.calls) && pair !in Acked(w.calls) :: pair.0 == id && pair.1 in desired
    decreases |order|
  {
    if order != [] {
      assert order[0] in Elements(order);
      if order[0] in managed {
        AddAllCallsOnly(w, id, desired, order[1..], managed);
      } else {
        var (w', reply) := Associate(w, id, order[0], desired[order[0]]);
        Logged(w.calls, w'.calls[|w.calls|]);
        assert Elements(managed + [order[0]]) == Elements(managed) + {order[0]};
        if reply.Ok? {
          AddAllCallsOnly(w', id, desired, order[1..], managed + [order[0]]);
        }
      }
    }
  }

  lemma {:induction false} DropAllOwnOnly(w: World, id: Id, desired: map<string, string>, todo: seq<string>, kept: seq<string>)
    requires OnlyOwnRemovals(w.calls) && forall kid | kid in todo && kid !in desired :: (id, kid) in Acked(w.calls)
    ensures var r := DropAll(w, id, desired, todo, kept); OnlyOwnRemovals(r.w.calls)
    decreases |todo|
  {
    if todo != [] {
      if todo[0] in desired {
        DropAllOwnOnly(w, id, desired, todo[1..], kept + [todo[0]]);
      } else {
        RemoveOwned(w, id, todo[0]);
        var (w', reply) := Remove(w, id, todo[0]);
        if !reply.Failed? {
          DropAllOwnOnly(w', id, desired, todo[1..], kept);
        }
      }
    }
  }

  /** When a clean pass calls Remove for a key it never associated, the key being there or not: exactly if it
      gets past associating and its ledger names an unwanted key that was never associated with the account
      it works on. */
  lemma ForeignRemovalIff(w: World, spec: UserSpec, s: Status, order: seq<string>)
    requires w.script == [] && IsOrder(order, Desired(spec.keys)) && OnlyOwnRemovals(w.calls)
    ensures var id := Resolve(w.dir, spec.username, s.id).1;
            !OnlyOwnRemovals(UserPass(w, spec, s, order).w.calls)
            <==> Succeeds(w, spec, s) &&
                 exists kid :: kid in s.managed && kid !in Desired(spec.keys) && (id, kid) !in Acked(w.calls)
  {
    CleanPassSucceedsIff(w, spec, s, order);
    var desired := Desired(spec.keys);
    var w1, id := CleanPassPhases(w, spec, s, order);
    var a := AddAll(w1, id, desired, order, s.managed);
    AddAllClean(w1, id, desired, order, s.managed);
    AddAllCallsOnly(w1, id, desired, order, s.managed);
    if a.failure.None? {
      if kid :| kid in s.managed && kid !in desired && (id, kid) !in Acked(w.calls) {
        assert kid in Elements(s.managed) && kid in a.managed;
        ForeignRemovalLogged(a.w, id, desired, a.managed, [], kid);
      } else {
        forall kid | kid in a.managed && kid !in desired ensures (id, kid) in Acked(a.w.calls) {
          assert kid in Elements(a.managed) && kid in Elements(s.managed);
        }
        DropAllOwnOnly(a.w, id, desired, a.managed, []);
      }
    }
  }

  /** The same for keys that are not outstanding, whether never associated or removed before. */
  lemma StrayRemovalIff(w: World, spec: UserSpec, s: Status, order: seq<string>)
    requires w.script == [] && IsOrder(order, Desired(spec.keys)) && OnlyOutstandingRemovals(w.calls) && NoDup(s.managed)
    ensures var id := Resolve(w.dir, spec.username, s.id).1;
            !OnlyOutstandingRemovals(UserPass(w, spec, s, order).w.calls)
            <==> Succeeds(w, spec, s) &&
                 exists kid :: kid in s.managed && kid !in Desired(spec.keys) && (id, kid) !in Outstanding(w.calls)
  {
    CleanPassSucceedsIff(w, spec, s, order);
    var desired := Desired(spec.keys);
    var w1, id := CleanPassPhases(w, spec, s, order);
    var a := AddAll(w1, id, desired, order, s.managed);
    AddAllClean(w1, id, desired, order, s.managed);
    AddAllAround(w1, id, desired, order, s.managed);
    AddAllNoDup(w1, id, desired, order, s.managed);
    if a.failure.None? {
      if kid :| kid in s.managed && kid !in desired && (id, kid) !in Outstanding(w.calls) {
        DropAllReachesOthers(a.w, id, desired, a.managed, [], kid);
      } else {
        DropAllOutstanding(a.w, id, desired, a.managed, []);
      }
    }
  }

  lemma {:induction false} AddAllAround(w: World, id: Id, desired: map<string, string>, order: seq<string>, managed: seq<string>)
    requires Elements(order) <= desired.Keys
    ensures var r := AddAll(w, id, desired, order, managed);
            && OnlyOutstandingRemovals(r.w.calls) == OnlyOutstandingRemovals(w.calls)
            && (forall kid | kid !in desired :: kid in r.managed <==> kid in managed)
            && (forall kid | kid !in desired :: (id, kid) in Outstanding(r.w.calls) <==> (id, kid) in Outstanding(w.calls))
    decreases |order|
  {
    if order != [] {
      assert order[0] in Elements(order);
      if order[0] in managed {
        AddAllAround(w, id, desired, order[1..], managed);
      } else {
        AssociateBacked(w, id, order[0], desired[order[0]], []);
        var (w', reply) := Associate(w, id, order[0], desired[order[0]]);
        if reply.Ok? {
          AddAllAround(w', id, desired, order[1..], managed + [order[0]]);
        }
      }
    }
  }

  // ---------------------------------------------------------------- keys not touched

  /** A key that is neither wanted nor in the ledger is never touched: the promise to out-of-band keys. The
      same holds for the operator's own key when the reply to its association was lost and the key was then
      dropped from the spec. A managed, wanted key is not touched either, even if its PEM was edited or it
      vanished from the server. */
  lemma UntouchedKeys(w: World, spec: UserSpec, s: Status, order: seq<string>, kid: string)
    requires Quiet(w) && IsOrder(order, Desired(spec.keys))
    requires kid in s.managed <==> kid in Desired(spec.keys)
    ensures var (d, id) := Resolve(w.dir, spec.username, s.id);
            var after := UserPass(w, spec, s, order).w.dir;
            Has(d, id) && (Has(after, id) ==> At(Keys(after, id), kid) == At(Keys(d, id), kid))
  {
    var (d, id) := Resolve(w.dir, spec.username, s.id);
    Resolved(w.dir, spec.username, s.id);
    PassPartway(w, spec, s, order);
    var p := UserPass(w, spec, s, order);
    if AccountPartway(spec, d, Elements(s.managed), p.w.dir, Elements(p.managed), id) {
      assert kid in Elements(s.managed) <==> kid in Desired(spec.keys);
    }
  }

  /** So drift is not repaired: after a pass that reports success every wanted key carries the PEM of the spec
      exactly if those that were managed already did. */
  lemma WantedKeysCorrectIff(w: World, spec: UserSpec, s: Status, order: seq<string>)
    requires Quiet(w) && IsOrder(order, Desired(spec.keys))
    requires UserPass(w, spec, s, order).failure.None?
    ensures var (d, id) := Resolve(w.dir, spec.username, s.id);
            var after, desired := UserPass(w, spec, s, order).w.dir, Desired(spec.keys);
            && Has(d, id) && Has(after, id)
            && ((forall kid | kid in desired :: At(Keys(after, id), kid) == Some(desired[kid]))
                <==> (forall kid | kid in desired && kid in s.managed :: At(Keys(d, id), kid) == Some(desired[kid])))
  {
    SuccessIsExact(w, spec, s, order);
    Resolved(w.dir, spec.username, s.id);
    var (d, id) := Resolve(w.dir, spec.username, s.id);
    forall kid | kid in Desired(spec.keys)
      ensures At(Keys(UserPass(w, spec, s, order).w.dir, id), kid)
              == if kid in s.managed then At(Keys(d, id), kid) else Some(Desired(spec.keys)[kid])
    {
      SyncedAt(Keys(d, id), Desired(spec.keys), Elements(s.managed), kid);
      assert kid in s.managed <==> kid in Elements(s.managed);
    }
  }

  // ---------------------------------------------------------------- concrete runs

  lemma RemoveAcksNone(w: World, id: Id, kid: string)
    ensures Acked(Remove(w, id, kid).0.calls) == Acked(w.calls)
  {
    Logged(w.calls, Remove(w, id, kid).0.calls[|w.calls|]);
  }

  lemma {:induction false} DropAllAcksNone(w: World, id: Id, desired: map<string, string>, todo: seq<string>, kept: seq<string>)
    ensures Acked(DropAll(w, id, desired, todo, kept).w.calls) == Acked(w.calls)
    decreases |todo|
  {
    if todo != [] {
      if todo[0] in desired {
        DropAllAcksNone(w, id, desired, todo[1..], kept + [todo[0]]);
      } else {
        var (w', reply) := Remove(w, id, todo[0]);
        RemoveAcksNone(w, id, todo[0]);
        if !reply.Failed? {
          DropAllAcksNone(w', id, desired, todo[1..], kept);
        }
      }
    }
  }

  /** A clean pass associates keys with no account but its own. */
  lemma AcksItsAccountOnly(w: World, spec: UserSpec, s: Status, order: seq<string>, pair: Pair)
    requires w.script == [] && IsOrder(order, Desired(spec.keys))
    requires pair !in Acked(w.calls) && pair.0 != Resolve(w.dir, spec.username, s.id).1
    ensures pair !in Acked(UserPass(w, spec, s, order).w.calls)
  {
    var w1, id := CleanPassPhases(w, spec, s, order);
    var a := AddAll(w1, id, Desired(spec.keys), order, s.managed);
    AddAllCallsOnly(w1, id, Desired(spec.keys), order, s.managed);
    DropAllAcksNone(a.w, id, Desired(spec.keys), a.managed, []);
  }

  const FRESH := Account("svc", true, "", map[])

  function Own(pem: string): UserSpec {
    UserSpec("svc", None, [PublicKey("k", pem)])
  }

  /** A new resource: its first pass creates the account and associates the key. */
  lemma FirstPass(pem: string, policy: Policy)
    ensures Desired(Own(pem).keys) == map["k" := pem] && IsOrder(["k"], Desired(Own(pem).keys))
    ensures var none: Registry<Account> := [];
            var p := UserPass(World(none, policy, [], []), Own(pem), NEW_STATUS, ["k"]);
            && p.failure.None? && p.stored == Issued(0) && Elements(p.managed) == {"k"}
            && p.w.dir == [Some(FRESH.(keys := map["k" := pem]))]
            && (1, "k") !in Acked(p.w.calls)
  {
    var keys := [PublicKey("k", pem)];
    assert keys[..0] == [] && Desired(keys[..0]) == map[];
    assert Desired(keys) == map["k" := pem];
    var none: Registry<Account> := [];
    var w, spec := World(none, policy, [], []), Own(pem);
    assert Page(none) == [] && Resolve(none, "svc", Empty) == (none + [Some(FRESH)], 0);
    CleanPassSucceedsIff(w, spec, NEW_STATUS, ["k"]);
    SuccessIsExact(w, spec, NEW_STATUS, ["k"]);
    assert Elements(NEW_STATUS.managed) == {};
    SyncedIs(map[], map["k" := pem], {}, map["k" := pem]);
    AcksItsAccountOnly(w, spec, NEW_STATUS, ["k"], (1, "k"));
  }

  lemma SyncedIs(keys: map<string, string>, desired: map<string, string>, managed: set<string>, result: map<string, string>)
    requires forall kid :: At(result, kid) == if kid in desired && kid !in managed then Some(desired[kid])
                                              else if kid in managed && kid !in desired then None else At(keys, kid)
    ensures Synced(keys, desired, managed) == result
  {
    forall kid ensures At(Synced(keys, desired, managed), kid) == At(result, kid) {
      SyncedAt(keys, desired, managed, kid);
    }
    SameByAt(Synced(keys, desired, managed), result);
  }

  /** The account is replaced by one of the same name that holds a key of the same id, and the key is dropped
      from the spec: the next pass removes the other's key. */
  lemma LastPass(theirs: Account, policy: Policy, calls: seq<Call>, s: Status)
    requires theirs.username == "svc" && theirs.isService && theirs.keys.Keys == {"k"}
    requires s.id == Issued(0) && Elements(s.managed) == {"k"}
    ensures IsOrder([], Desired([]))
    ensures UserPass(World([None, Some(theirs)], policy, [], calls), UserSpec("svc", None, []), s, []).w.dir
            == [None, Some(theirs.(keys := map[]))]
  {
    var dir: Registry<Account> := [None, Some(theirs)];
    var w, spec := World(dir, policy, [], calls), UserSpec("svc", None, []);
    assert LiveFrom(dir, 2) == 0 && LiveFrom(dir, 1) == 1 && LiveFrom(dir, 0) == 1;
    SearchFits(dir, Wanted("svc"));
    assert Has(dir, 1) && Wanted("svc")(theirs);
    assert Resolve(dir, "svc", s.id) == (dir, 1);
    CleanPassSucceedsIff(w, spec, s, []);
    SuccessIsExact(w, spec, s, []);
    SyncedIs(theirs.keys, map[], {"k"}, map[]);
  }

  /** A pass that finds the one key of its ledger no longer wanted, on the account of its stored id. */
  lemma DroppingPass(held: Account, policy: Policy, calls: seq<Call>, s: Status)
    requires held.keys.Keys == {"k"} && s.id == Issued(0) && Elements(s.managed) == {"k"}
    ensures IsOrder([], Desired([]))
    ensures var p := UserPass(World([Some(held)], policy, [], calls), UserSpec("svc", None, []), s, []);
            && p.w.dir == [Some(held.(keys := map[]))]
            && p.stored == s.id
            && (0, "k") !in Outstanding(p.w.calls)
  {
    var dir: Registry<Account> := [Some(held)];
    var w, spec := World(dir, policy, [], calls), UserSpec("svc", None, []);
    assert Resolve(dir, "svc", s.id) == (dir, 0);
    CleanPassSucceedsIff(w, spec, s, []);
    SuccessIsExact(w, spec, s, []);
    SyncedIs(held.keys, map[], {"k"}, map[]);
    var w1, id := CleanPassPhases(w, spec, s, []);
    assert "k" in Elements(s.managed);
    DropAllClears(w1, id, map[], s.managed, [], "k");
  }

  lemma {:induction false} DropAllClears(w: World, id: Id, desired: map<string, string>, todo: seq<string>, kept: seq<string>, kid: string)
    requires w.script == [] && kid in todo && kid !in desired
    ensures (id, kid) !in Outstanding(DropAll(w, id, desired, todo, kept).w.calls)
    decreases |todo|
  {
    if todo[0] in desired {
      DropAllClears(w, id, desired, todo[1..], kept + [todo[0]], kid);
    } else {
      RemoveEffect(w, id, todo[0]);
      var w' := Remove(w, id, todo[0]).0;
      if kid in todo[1..] {
        DropAllClears(w', id, desired, todo[1..], kept, kid);
      } else {
        DropAllForgets(w', id, desired, todo[1..], kept);
      }
    }
  }

  /** A run from a new resource, with no account ever deleted, in which a third party loses a key under either
      policy: the status write of the pass that removed the operator's own key is lost, somebody associates
      another under the same kid, and the next pass removes that one. */
  lemma LostWriteLosesAKey(pem: string, theirs: string, policy: Policy, detail: string, now: int)
    ensures var none: Registry<Account> := [];
            var r0 := Run(none, [], Own(pem), NEW_STATUS);
            var r1 := Step(r0, policy, Reconcile([], ["k"], true, detail, now));
            var r2 := Step(r1, policy, EditSpec(UserSpec("svc", None, [])));
            var r3 := Step(r2, policy, Reconcile([], [], false, detail, now));
            var r4 := Step(r3, policy, ThirdParty([SetKey(0, "k", theirs)]));
            var r5 := Step(r4, policy, Reconcile([], [], true, detail, now));
            && r3.dir == [Some(FRESH)] && (0, "k") !in Outstanding(r4.calls)
            && r4.dir == [Some(FRESH.(keys := map["k" := theirs]))]
            && r5.dir == [Some(FRESH)]
  {
    FirstPass(pem, policy);
    var none: Registry<Account> := [];
    var r0 := Run(none, [], Own(pem), NEW_STATUS);
    var r1 := Step(r0, policy, Reconcile([], ["k"], true, detail, now));
    DroppingPass(FRESH.(keys := map["k" := pem]), policy, r1.calls, r1.status);
    var r2 := Step(r1, policy, EditSpec(UserSpec("svc", None, [])));
    var r3 := Step(r2, policy, Reconcile([], [], false, detail, now));
    var edits := [SetKey(0, "k", theirs)];
    assert edits[1..] == [];
    var held := FRESH.(keys := map["k" := theirs]);
    assert Edited(r3.dir, edits[0]) == [Some(held)];
    assert AllEdited(r3.dir, edits) == [Some(held)];
    DroppingPass(held, policy, r3.calls, r3.status);
  }

  /** A run from a new resource in which a third party loses a key, whether or not associating is an upsert. */
  lemma ThirdPartyLosesAKey(pem: string, theirs: Account, policy: Policy, detail: string, now: int)
    requires theirs.username == "svc" && theirs.isService && theirs.keys.Keys == {"k"}
    ensures var none: Registry<Account> := [];
            var r0 := Run(none, [], Own(pem), NEW_STATUS);
            var r1 := Step(r0, policy, Reconcile([], ["k"], true, detail, now));
            var r2 := Step(r1, policy, ThirdParty([Delete(0), Register(theirs)]));
            var r3 := Step(r2, policy, EditSpec(UserSpec("svc", None, [])));
            var r4 := Step(r3, policy, Reconcile([], [], true, detail, now));
            && r1.dir == [Some(FRESH.(keys := map["k" := pem]))]
            && r3.dir == [None, Some(theirs)] && (1, "k") !in Acked(r3.calls)
            && r4.dir == [None, Some(theirs.(keys := map[]))]
  {
    FirstPass(pem, policy);
    var none: Registry<Account> := [];
    var r0 := Run(none, [], Own(pem), NEW_STATUS);
    var r1 := Step(r0, policy, Reconcile([], ["k"], true, detail, now));
    var edits := [Delete(0), Register(theirs)];
    assert edits[1..] == [Register(theirs)] && [Register(theirs)][1..] == [];
    var gone: Registry<Account> := [None];
    assert Edited(r1.dir, Delete(0)) == gone && Edited(gone, Register(theirs)) == [None, Some(theirs)];
    assert AllEdited(gone, [Register(theirs)]) == [None, Some(theirs)];
    LastPass(theirs, policy, r1.calls, r1.status);
  }

  /** One lost reply is enough to lose track: the association lands, the ledger does not record it, and
      once the key is dropped from the spec no pass removes it. */
  lemma LostReplyLeaksAKey(pem: string)
    ensures var owner := Account("svc", true, "", map[]);
            var spec := UserSpec("svc", None, [PublicKey("k", pem)]);
            var s := Status(Issued(0), [], []);
            var w := World([Some(owner)], Upsert, [Turn([], Clean), Turn([], LostReply)], []);
            && Desired(spec.keys) == map["k" := pem]
            && IsOrder(["k"], Desired(spec.keys))
            && var p := UserPass(w, spec, s, ["k"]);
               && p.failure == Some("AssociateKeyFailed")
               && p.managed == []
               && p.w.dir == [Some(owner.(keys := map["k" := pem]))]
               && !Complete(Run(p.w.dir, p.w.calls, spec, s))
  {
    var owner := Account("svc", true, "", map[]);
    var keys := [PublicKey("k", pem)];
    var spec := UserSpec("svc", None, keys);
    assert keys[..0] == [] && Desired(keys[..0]) == map[];
    assert Desired(keys) == map["k" := pem];
    var s := Status(Issued(0), [], []);
    var w := World([Some(owner)], Upsert, [Turn([], Clean), Turn([], LostReply)], []);
    var (w1, got) := Get(w, 0);
    assert got == Ok(()) && w1.script == [Turn([], LostReply)];
    var (w2, reply) := Associate(w1, 0, "k", pem);
    assert reply == Failed;
    var p := UserPass(w, spec, s, ["k"]);
    assert p.w == w2;
    Logged(w.calls, GetCall(0));
    LoggedOutstanding(w.calls, GetCall(0));
    LoggedOutstanding(w1.calls, AssociateCall(0, "k", true, false));
    assert (0, "k") in Outstanding(p.w.calls);
  }
}
