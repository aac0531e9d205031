/** How far a key sync still has to go. */
module UserProgress {
  import opened Prelude
  import opened Remote
  import opened StatusPatch
  import opened UserModel
  import opened UserReplay
  import opened UserLedger

  // ---------------------------------------------------------------- the progress measure

  /** Keys still to associate, and keys still to remove. */
  function Distance(desired: map<string, string>, keys: map<string, string>, managed: set<string>): nat {
    |desired.Keys - managed| + |(managed - desired.Keys) * keys.Keys|
  }

  predicate Progress(c: Call) {
    (c.AssociateCall? && c.answered) || (c.RemoveCall? && c.landed)
  }

  /** Associations the operator saw succeed, and removals that took effect. */
  function ProgressCalls(calls: seq<Call>): nat {
    if calls == [] then 0
    else ProgressCalls(calls[..|calls| - 1]) + (if Progress(calls[|calls| - 1]) then 1 else 0)
  }

  lemma LoggedProgress(calls: seq<Call>, c: Call)
    ensures ProgressCalls(calls + [c]) == ProgressCalls(calls) + (if Progress(c) then 1 else 0)
  {
    assert (calls + [c])[..|calls|] == calls;
  }

  /** Progress made is never unmade: the log only grows, in every world. */
  lemma {:induction false} AddAllProgresses(w: World, id: Id, desired: map<string, string>, order: seq<string>, managed: seq<string>)
    requires Elements(order) <= desired.Keys
    ensures ProgressCalls(AddAll(w, id, desired, order, managed).w.calls) >= ProgressCalls(w.calls)
    decreases |order|
  {
    if order != [] {
      assert order[0] in Elements(order);
      if order[0] in managed {
        AddAllProgresses(w, id, desired, order[1..], managed);
      } else {
        var (w', reply) := Associate(w, id, order[0], desired[order[0]]);
        LoggedProgress(w.calls, w'.calls[|w.calls|]);
        if reply.Ok? {
          AddAllProgresses(w', id, desired, order[1..], managed + [order[0]]);
        }
      }
    }
  }

  lemma {:induction false} DropAllProgresses(w: World, id: Id, desired: map<string, string>, todo: seq<string>, kept: seq<string>)
    ensures ProgressCalls(DropAll(w, id, desired, todo, kept).w.calls) >= ProgressCalls(w.calls)
    decreases |todo|
  {
    if todo != [] {
      if todo[0] in desired {
        DropAllProgresses(w, id, desired, todo[1..], kept + [todo[0]]);
      } else {
        var (w', reply) := Remove(w, id, todo[0]);
        LoggedProgress(w.calls, w'.calls[|w.calls|]);
        if !reply.Failed? {
          DropAllProgresses(w', id, desired, todo[1..], kept);
        }
      }
    }
  }

  lemma SyncProgresses(w: World, id: Id, desired: map<string, string>, order: seq<string>, managed: seq<string>)
    requires Elements(order) <= desired.Keys
    ensures ProgressCalls(SyncKeys(w, id, desired, order, managed).w.calls) >= ProgressCalls(w.calls)
  {
    AddAllProgresses(w, id, desired, order, managed);
    var a := AddAll(w, id, desired, order, managed);
    if a.failure.None? {
      DropAllProgresses(a.w, id, desired, a.managed, []);
    }
  }

  lemma AssociationShortens(desired: map<string, string>, keys: map<string, string>, m: set<string>, kid: string, pem: string)
    requires kid in desired && kid !in m
    ensures Distance(desired, keys[kid := pem], m) == Distance(desired, keys, m)
    ensures Distance(desired, keys[kid := pem], m + {kid}) + 1 == Distance(desired, keys, m)
  {
    var after := keys[kid := pem];
    assert (m - desired.Keys) * after.Keys == (m - desired.Keys) * keys.Keys;
    assert (m + {kid}) - desired.Keys == m - desired.Keys;
    assert desired.Keys - m == (desired.Keys - (m + {kid})) + {kid};
  }

  lemma RemovalShortens(desired: map<string, string>, keys: map<string, string>, m: set<string>, kid: string)
    requires kid !in desired && kid in m && kid in keys
    ensures Distance(desired, keys - {kid}, m) + 1 == Distance(desired, keys, m)
  {
    assert (m - desired.Keys) * keys.Keys == ((m - desired.Keys) * (keys - {kid}).Keys) + {kid};
  }

  /** The distance that remains and the progress already made. */
  function Total(w: World, id: Id, desired: map<string, string>, managed: set<string>): nat
    requires Has(w.dir, id)
  {
    Distance(desired, w.dir[id].value.keys, managed) + ProgressCalls(w.calls)
  }

  lemma AssociateConserves(w: World, id: Id, desired: map<string, string>, kid: string, managed: seq<string>)
    requires Quiet(w) && Has(w.dir, id) && kid in desired && kid !in managed
    ensures var (w', reply) := Associate(w, id, kid, desired[kid]);
            && Quiet(w') && Has(w'.dir, id)
            && (reply.Ok? ==> Total(w', id, desired, Elements(managed + [kid])) == Total(w, id, desired, Elements(managed)))
            && (!reply.Ok? ==> Total(w', id, desired, Elements(managed)) == Total(w, id, desired, Elements(managed)))
  {
    var landed := AssociateEffect(w, id, kid, desired[kid]);
    var (w', reply) := Associate(w, id, kid, desired[kid]);
    LoggedProgress(w.calls, AssociateCall(id, kid, landed, reply.Ok?));
    assert Elements(managed + [kid]) == Elements(managed) + {kid};
    var before, after := Keys(w.dir, id), Keys(w'.dir, id);
    AssociationShortens(desired, before, Elements(managed), kid, desired[kid]);
    assert Distance(desired, after, Elements(managed)) == Distance(desired, before, Elements(managed));
  }

  lemma RemoveEffect(w: World, id: Id, kid: string) returns (landed: bool)
    requires Quiet(w) && Has(w.dir, id)
    ensures var w' := Remove(w, id, kid).0;
            && Quiet(w') && OnlyKeys(w.dir, w'.dir, id)
            && Keys(w'.dir, id) == (if landed then Keys(w.dir, id) - {kid} else Keys(w.dir, id))
            && w'.calls == w.calls + [RemoveCall(id, kid, landed, NextFault(w) == Clean)]
            && (landed ==> kid in Keys(w.dir, id))
  {
    landed := NextFault(w) != NoEffect && kid in Keys(w.dir, id);
  }

  lemma RemoveConserves(w: World, id: Id, desired: map<string, string>, kid: string, m: set<string>)
    requires Quiet(w) && Has(w.dir, id) && kid !in desired && kid in m
    ensures var (w', reply) := Remove(w, id, kid);
            Quiet(w') && Has(w'.dir, id) && Total(w', id, desired, m) == Total(w, id, desired, m)
  {
    var landed := RemoveEffect(w, id, kid);
    var w' := Remove(w, id, kid).0;
    LoggedProgress(w.calls, w'.calls[|w.calls|]);
    if landed {
      RemovalShortens(desired, Keys(w.dir, id), m, kid);
    }
  }

  lemma {:induction false} AddAllConserves(w: World, id: Id, desired: map<string, string>, order: seq<string>, managed: seq<string>)
    requires Quiet(w) && Has(w.dir, id) && Elements(order) <= desired.Keys
    ensures var r := AddAll(w, id, desired, order, managed);
            && Quiet(r.w) && Has(r.w.dir, id)
            && Total(r.w, id, desired, Elements(r.managed)) == Total(w, id, desired, Elements(managed))
    decreases |order|
  {
    if order != [] {
      assert order[0] in Elements(order);
      assert Elements(order) == {order[0]} + Elements(order[1..]);
      if order[0] in managed {
        AddAllConserves(w, id, desired, order[1..], managed);
      } else {
        var (w', reply) := Associate(w, id, order[0], desired[order[0]]);
        AssociateConserves(w, id, desired, order[0], managed);
        if reply.Ok? {
          AddAllConserves(w', id, desired, order[1..], managed + [order[0]]);
        }
      }
    }
  }

  lemma {:induction false} DropAllConserves(w: World, id: Id, desired: map<string, string>, todo: seq<string>, kept: seq<string>, m: set<string>)
    requires Quiet(w) && Has(w.dir, id) && Elements(todo) <= m
    ensures var r := DropAll(w, id, desired, todo, kept);
            Has(r.w.dir, id) && Total(r.w, id, desired, m) == Total(w, id, desired, m)
    decreases |todo|
  {
    if todo != [] {
      assert todo[0] in Elements(todo);
      assert Elements(todo) == {todo[0]} + Elements(todo[1..]);
      if todo[0] in desired {
        DropAllConserves(w, id, desired, todo[1..], kept + [todo[0]], m);
      } else {
        var (w', reply) := Remove(w, id, todo[0]);
        RemoveConserves(w, id, desired, todo[0], m);
        if !reply.Failed? {
          DropAllConserves(w', id, desired, todo[1..], kept, m);
        }
      }
    }
  }

  /** Conservation: on a live account without third-party edits, the distance falls by exactly the number
      of associations seen to succeed and removals that landed, so it never rises; and a sync that reports
      success ends at distance zero. */
  lemma SyncDistance(w: World, id: Id, desired: map<string, string>, order: seq<string>, managed: seq<string>)
    requires Quiet(w) && Has(w.dir, id) && Elements(order) == desired.Keys
    ensures var r := SyncKeys(w, id, desired, order, managed);
            && Has(r.w.dir, id)
            && Total(r.w, id, desired, Elements(r.managed)) == Total(w, id, desired, Elements(managed))
            && ProgressCalls(r.w.calls) >= ProgressCalls(w.calls)
            && Distance(desired, Keys(r.w.dir, id), Elements(r.managed)) <= Distance(desired, Keys(w.dir, id), Elements(managed))
            && (r.failure.None? ==> Distance(desired, Keys(r.w.dir, id), Elements(r.managed)) == 0)
  {
    SyncProgresses(w, id, desired, order, managed);
    var a := AddAll(w, id, desired, order, managed);
    AddAllConserves(w, id, desired, order, managed);
    if a.failure.None? {
      AddAllPartway(w, id, desired, order, managed, Keys(w.dir, id), Elements(managed));
      DropDistance(a.w, id, desired, a.managed);
    }
  }

  /** Dropping removed key ids from the ledger once all removals are done keeps the total. */
  lemma DropDistance(w: World, id: Id, desired: map<string, string>, managed: seq<string>)
    requires Quiet(w) && Has(w.dir, id) && desired.Keys <= Elements(managed)
    ensures var r := DropAll(w, id, desired, managed, []);
            && Has(r.w.dir, id)
            && Total(r.w, id, desired, Elements(managed)) == Total(w, id, desired, Elements(managed))
            && (r.failure.None? ==>
                  && Total(r.w, id, desired, Elements(r.managed)) == Total(w, id, desired, Elements(managed))
                  && Distance(desired, Keys(r.w.dir, id), Elements(r.managed)) == 0)
  {
    var m := Elements(managed);
    var r := DropAll(w, id, desired, managed, []);
    DropAllConserves(w, id, desired, managed, [], m);
    PartwayStart(desired, Keys(w.dir, id), m);
    DropAllPartway(w, id, desired, managed, [], Keys(w.dir, id), m, m);
    if r.failure.None? {
      Arrived(desired, Keys(r.w.dir, id), m);
      Arrived(desired, Keys(r.w.dir, id), Elements(r.managed));
    }
  }

  lemma Arrived(desired: map<string, string>, keys: map<string, string>, m: set<string>)
    requires desired.Keys <= m && forall kid | kid in m && kid !in desired :: kid !in keys
    ensures Distance(desired, keys, m) == 0
  {
    assert desired.Keys - m == {};
    assert (m - desired.Keys) * keys.Keys == {};
  }

  lemma PartwayStart(desired: map<string, string>, keys: map<string, string>, m: set<string>)
    ensures Partway(desired, keys, m, keys, m)
  {
  }

  lemma SyncAccountDistance(w: World, id: Id, spec: UserSpec, order: seq<string>, managed: seq<string>)
    requires Quiet(w) && Has(w.dir, id) && IsOrder(order, Desired(spec.keys))
    ensures var r, desired := SyncAccount(w, id, spec, order, managed), Desired(spec.keys);
            && Has(r.w.dir, id)
            && Total(r.w, id, desired, Elements(r.managed)) == Total(w, id, desired, Elements(managed))
            && ProgressCalls(r.w.calls) >= ProgressCalls(w.calls)
            && Distance(desired, Keys(r.w.dir, id), Elements(managed)) <= Distance(desired, Keys(w.dir, id), Elements(managed))
            && (r.failure.None? ==> Distance(desired, Keys(r.w.dir, id), Elements(r.managed)) == 0)
  {
    hide Distance, Desired;
    var desired := Desired(spec.keys);
    var w1 := if spec.displayName.Some? then PatchName(w, id, spec.displayName.value).0 else w;
    if spec.displayName.Some? {
      LoggedProgress(w.calls, w1.calls[|w.calls|]);
    }
    assert Keys(w1.dir, id) == Keys(w.dir, id);
    SyncDistance(w1, id, desired, order, managed);
    SyncIsNoFarther(w1, id, desired, order, managed);
  }

  lemma SyncIsNoFarther(w: World, id: Id, desired: map<string, string>, order: seq<string>, managed: seq<string>)
    requires Quiet(w) && Has(w.dir, id) && Elements(order) == desired.Keys
    ensures var r := SyncKeys(w, id, desired, order, managed);
            && Has(r.w.dir, id)
            && Distance(desired, Keys(r.w.dir, id), Elements(managed)) <= Distance(desired, Keys(w.dir, id), Elements(managed))
  {
    SyncKeysPartway(w, id, desired, order, managed);
    var r := SyncKeys(w, id, desired, order, managed);
    PartwayIsNoFarther(desired, Keys(w.dir, id), Elements(managed), Keys(r.w.dir, id), Elements(r.managed));
  }

  lemma PartwayIsNoFarther(desired: map<string, string>, k0: map<string, string>, m0: set<string>,
                           k1: map<string, string>, m1: set<string>)
    requires Partway(desired, k0, m0, k1, m1)
    ensures Distance(desired, k1, m0) <= Distance(desired, k0, m0)
  {
    var before, after := (m0 - desired.Keys) * k0.Keys, (m0 - desired.Keys) * k1.Keys;
    forall kid | kid in after ensures kid in before {
      assert At(k1, kid) == At(k0, kid) || At(k1, kid) == None;
    }
    Smaller(after, before);
  }

  lemma {:induction false} Smaller(a: set<string>, b: set<string>)
    requires a <= b
    ensures |a| <= |b|
  {
    if a != {} {
      var x :| x in a;
      Smaller(a - {x}, b - {x});
    }
  }

  // ---------------------------------------------------------------- the measure over runs

  /** The distance of the account a pass will work on. */
  ghost function Ahead(dir: Registry<Account>, spec: UserSpec, stored: StoredId, managed: set<string>): nat {
    var (d, id) := Resolve(dir, spec.username, stored);
    Resolved(dir, spec.username, stored);
    Distance(Desired(spec.keys), Keys(d, id), managed)
  }

  lemma EnsureMakesNoProgress(w: World, username: string, stored: StoredId)
    ensures ProgressCalls(Ensure(w, username, stored).w.calls) == ProgressCalls(w.calls)
  {
    if stored.Issued? {
      LoggedProgress(w.calls, GetCall(stored.id));
      FindMakesNoProgress(Get(w, stored.id).0, username, Empty);
    } else {
      FindMakesNoProgress(w, username, stored);
    }
  }

  lemma FindMakesNoProgress(w: World, username: string, stored: StoredId)
    ensures ProgressCalls(FindOrCreate(w, username, stored).w.calls) == ProgressCalls(w.calls)
  {
    var create := FindCalls(w, username, stored);
    LoggedProgress(w.calls, ListCall);
    LoggedProgress(w.calls + [ListCall], create);
  }

  /** Whatever became of the search for the account, the next pass works on the same one. */
  lemma EnsureKeepsAccount(w: World, username: string, stored: StoredId)
    requires Quiet(w) && Room(w.dir, username, stored)
    ensures var e := Ensure(w, username, stored);
            && Resolve(e.w.dir, username, e.stored) == Resolve(w.dir, username, stored)
            && Resolve(e.w.dir, username, stored) == Resolve(w.dir, username, stored)
            && Room(e.w.dir, username, e.stored) && Room(e.w.dir, username, stored)
  {
    EnsureOutcome(w, username, stored);
    ResolveStable(w.dir, username, stored);
    var e := Ensure(w, username, stored);
    var (d, id) := Resolve(w.dir, username, stored);
    if e.w.dir == d && Creates(w.dir, username, stored) {
      assert |d| == |w.dir| + 1;
      assert !Creates(d, username, e.stored) && !Creates(d, username, stored);
    }
  }

  /** Conservation over one pass, with the account known or not, found or created: what the pass makes in
      effective key calls it gains in distance; so the distance does not rise, and if the status write is
      lost it does not rise either. */
  lemma PassDistance(w: World, spec: UserSpec, s: Status, order: seq<string>)
    requires Quiet(w) && IsOrder(order, Desired(spec.keys)) && Room(w.dir, spec.username, s.id)
    ensures var p, m := UserPass(w, spec, s, order), Elements(s.managed);
            && ProgressCalls(p.w.calls) + Ahead(p.w.dir, spec, p.stored, Elements(p.managed))
               == ProgressCalls(w.calls) + Ahead(w.dir, spec, s.id, m)
            && ProgressCalls(p.w.calls) >= ProgressCalls(w.calls)
            && Ahead(p.w.dir, spec, p.stored, Elements(p.managed)) <= Ahead(w.dir, spec, s.id, m)
            && Ahead(p.w.dir, spec, s.id, m) <= Ahead(w.dir, spec, s.id, m)
            && (p.failure.None? ==> Ahead(p.w.dir, spec, p.stored, Elements(p.managed)) == 0)
            && Room(p.w.dir, spec.username, p.stored) && Room(p.w.dir, spec.username, s.id)
  {
    hide Distance, Desired;
    var e := Ensure(w, spec.username, s.id);
    EnsureMakesNoProgress(w, spec.username, s.id);
    EnsureKeepsAccount(w, spec.username, s.id);
    EnsureOutcome(w, spec.username, s.id);
    if e.id.Some? {
      KnownPassDistance(w, e, spec, s, order);
    }
  }

  lemma KnownPassDistance(w: World, e: Ensured, spec: UserSpec, s: Status, order: seq<string>)
    requires Quiet(e.w) && IsOrder(order, Desired(spec.keys)) && Room(w.dir, spec.username, s.id)
    requires e.id.Some? && e.stored == Issued(e.id.value) && (e.w.dir, e.id.value) == Resolve(w.dir, spec.username, s.id)
    requires Has(e.w.dir, e.id.value) && ProgressCalls(e.w.calls) == ProgressCalls(w.calls)
    ensures var k, m := SyncAccount(e.w, e.id.value, spec, order, s.managed), Elements(s.managed);
            && ProgressCalls(k.w.calls) + Ahead(k.w.dir, spec, e.stored, Elements(k.managed))
               == ProgressCalls(w.calls) + Ahead(w.dir, spec, s.id, m)
            && ProgressCalls(k.w.calls) >= ProgressCalls(w.calls)
            && Ahead(k.w.dir, spec, s.id, m) <= Ahead(w.dir, spec, s.id, m)
            && (k.failure.None? ==> Ahead(k.w.dir, spec, e.stored, Elements(k.managed)) == 0)
            && Room(k.w.dir, spec.username, e.stored) && Room(k.w.dir, spec.username, s.id)
  {
    hide Distance, Desired;
    var id, m := e.id.value, Elements(s.managed);
    var k := SyncAccount(e.w, id, spec, order, s.managed);
    SyncAccountDistance(e.w, id, spec, order, s.managed);
    SyncAccountPartway(e.w, id, spec, order, s.managed);
    AccountPartwayOutcome(spec, w.dir, s.id, m, k.w.dir, Elements(k.managed), e.stored, m);
    AccountPartwayOutcome(spec, w.dir, s.id, m, k.w.dir, Elements(k.managed), s.id, m);
  }

  /** A pass during which no third party acts. */
  predicate PlainPass(e: Event) {
    e.Reconcile? && forall k :: 0 <= k < |e.script| ==> e.script[k].edits == []
  }

  ghost function AheadOf(r: Run): nat {
    Ahead(r.dir, r.spec, r.status.id, Elements(r.status.managed))
  }

  ghost predicate PlainRun(r: Run, events: seq<Event>) {
    Room(r.dir, r.spec.username, r.status.id) && forall i :: 0 <= i < |events| ==> PlainPass(events[i])
  }

  lemma PlainStep(r: Run, policy: Policy, e: Event)
    requires PlainPass(e) && Room(r.dir, r.spec.username, r.status.id)
    ensures var next := Step(r, policy, e);
            && next.spec == r.spec && Room(next.dir, next.spec.username, next.status.id)
            && AheadOf(next) <= AheadOf(r)
            && (e.written ==> ProgressCalls(next.calls) + AheadOf(next) == ProgressCalls(r.calls) + AheadOf(r))
  {
    hide Ahead, ProgressCalls, Room;
    if IsOrder(e.order, Desired(r.spec.keys)) {
      PassDistance(World(r.dir, policy, e.script, r.calls), r.spec, r.status, e.order);
    }
  }

  /** Over a whole run of such passes with the spec frozen, whatever fails, in whatever order they walk over
      the keys, and whether their status writes are kept or lost, the distance never rises. */
  lemma {:induction false} RunNeverRises(r: Run, policy: Policy, events: seq<Event>)
    requires PlainRun(r, events)
    ensures AheadOf(Steps(r, policy, events)) <= AheadOf(r)
    decreases |events|
  {
    hide Ahead, Room;
    if events != [] {
      PlainStep(r, policy, events[0]);
      RunNeverRises(Step(r, policy, events[0]), policy, events[1..]);
    }
  }

  /** If all writes are kept, the effective key calls number exactly the distance gained: never more than the
      distance at the start. */
  lemma {:induction false} RunDistance(r: Run, policy: Policy, events: seq<Event>)
    requires PlainRun(r, events) && forall i :: 0 <= i < |events| ==> events[i].written
    ensures var end := Steps(r, policy, events);
            ProgressCalls(end.calls) + AheadOf(end) == ProgressCalls(r.calls) + AheadOf(r)
    decreases |events|
  {
    hide Ahead, ProgressCalls, Room;
    if events != [] {
      PlainStep(r, policy, events[0]);
      RunDistance(Step(r, policy, events[0]), policy, events[1..]);
    }
  }

  // ---------------------------------------------------------------- stored ids

  /** A stored id is kept, cleared, or replaced by one the server issued; a pass that reports success
      has an id. This holds in every world. */
  lemma StoredIdShape(w: World, spec: UserSpec, s: Status, order: seq<string>)
    requires IsOrder(order, Desired(spec.keys))
    ensures var p := UserPass(w, spec, s, order);
            && (p.stored == s.id || p.stored == Empty || p.stored.Issued?)
            && (p.failure.None? ==> p.stored.Issued?)
  {
  }
}
