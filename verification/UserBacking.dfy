/** How long the ledger names only keys the operator put on the server and has not removed since. Once it names
    more, such a key may be somebody else's by the time it is removed. */
module UserBacking {
  import opened Prelude
  import opened Remote
  import opened StatusPatch
  import opened UserModel
  import opened UserReplay
  import opened UserLedger

  /** Every key id of the list is outstanding on this account. */
  ghost predicate Backed(calls: seq<Call>, id: Id, managed: seq<string>) {
    forall kid | kid in managed :: (id, kid) in Outstanding(calls)
  }

  // ---------------------------------------------------------------- the key phase

  lemma AssociateBacked(w: World, id: Id, kid: string, pem: string, managed: seq<string>)
    requires Backed(w.calls, id, managed)
    ensures var (w', reply) := Associate(w, id, kid, pem);
            && Backed(w'.calls, id, if reply.Ok? then managed + [kid] else managed)
            && Removed(w'.calls) == Removed(w.calls)
            && OnlyOutstandingRemovals(w'.calls) == OnlyOutstandingRemovals(w.calls)
            && Outstanding(w.calls) <= Outstanding(w'.calls) <= Outstanding(w.calls) + {(id, kid)}
  {
    var (w', reply) := Associate(w, id, kid, pem);
    LoggedOutstanding(w.calls, w'.calls[|w.calls|]);
    LoggedRemoval(w.calls, w'.calls[|w.calls|]);
  }

  lemma {:induction false} AddAllBacked(w: World, id: Id, desired: map<string, string>, order: seq<string>, managed: seq<string>)
    requires Elements(order) <= desired.Keys && Backed(w.calls, id, managed)
    ensures var r := AddAll(w, id, desired, order, managed);
            && Backed(r.w.calls, id, r.managed)
            && Removed(r.w.calls) == Removed(w.calls)
            && OnlyOutstandingRemovals(r.w.calls) == OnlyOutstandingRemovals(w.calls)
            && Outstanding(w.calls) <= Outstanding(r.w.calls)
            && (forall kid | kid in managed :: kid in r.managed)
            && (forall kid | kid in r.managed :: kid in managed || kid in desired)
    decreases |order|
  {
    if order != [] {
      assert order[0] in Elements(order);
      if order[0] in managed {
        AddAllBacked(w, id, desired, order[1..], managed);
      } else {
        AssociateBacked(w, id, order[0], desired[order[0]], managed);
        var (w', reply) := Associate(w, id, order[0], desired[order[0]]);
        if reply.Ok? {
          AddAllBacked(w', id, desired, order[1..], managed + [order[0]]);
        }
      }
    }
  }

  lemma RemoveEffect(w: World, id: Id, kid: string)
    ensures var (w', reply) := Remove(w, id, kid);
            && Removed(w'.calls) == Removed(w.calls) + (if reply.Failed? then 0 else 1)
            && Outstanding(w'.calls) == (if reply.Failed? then Outstanding(w.calls) else Outstanding(w.calls) - {(id, kid)})
            && OnlyOutstandingRemovals(w'.calls) == (OnlyOutstandingRemovals(w.calls) && (id, kid) in Outstanding(w.calls))
  {
    var (w', reply) := Remove(w, id, kid);
    LoggedOutstanding(w.calls, w'.calls[|w.calls|]);
    LoggedRemoval(w.calls, w'.calls[|w.calls|]);
  }

  /** What the removal phase forgets: nothing exactly if no removal was answered; else some key of the list. */
  lemma {:induction false} DropAllForgets(w: World, id: Id, desired: map<string, string>, todo: seq<string>, kept: seq<string>)
    ensures var r := DropAll(w, id, desired, todo, kept);
            && Removed(w.calls) <= Removed(r.w.calls)
            && (Removed(r.w.calls) == Removed(w.calls) ==> Outstanding(r.w.calls) == Outstanding(w.calls))
            && (Removed(r.w.calls) > Removed(w.calls) ==>
                  exists kid :: kid in todo && kid !in desired && (id, kid) !in Outstanding(r.w.calls))
            && Outstanding(r.w.calls) <= Outstanding(w.calls)
            && (forall pair | pair in Outstanding(w.calls) && pair.1 in desired :: pair in Outstanding(r.w.calls))
            && (r.failure.None? ==> forall kid | kid in r.managed :: kid in kept || (kid in todo && kid in desired))
    decreases |todo|
  {
    if todo != [] {
      assert forall kid :: kid in todo <==> kid == todo[0] || kid in todo[1..];
      if todo[0] in desired {
        DropAllForgets(w, id, desired, todo[1..], kept + [todo[0]]);
      } else {
        RemoveEffect(w, id, todo[0]);
        var (w', reply) := Remove(w, id, todo[0]);
        if !reply.Failed? {
          DropAllForgets(w', id, desired, todo[1..], kept);
          assert (id, todo[0]) !in Outstanding(DropAll(w', id, desired, todo[1..], kept).w.calls);
        }
      }
    }
  }

  /** With every unwanted key of the list outstanding, and named once, each is so when its turn comes. */
  lemma {:induction false} DropAllOutstanding(w: World, id: Id, desired: map<string, string>, todo: seq<string>, kept: seq<string>)
    requires OnlyOutstandingRemovals(w.calls) && NoDup(todo)
    requires forall kid | kid in todo && kid !in desired :: (id, kid) in Outstanding(w.calls)
    ensures OnlyOutstandingRemovals(DropAll(w, id, desired, todo, kept).w.calls)
    decreases |todo|
  {
    if todo != [] {
      if todo[0] in desired {
        DropAllOutstanding(w, id, desired, todo[1..], kept + [todo[0]]);
      } else {
        RemoveEffect(w, id, todo[0]);
        var (w', reply) := Remove(w, id, todo[0]);
        if !reply.Failed? {
          assert forall kid | kid in todo[1..] :: kid != todo[0];
          DropAllOutstanding(w', id, desired, todo[1..], kept);
        }
      }
    }
  }

  /** Otherwise the removal of the one that is not is logged, if nothing fails before. */
  lemma {:induction false} DropAllReachesOthers(w: World, id: Id, desired: map<string, string>, todo: seq<string>,
                                                kept: seq<string>, kid: string)
    requires w.script == [] && kid in todo && kid !in desired
    requires (id, kid) !in Outstanding(w.calls) || !OnlyOutstandingRemovals(w.calls)
    ensures !OnlyOutstandingRemovals(DropAll(w, id, desired, todo, kept).w.calls)
    decreases |todo|
  {
    if todo[0] in desired {
      DropAllReachesOthers(w, id, desired, todo[1..], kept + [todo[0]], kid);
    } else {
      RemoveEffect(w, id, todo[0]);
      var w' := Remove(w, id, todo[0]).0;
      if kid in todo[1..] {
        DropAllReachesOthers(w', id, desired, todo[1..], kept, kid);
      } else {
        BrokenStaysBroken(w', id, desired, todo[1..], kept);
      }
    }
  }

  lemma {:induction false} BrokenStaysBroken(w: World, id: Id, desired: map<string, string>, todo: seq<string>, kept: seq<string>)
    requires !OnlyOutstandingRemovals(w.calls)
    ensures !OnlyOutstandingRemovals(DropAll(w, id, desired, todo, kept).w.calls)
    decreases |todo|
  {
    if todo != [] {
      if todo[0] in desired {
        BrokenStaysBroken(w, id, desired, todo[1..], kept + [todo[0]]);
      } else {
        RemoveEffect(w, id, todo[0]);
        var (w', reply) := Remove(w, id, todo[0]);
        if !reply.Failed? {
          BrokenStaysBroken(w', id, desired, todo[1..], kept);
        }
      }
    }
  }

  /** A key sync on a backed ledger. */
  ghost predicate Sync(before: seq<Call>, after: seq<Call>, id: Id, managed: seq<string>, k: KeySync) {
    && Removed(before) <= Removed(after)
    && (Removed(after) == Removed(before) ==> Backed(after, id, managed) && Backed(after, id, k.managed))
    && (Removed(after) > Removed(before) ==> !Backed(after, id, managed) && (k.failure.None? <==> Backed(after, id, k.managed)))
    && (NoDup(managed) && OnlyOutstandingRemovals(before) ==> OnlyOutstandingRemovals(after))
  }

  lemma SyncKeysBacked(w: World, id: Id, desired: map<string, string>, order: seq<string>, managed: seq<string>)
    requires Elements(order) <= desired.Keys && Backed(w.calls, id, managed)
    ensures var k := SyncKeys(w, id, desired, order, managed); Sync(w.calls, k.w.calls, id, managed, k)
  {
    AddAllBacked(w, id, desired, order, managed);
    var a := AddAll(w, id, desired, order, managed);
    if a.failure.None? {
      DropAllForgets(a.w, id, desired, a.managed, []);
      if NoDup(managed) && OnlyOutstandingRemovals(w.calls) {
        AddAllNoDup(w, id, desired, order, managed);
        DropAllOutstanding(a.w, id, desired, a.managed, []);
      }
    }
  }

  lemma SyncAccountBacked(w: World, id: Id, spec: UserSpec, order: seq<string>, managed: seq<string>)
    requires IsOrder(order, Desired(spec.keys)) && Backed(w.calls, id, managed)
    ensures var k := SyncAccount(w, id, spec, order, managed); Sync(w.calls, k.w.calls, id, managed, k)
  {
    if spec.displayName.Some? {
      var w1 := PatchName(w, id, spec.displayName.value).0;
      OtherCall(w.calls, w1.calls[|w.calls|]);
      SyncKeysBacked(w1, id, Desired(spec.keys), order, managed);
    } else {
      SyncKeysBacked(w, id, Desired(spec.keys), order, managed);
    }
  }

  // ---------------------------------------------------------------- runs

  /** The ledger names only keys that the operator put on the account of the stored id and has not removed since:
      the mirror image of Complete. */
  ghost predicate BackedRun(r: Run) {
    if r.status.id.Issued? then Backed(r.calls, r.status.id.id, r.status.managed) else r.status.managed == []
  }

  /** The pass made no removal that was answered; or it reported success and its status write was kept. */
  ghost predicate NothingForgotten(r: Run, policy: Policy, e: Event) {
    e.Reconcile? && IsOrder(e.order, Desired(r.spec.keys)) ==>
      var p := UserPass(World(r.dir, policy, e.script, r.calls), r.spec, r.status, e.order);
      Removed(p.w.calls) == Removed(r.calls) || (e.written && p.failure.None?)
  }

  /** Exactly then the ledger stays backed. It does not if the status write after a removal is lost, nor if a
      removal phase is aborted after a removal, as that leaves the ledger of its start. */
  lemma StepBackedIff(r: Run, policy: Policy, e: Event)
    requires BackedRun(r)
    requires e.Reconcile? ==> !FindsStale(World(r.dir, policy, e.script, r.calls), r.status.id)
    ensures BackedRun(Step(r, policy, e)) <==> NothingForgotten(r, policy, e)
    ensures NoDup(r.status.managed) && OnlyOutstandingRemovals(r.calls) ==>
              OnlyOutstandingRemovals(Step(r, policy, e).calls) && NoDup(Step(r, policy, e).status.managed)
  {
    if e.Reconcile? && IsOrder(e.order, Desired(r.spec.keys)) {
      var w := World(r.dir, policy, e.script, r.calls);
      var n := Ensure(w, r.spec.username, r.status.id);
      EnsureTouchesNoKey(w, r.spec.username, r.status.id);
      EnsureNotStale(w, r.spec.username, r.status.id);
      if NoDup(r.status.managed) {
        ManagedStaysDuplicateFree(w, r.spec, r.status, e.order);
      }
      if n.id.Some? {
        SyncAccountBacked(n.w, n.id.value, r.spec, e.order, r.status.managed);
      }
    }
  }

  ghost predicate BackedThroughout(r: Run, policy: Policy, events: seq<Event>)
    decreases |events|
  {
    BackedRun(r) && (events == [] || BackedThroughout(Step(r, policy, events[0]), policy, events[1..]))
  }

  ghost predicate NothingEverForgotten(r: Run, policy: Policy, events: seq<Event>)
    decreases |events|
  {
    events == [] || (NothingForgotten(r, policy, events[0]) && NothingEverForgotten(Step(r, policy, events[0]), policy, events[1..]))
  }

  lemma {:induction false} RunBackedIff(r: Run, policy: Policy, events: seq<Event>)
    requires BackedRun(r) && NeverStale(r, policy, events)
    ensures BackedThroughout(r, policy, events) <==> NothingEverForgotten(r, policy, events)
    ensures NothingEverForgotten(r, policy, events) && NoDup(r.status.managed) && OnlyOutstandingRemovals(r.calls) ==>
              OnlyOutstandingRemovals(Steps(r, policy, events).calls)
    decreases |events|
  {
    if events != [] {
      var next := Step(r, policy, events[0]);
      StepBackedIff(r, policy, events[0]);
      if NothingForgotten(r, policy, events[0]) {
        RunBackedIff(next, policy, events[1..]);
      } else {
        assert !BackedThroughout(next, policy, events[1..]);
      }
    }
  }

  /** Over every run from a new resource in which no pass finds its stored account gone: the ledger is backed at
      every point exactly if every pass with an answered removal reported success and had its status write
      kept; and then every call of Remove was for a key that the operator had put there and not removed
      since. A key that somebody else associated under the kid of a removed one is safe as long as this holds. */
  lemma OnlyOutstandingKeysRemoved(dir: Registry<Account>, policy: Policy, spec: UserSpec, events: seq<Event>)
    requires NeverStale(Run(dir, [], spec, NEW_STATUS), policy, events)
    ensures var r0 := Run(dir, [], spec, NEW_STATUS);
            && (BackedThroughout(r0, policy, events) <==> NothingEverForgotten(r0, policy, events))
            && (NothingEverForgotten(r0, policy, events) ==> OnlyOutstandingRemovals(Steps(r0, policy, events).calls))
  {
    RunBackedIff(Run(dir, [], spec, NEW_STATUS), policy, events);
  }
}
