/** Who owns which key: the ledger of managed key ids over whole runs of passes, spec edits and
    third-party edits, with third parties acting between any two calls. */
module UserLedger {
  import opened Prelude
  import opened Remote
  import opened StatusPatch
  import opened UserModel
  import opened UserReplay

  type Pair = (Id, string)

  // ---------------------------------------------------------------- reading the call log

  /** The keys whose association the operator saw succeed. */
  function Acked(calls: seq<Call>): set<Pair> {
    if calls == [] then {} else
      var c := calls[|calls| - 1];
      Acked(calls[..|calls| - 1]) + (if c.AssociateCall? && c.answered then {(c.id, c.kid)} else {})
  }

  /** Every removal was of a key whose association the operator had seen succeed. */
  predicate OnlyOwnRemovals(calls: seq<Call>) {
    calls != [] ==>
      var c := calls[|calls| - 1];
      && OnlyOwnRemovals(calls[..|calls| - 1])
      && (c.RemoveCall? ==> (c.id, c.kid) in Acked(calls[..|calls| - 1]))
  }

  function AfterCall(before: set<Pair>, c: Call): set<Pair> {
    if c.AssociateCall? && c.landed then before + {(c.id, c.kid)}
    else if c.RemoveCall? && c.answered then before - {(c.id, c.kid)}
    else before
  }

  /** The keys the operator put on the server and has not removed since. */
  function Outstanding(calls: seq<Call>): set<Pair> {
    if calls == [] then {} else AfterCall(Outstanding(calls[..|calls| - 1]), calls[|calls| - 1])
  }

  /** Associations that took effect. */
  function Landed(calls: seq<Call>): nat {
    if calls == [] then 0 else
      var c := calls[|calls| - 1];
      Landed(calls[..|calls| - 1]) + (if c.AssociateCall? && c.landed then 1 else 0)
  }

  /** Associations that took effect although the operator got an error. */
  function Slipped(calls: seq<Call>): nat {
    if calls == [] then 0 else
      var c := calls[|calls| - 1];
      Slipped(calls[..|calls| - 1]) + (if c.AssociateCall? && c.landed && !c.answered then 1 else 0)
  }

  /** Removals that were answered. */
  function Removed(calls: seq<Call>): nat {
    if calls == [] then 0 else
      var c := calls[|calls| - 1];
      Removed(calls[..|calls| - 1]) + (if c.RemoveCall? && c.answered then 1 else 0)
  }

  /** Every removal was of a key that the operator had put on the server and not removed since. */
  predicate OnlyOutstandingRemovals(calls: seq<Call>) {
    calls != [] ==>
      var c := calls[|calls| - 1];
      && OnlyOutstandingRemovals(calls[..|calls| - 1])
      && (c.RemoveCall? ==> (c.id, c.kid) in Outstanding(calls[..|calls| - 1]))
  }

  lemma LoggedRemoval(calls: seq<Call>, c: Call)
    ensures Removed(calls + [c]) == Removed(calls) + (if c.RemoveCall? && c.answered then 1 else 0)
    ensures OnlyOutstandingRemovals(calls + [c]) ==
            (OnlyOutstandingRemovals(calls) && (c.RemoveCall? ==> (c.id, c.kid) in Outstanding(calls)))
  {
    assert (calls + [c])[..|calls|] == calls;
  }

  lemma Logged(calls: seq<Call>, c: Call)
    ensures (calls + [c])[..|calls|] == calls
    ensures Acked(calls + [c]) == Acked(calls) + (if c.AssociateCall? && c.answered then {(c.id, c.kid)} else {})
    ensures OnlyOwnRemovals(calls + [c]) ==
            (OnlyOwnRemovals(calls) && (c.RemoveCall? ==> (c.id, c.kid) in Acked(calls)))
  {
    assert (calls + [c])[..|calls|] == calls;
  }

  lemma LoggedOutstanding(calls: seq<Call>, c: Call)
    ensures Outstanding(calls + [c]) == AfterCall(Outstanding(calls), c)
    ensures Landed(calls + [c]) == Landed(calls) + (if c.AssociateCall? && c.landed then 1 else 0)
    ensures Slipped(calls + [c]) == Slipped(calls) + (if c.AssociateCall? && c.landed && !c.answered then 1 else 0)
  {
    assert (calls + [c])[..|calls|] == calls;
  }

  // ---------------------------------------------------------------- worlds without deletions

  predicate KeepsAll(edits: seq<Edit>) {
    forall i :: 0 <= i < |edits| ==> !edits[i].Delete?
  }

  predicate NoDeletes(script: seq<Turn>) {
    forall i :: 0 <= i < |script| ==> KeepsAll(script[i].edits)
  }

  /** Accounts of `d` are in `e` under the same name and id. */
  ghost predicate Keeps(d: Registry<Account>, e: Registry<Account>) {
    && |d| <= |e|
    && forall i: nat | Has(d, i) ::
         && Has(e, i)
         && e[i].value.username == d[i].value.username
         && e[i].value.isService == d[i].value.isService
  }

  lemma {:induction false} EditsKeep(d: Registry<Account>, edits: seq<Edit>)
    requires KeepsAll(edits)
    ensures Keeps(d, AllEdited(d, edits))
    decreases |edits|
  {
    if edits != [] {
      EditsKeep(Edited(d, edits[0]), edits[1..]);
      assert Keeps(d, Edited(d, edits[0]));
    }
  }

  lemma ArriveKeeps(w: World)
    requires NoDeletes(w.script)
    ensures Keeps(w.dir, Arrive(w).dir) && NoDeletes(Arrive(w).script)
  {
    if w.script != [] {
      EditsKeep(w.dir, w.script[0].edits);
    }
  }

  // ---------------------------------------------------------------- the key phase

  ghost predicate Owned(calls: seq<Call>, id: Id, managed: seq<string>) {
    forall kid | kid in managed :: (id, kid) in Acked(calls)
  }

  lemma {:induction false} AddAllOwned(w: World, id: Id, desired: map<string, string>, order: seq<string>, managed: seq<string>)
    requires Elements(order) <= desired.Keys
    requires OnlyOwnRemovals(w.calls) && Owned(w.calls, id, managed)
    ensures var r := AddAll(w, id, desired, order, managed);
            && OnlyOwnRemovals(r.w.calls) && Owned(r.w.calls, id, r.managed)
            && Acked(w.calls) <= Acked(r.w.calls)
            && forall pair | pair in Acked(r.w.calls) && pair !in Acked(w.calls) :: pair.0 == id && pair.1 in desired
    decreases |order|
  {
    if order != [] {
      assert order[0] in Elements(order);
      assert Elements(order) == {order[0]} + Elements(order[1..]);
      if order[0] in managed {
        AddAllOwned(w, id, desired, order[1..], managed);
      } else {
        var (w', reply) := Associate(w, id, order[0], desired[order[0]]);
        Logged(w.calls, w'.calls[|w.calls|]);
        if reply.Ok? {
          AddAllOwned(w', id, desired, order[1..], managed + [order[0]]);
        }
      }
    }
  }

  lemma RemoveOwned(w: World, id: Id, kid: string)
    requires OnlyOwnRemovals(w.calls) && (id, kid) in Acked(w.calls)
    ensures var w' := Remove(w, id, kid).0; OnlyOwnRemovals(w'.calls) && Acked(w'.calls) == Acked(w.calls)
  {
    Logged(w.calls, Remove(w, id, kid).0.calls[|w.calls|]);
  }

  lemma {:induction false} DropAllOwned(w: World, id: Id, desired: map<string, string>, todo: seq<string>, kept: seq<string>)
    requires OnlyOwnRemovals(w.calls) && Owned(w.calls, id, kept)
    requires forall kid | kid in todo :: (id, kid) in Acked(w.calls) || kid in desired
    requires forall kid | kid in todo && kid in desired :: (id, kid) in Acked(w.calls)
    ensures var r := DropAll(w, id, desired, todo, kept);
            && OnlyOwnRemovals(r.w.calls) && Owned(r.w.calls, id, r.managed)
            && Acked(w.calls) == Acked(r.w.calls)
    decreases |todo|
  {
    if todo != [] {
      if todo[0] in desired {
        DropAllOwned(w, id, desired, todo[1..], kept + [todo[0]]);
      } else {
        RemoveOwned(w, id, todo[0]);
        var (w', reply) := Remove(w, id, todo[0]);
        if !reply.Failed? {
          DropAllOwned(w', id, desired, todo[1..], kept);
        }
      }
    }
  }

  /** A key sync on an account whose ledger is owned removes only owned keys and leaves an owned
      ledger, whatever fails and whatever third parties do meanwhile. */
  lemma SyncAccountOwned(w: World, id: Id, spec: UserSpec, order: seq<string>, managed: seq<string>)
    requires IsOrder(order, Desired(spec.keys))
    requires OnlyOwnRemovals(w.calls) && Owned(w.calls, id, managed)
    ensures var r := SyncAccount(w, id, spec, order, managed);
            && OnlyOwnRemovals(r.w.calls) && Owned(r.w.calls, id, r.managed)
            && Acked(w.calls) <= Acked(r.w.calls)
  {
    var w1 := if spec.displayName.Some? then PatchName(w, id, spec.displayName.value).0 else w;
    if spec.displayName.Some? {
      Logged(w.calls, w1.calls[|w.calls|]);
    }
    SyncKeysOwned(w1, id, Desired(spec.keys), order, managed);
  }

  lemma SyncKeysOwned(w: World, id: Id, desired: map<string, string>, order: seq<string>, managed: seq<string>)
    requires Elements(order) <= desired.Keys
    requires OnlyOwnRemovals(w.calls) && Owned(w.calls, id, managed)
    ensures var r := SyncKeys(w, id, desired, order, managed);
            && OnlyOwnRemovals(r.w.calls) && Owned(r.w.calls, id, r.managed)
            && Acked(w.calls) <= Acked(r.w.calls)
  {
    var a := AddAll(w, id, desired, order, managed);
    AddAllOwned(w, id, desired, order, managed);
    if a.failure.None? {
      DropAllOwned(a.w, id, desired, a.managed, []);
    }
  }

  // ---------------------------------------------------------------- the whole pass

  /** The two logs say the same about keys. */
  ghost predicate SameKeyCalls(calls: seq<Call>, later: seq<Call>) {
    && Acked(later) == Acked(calls)
    && OnlyOwnRemovals(later) == OnlyOwnRemovals(calls)
    && Outstanding(later) == Outstanding(calls)
    && Landed(later) == Landed(calls)
    && Slipped(later) == Slipped(calls)
    && Removed(later) == Removed(calls)
    && OnlyOutstandingRemovals(later) == OnlyOutstandingRemovals(calls)
  }

  lemma OtherCall(calls: seq<Call>, c: Call)
    requires !c.AssociateCall? && !c.RemoveCall?
    ensures SameKeyCalls(calls, calls + [c])
  {
    Logged(calls, c);
    LoggedOutstanding(calls, c);
    LoggedRemoval(calls, c);
  }

  /** The calls up to knowing the account touch no key. */
  lemma EnsureTouchesNoKey(w: World, username: string, stored: StoredId)
    ensures SameKeyCalls(w.calls, Ensure(w, username, stored).w.calls)
  {
    if stored.Issued? {
      var (w1, got) := Get(w, stored.id);
      OtherCall(w.calls, GetCall(stored.id));
      if got.NotFound? {
        FindTouchesNoKey(w1, username, Empty);
      }
    } else {
      FindTouchesNoKey(w, username, stored);
    }
  }

  /** The search for an account is one listing, and at most one creation after it. */
  lemma FindCalls(w: World, username: string, stored: StoredId) returns (create: Call)
    ensures create.CreateCall? && create.username == username
    ensures var calls := FindOrCreate(w, username, stored).w.calls;
            calls == w.calls + [ListCall] || calls == w.calls + [ListCall] + [create]
  {
    var w1 := List(w).0;
    var w2 := Create(w1, username).0;
    create := w2.calls[|w1.calls|];
  }

  lemma FindTouchesNoKey(w: World, username: string, stored: StoredId)
    ensures SameKeyCalls(w.calls, FindOrCreate(w, username, stored).w.calls)
  {
    var create := FindCalls(w, username, stored);
    OtherCall(w.calls, ListCall);
    OtherCall(w.calls + [ListCall], create);
  }

  /** Without deletions a live stored id is kept, and any account found or created is live. */
  lemma EnsureKeeps(w: World, username: string, stored: StoredId)
    requires NoDeletes(w.script)
    ensures var e := Ensure(w, username, stored);
            && NoDeletes(e.w.script) && Keeps(w.dir, e.w.dir)
            && (e.id.Some? ==> e.stored == Issued(e.id.value) && Has(e.w.dir, e.id.value))
            && (e.id.None? && !(stored.Issued? && !Has(w.dir, stored.id)) ==> e.stored == stored)
            && (stored.Issued? && Has(w.dir, stored.id) ==> e.stored == stored)
  {
    ArriveKeeps(w);
    if stored.Issued? {
      var (w1, got) := Get(w, stored.id);
      if got.NotFound? {
        FindKeeps(w1, username, Empty);
      }
    } else {
      FindKeeps(w, username, stored);
    }
  }

  lemma FindKeeps(w: World, username: string, stored: StoredId)
    requires NoDeletes(w.script)
    ensures var e := FindOrCreate(w, username, stored);
            && NoDeletes(e.w.script) && Keeps(w.dir, e.w.dir)
            && (e.id.Some? ==> e.stored == Issued(e.id.value) && Has(e.w.dir, e.id.value))
            && (e.id.None? ==> e.stored == stored)
  {
    ArriveKeeps(w);
    var (w1, listed) := List(w);
    ArriveKeeps(w1);
    SearchPage(w1.dir, 0, PAGE_SIZE, Wanted(username));
  }

  lemma {:induction false} AddAllKeeps(w: World, id: Id, desired: map<string, string>, order: seq<string>, managed: seq<string>)
    requires NoDeletes(w.script) && Elements(order) <= desired.Keys
    ensures var r := AddAll(w, id, desired, order, managed); NoDeletes(r.w.script) && Keeps(w.dir, r.w.dir)
    decreases |order|
  {
    if order != [] {
      assert order[0] in Elements(order);
      if order[0] in managed {
        AddAllKeeps(w, id, desired, order[1..], managed);
      } else {
        ArriveKeeps(w);
        var (w', reply) := Associate(w, id, order[0], desired[order[0]]);
        if reply.Ok? {
          AddAllKeeps(w', id, desired, order[1..], managed + [order[0]]);
        }
      }
    }
  }

  lemma {:induction false} DropAllKeeps(w: World, id: Id, desired: map<string, string>, todo: seq<string>, kept: seq<string>)
    requires NoDeletes(w.script)
    ensures var r := DropAll(w, id, desired, todo, kept); NoDeletes(r.w.script) && Keeps(w.dir, r.w.dir)
    decreases |todo|
  {
    if todo != [] {
      if todo[0] in desired {
        DropAllKeeps(w, id, desired, todo[1..], kept + [todo[0]]);
      } else {
        ArriveKeeps(w);
        var (w', reply) := Remove(w, id, todo[0]);
        if !reply.Failed? {
          DropAllKeeps(w', id, desired, todo[1..], kept);
        }
      }
    }
  }

  lemma SyncAccountKeeps(w: World, id: Id, spec: UserSpec, order: seq<string>, managed: seq<string>)
    requires NoDeletes(w.script) && IsOrder(order, Desired(spec.keys))
    ensures var r := SyncAccount(w, id, spec, order, managed); NoDeletes(r.w.script) && Keeps(w.dir, r.w.dir)
  {
    ArriveKeeps(w);
    var w1 := if spec.displayName.Some? then PatchName(w, id, spec.displayName.value).0 else w;
    assert NoDeletes(w1.script) && Keeps(w.dir, w1.dir);
    SyncKeysKeeps(w1, id, Desired(spec.keys), order, managed);
  }

  lemma SyncKeysKeeps(w: World, id: Id, desired: map<string, string>, order: seq<string>, managed: seq<string>)
    requires NoDeletes(w.script) && Elements(order) <= desired.Keys
    ensures var r := SyncKeys(w, id, desired, order, managed); NoDeletes(r.w.script) && Keeps(w.dir, r.w.dir)
  {
    var a := AddAll(w, id, desired, order, managed);
    AddAllKeeps(w, id, desired, order, managed);
    if a.failure.None? {
      DropAllKeeps(a.w, id, desired, a.managed, []);
    }
  }

  // ---------------------------------------------------------------- runs

  datatype Run = Run(dir: Registry<Account>, calls: seq<Call>, spec: UserSpec, status: Status)

  datatype Event =
    | Reconcile(script: seq<Turn>, order: seq<string>, written: bool, detail: string, now: int)
    | EditSpec(spec: UserSpec)
    | ThirdParty(edits: seq<Edit>)

  /** An iteration order that is none for the current spec is no event at all. */
  ghost function Step(r: Run, policy: Policy, e: Event): Run {
    match e
    case EditSpec(spec) => r.(spec := spec)
    case ThirdParty(edits) => r.(dir := AllEdited(r.dir, edits))
    case Reconcile(script, order, written, detail, now) =>
      if !IsOrder(order, Desired(r.spec.keys)) then r else
        var p := UserPass(World(r.dir, policy, script, r.calls), r.spec, r.status, order);
        Run(p.w.dir, p.w.calls, r.spec, if written then NextStatus(p, r.status, detail, now) else r.status)
  }

  ghost function Steps(r: Run, policy: Policy, events: seq<Event>): Run
    decreases |events|
  {
    if events == [] then r else Steps(Step(r, policy, events[0]), policy, events[1..])
  }

  /** A pass that finds the account of its stored id gone. */
  predicate FindsStale(w: World, stored: StoredId) {
    stored.Issued? && Get(w, stored.id).1.NotFound?
  }

  /** No pass of the run does: the account the status names is there whenever it is probed. Any other account
      may come and go. */
  ghost predicate NeverStale(r: Run, policy: Policy, events: seq<Event>)
    decreases |events|
  {
    events == [] ||
    (&& (events[0].Reconcile? ==> !FindsStale(World(r.dir, policy, events[0].script, r.calls), r.status.id))
     && NeverStale(Step(r, policy, events[0]), policy, events[1..]))
  }

  /** Every managed key was associated with the account the status names. */
  ghost predicate LedgerOwned(r: Run) {
    && OnlyOwnRemovals(r.calls)
    && (if r.status.id.Issued? then Owned(r.calls, r.status.id.id, r.status.managed) else r.status.managed == [])
  }

  lemma EnsureNotStale(w: World, username: string, stored: StoredId)
    requires !FindsStale(w, stored)
    ensures var e := Ensure(w, username, stored);
            && (stored.Issued? || e.id.None? ==> e.stored == stored)
            && (e.id.Some? ==> e.stored == Issued(e.id.value))
  {
  }

  lemma StepKeepsOwnership(r: Run, policy: Policy, e: Event)
    requires LedgerOwned(r)
    requires e.Reconcile? ==> !FindsStale(World(r.dir, policy, e.script, r.calls), r.status.id)
    ensures LedgerOwned(Step(r, policy, e))
  {
    if e.Reconcile? && IsOrder(e.order, Desired(r.spec.keys)) {
      var w := World(r.dir, policy, e.script, r.calls);
      var n := Ensure(w, r.spec.username, r.status.id);
      EnsureTouchesNoKey(w, r.spec.username, r.status.id);
      EnsureNotStale(w, r.spec.username, r.status.id);
      if n.id.Some? {
        SyncAccountOwned(n.w, n.id.value, r.spec, e.order, r.status.managed);
      }
    }
  }

  lemma {:induction false} StepsKeepOwnership(r: Run, policy: Policy, events: seq<Event>)
    requires LedgerOwned(r) && NeverStale(r, policy, events)
    ensures LedgerOwned(Steps(r, policy, events))
    decreases |events|
  {
    if events != [] {
      StepKeepsOwnership(r, policy, events[0]);
      StepsKeepOwnership(Step(r, policy, events[0]), policy, events[1..]);
    }
  }

  /** The operator never removes a kid that it did not associate with the account at some time: in every run from a new resource, with
      spec edits (of the username too), third-party edits of keys and accounts between any two calls,
      failures of every kind and lost status writes, as long as no pass finds its stored account gone. */
  lemma NeverRemovesForeignKeys(dir: Registry<Account>, policy: Policy, spec: UserSpec, events: seq<Event>)
    requires NeverStale(Run(dir, [], spec, NEW_STATUS), policy, events)
    ensures OnlyOwnRemovals(Steps(Run(dir, [], spec, NEW_STATUS), policy, events).calls)
  {
    StepsKeepOwnership(Run(dir, [], spec, NEW_STATUS), policy, events);
  }

  predicate EventKeeps(e: Event) {
    match e
    case EditSpec(_) => true
    case ThirdParty(edits) => KeepsAll(edits)
    case Reconcile(script, _, _, _, _) => NoDeletes(script)
  }

  /** That is so in particular if nobody deletes accounts. */
  lemma {:induction false} NoDeletionsNeverStale(r: Run, policy: Policy, events: seq<Event>)
    requires forall i :: 0 <= i < |events| ==> EventKeeps(events[i])
    requires r.status.id.Issued? ==> Has(r.dir, r.status.id.id)
    ensures NeverStale(r, policy, events)
    decreases |events|
  {
    if events != [] {
      StepKeepsAccount(r, policy, events[0]);
      NoDeletionsNeverStale(Step(r, policy, events[0]), policy, events[1..]);
    }
  }

  lemma StepKeepsAccount(r: Run, policy: Policy, e: Event)
    requires EventKeeps(e) && (r.status.id.Issued? ==> Has(r.dir, r.status.id.id))
    ensures var r' := Step(r, policy, e); r'.status.id.Issued? ==> Has(r'.dir, r'.status.id.id)
    ensures e.Reconcile? ==> !FindsStale(World(r.dir, policy, e.script, r.calls), r.status.id)
  {
    match e
    case EditSpec(_) =>
    case ThirdParty(edits) =>
      EditsKeep(r.dir, edits);
    case Reconcile(script, order, written, detail, now) =>
      var w := World(r.dir, policy, script, r.calls);
      ArriveKeeps(w);
      if IsOrder(order, Desired(r.spec.keys)) {
        var n := Ensure(w, r.spec.username, r.status.id);
        EnsureKeeps(w, r.spec.username, r.status.id);
        if n.id.Some? {
          SyncAccountKeeps(n.w, n.id.value, r.spec, order, r.status.managed);
        }
      }
  }

  // ---------------------------------------------------------------- what escapes the ledger

  /** Whatever is outstanding is on this account and under one of these key ids. */
  ghost predicate Within(calls: seq<Call>, id: Id, kids: set<string>) {
    forall pair | pair in Outstanding(calls) :: pair.0 == id && pair.1 in kids
  }

  /** What a stretch of calls means for the ledger: it covers everything outstanding exactly if no
      association slipped; and the ledger of before still does exactly if none landed at all. */
  ghost predicate Tracked(before: seq<Call>, after: seq<Call>, id: Id, m0: set<string>, m1: set<string>) {
    && Slipped(before) <= Slipped(after)
    && Slipped(after) - Slipped(before) <= Landed(after) - Landed(before)
    && (Slipped(after) == Slipped(before) <==> Within(after, id, m1))
    && (Landed(after) == Landed(before) ==> Outstanding(after) <= Outstanding(before))
    && (Landed(after) > Landed(before) ==> exists kid :: (id, kid) in Outstanding(after) && kid !in m0)
  }

  lemma AssociateTracked(w: World, id: Id, kid: string, pem: string, managed: seq<string>)
    requires Within(w.calls, id, Elements(managed)) && kid !in managed
    ensures var (w', reply) := Associate(w, id, kid, pem);
            && Tracked(w.calls, w'.calls, id, Elements(managed), Elements(if reply.Ok? then managed + [kid] else managed))
            && (reply.Ok? ==> Slipped(w'.calls) == Slipped(w.calls) && Landed(w'.calls) == Landed(w.calls) + 1
                              && (id, kid) in Outstanding(w'.calls))
  {
    var (w', reply) := Associate(w, id, kid, pem);
    LoggedOutstanding(w.calls, w'.calls[|w.calls|]);
    assert Elements(managed + [kid]) == Elements(managed) + {kid};
    if w'.calls[|w.calls|].landed {
      assert (id, kid) in Outstanding(w'.calls);
    }
  }

  lemma {:induction false} AddAllTracked(w: World, id: Id, desired: map<string, string>, order: seq<string>, managed: seq<string>)
    requires Elements(order) <= desired.Keys && Within(w.calls, id, Elements(managed))
    ensures var r := AddAll(w, id, desired, order, managed);
            && Tracked(w.calls, r.w.calls, id, Elements(managed), Elements(r.managed))
            && (Slipped(r.w.calls) > Slipped(w.calls) ==> r.failure.Some?)
            && Outstanding(w.calls) <= Outstanding(r.w.calls)
            && Elements(r.managed) <= Elements(managed) + desired.Keys
            && (Landed(r.w.calls) > Landed(w.calls) ==>
                  exists kid :: (id, kid) in Outstanding(r.w.calls) && kid !in Elements(managed) && kid in desired)
    decreases |order|
  {
    if order != [] {
      assert order[0] in Elements(order);
      if order[0] in managed {
        AddAllTracked(w, id, desired, order[1..], managed);
      } else {
        AssociateTracked(w, id, order[0], desired[order[0]], managed);
        var (w', reply) := Associate(w, id, order[0], desired[order[0]]);
        LoggedOutstanding(w.calls, w'.calls[|w.calls|]);
        if reply.Ok? {
          assert Elements(managed + [order[0]]) == Elements(managed) + {order[0]};
          AddAllTracked(w', id, desired, order[1..], managed + [order[0]]);
          assert (id, order[0]) in Outstanding(AddAll(w', id, desired, order[1..], managed + [order[0]]).w.calls);
        }
      }
    }
  }

  /** A removal that is answered takes the key id off the list of outstanding ones. */
  lemma RemoveTracked(w: World, id: Id, kid: string)
    ensures var (w', reply) := Remove(w, id, kid);
            && Outstanding(w'.calls) <= Outstanding(w.calls) <= Outstanding(w'.calls) + {(id, kid)}
            && Landed(w'.calls) == Landed(w.calls) && Slipped(w'.calls) == Slipped(w.calls)
            && (!reply.Failed? ==> (id, kid) !in Outstanding(w'.calls))
  {
    var (w', reply) := Remove(w, id, kid);
    LoggedOutstanding(w.calls, w'.calls[|w.calls|]);
  }

  lemma {:induction false} DropAllTracked(w: World, id: Id, desired: map<string, string>, todo: seq<string>, kept: seq<string>)
    requires Within(w.calls, id, Elements(kept) + Elements(todo))
    ensures var r := DropAll(w, id, desired, todo, kept);
            && Outstanding(r.w.calls) <= Outstanding(w.calls)
            && (forall pair | pair in Outstanding(w.calls) && pair.1 in desired :: pair in Outstanding(r.w.calls))
            && Landed(r.w.calls) == Landed(w.calls) && Slipped(r.w.calls) == Slipped(w.calls)
            && (r.failure.None? ==> Within(r.w.calls, id, Elements(r.managed)))
    decreases |todo|
  {
    if todo == [] {
      assert Elements(kept) + Elements(todo) == Elements(kept);
    } else {
      assert Elements(todo) == {todo[0]} + Elements(todo[1..]);
      if todo[0] in desired {
        assert Elements(kept + [todo[0]]) + Elements(todo[1..]) == Elements(kept) + Elements(todo);
        DropAllTracked(w, id, desired, todo[1..], kept + [todo[0]]);
      } else {
        RemoveTracked(w, id, todo[0]);
        var (w', reply) := Remove(w, id, todo[0]);
        if !reply.Failed? {
          DropAllTracked(w', id, desired, todo[1..], kept);
        }
      }
    }
  }

  lemma SyncKeysTracked(w: World, id: Id, desired: map<string, string>, order: seq<string>, managed: seq<string>)
    requires Elements(order) <= desired.Keys && Within(w.calls, id, Elements(managed))
    ensures var r := SyncKeys(w, id, desired, order, managed);
            Tracked(w.calls, r.w.calls, id, Elements(managed), Elements(r.managed))
  {
    var a := AddAll(w, id, desired, order, managed);
    AddAllTracked(w, id, desired, order, managed);
    if a.failure.None? {
      assert Elements([]) + Elements(a.managed) == Elements(a.managed);
      DropAllTracked(a.w, id, desired, a.managed, []);
    }
  }

  lemma SyncAccountTracked(w: World, id: Id, spec: UserSpec, order: seq<string>, managed: seq<string>)
    requires IsOrder(order, Desired(spec.keys)) && Within(w.calls, id, Elements(managed))
    ensures var r := SyncAccount(w, id, spec, order, managed);
            Tracked(w.calls, r.w.calls, id, Elements(managed), Elements(r.managed))
  {
    if spec.displayName.Some? {
      var w1 := PatchName(w, id, spec.displayName.value).0;
      OtherCall(w.calls, w1.calls[|w.calls|]);
      SyncKeysTracked(w1, id, Desired(spec.keys), order, managed);
    } else {
      SyncKeysTracked(w, id, Desired(spec.keys), order, managed);
    }
  }

  /** Every key the operator put on the server and has not removed is in the ledger of the account. */
  ghost predicate Complete(r: Run) {
    if r.status.id.Issued? then Within(r.calls, r.status.id.id, Elements(r.status.managed)) else Outstanding(r.calls) == {}
  }

  /** Every association of this step that took effect was answered and its status write kept. */
  ghost predicate NothingSlips(r: Run, policy: Policy, e: Event) {
    var calls := Step(r, policy, e).calls;
    e.Reconcile? ==> Slipped(calls) == Slipped(r.calls) && (e.written || Landed(calls) == Landed(r.calls))
  }

  /** Exactly then the ledger stays complete. Lost replies to any other call do no harm, nor does a lost
      status write of a pass that associated nothing. */
  lemma StepCompleteIff(r: Run, policy: Policy, e: Event)
    requires LedgerOwned(r) && Complete(r)
    requires e.Reconcile? ==> !FindsStale(World(r.dir, policy, e.script, r.calls), r.status.id)
    ensures Complete(Step(r, policy, e)) <==> NothingSlips(r, policy, e)
  {
    if e.Reconcile? && IsOrder(e.order, Desired(r.spec.keys)) {
      var w := World(r.dir, policy, e.script, r.calls);
      var n := Ensure(w, r.spec.username, r.status.id);
      EnsureTouchesNoKey(w, r.spec.username, r.status.id);
      EnsureNotStale(w, r.spec.username, r.status.id);
      if n.id.Some? {
        var id, m0, k := n.id.value, r.status.managed, SyncAccount(n.w, n.id.value, r.spec, e.order, r.status.managed);
        assert Within(n.w.calls, id, Elements(m0));
        SyncAccountTracked(n.w, id, r.spec, e.order, m0);
        assert Tracked(r.calls, k.w.calls, id, Elements(m0), Elements(k.managed));
        assert Step(r, policy, e).calls == k.w.calls;
      }
    }
  }

  ghost predicate CompleteThroughout(r: Run, policy: Policy, events: seq<Event>)
    decreases |events|
  {
    Complete(r) && (events == [] || CompleteThroughout(Step(r, policy, events[0]), policy, events[1..]))
  }

  ghost predicate NothingEverSlips(r: Run, policy: Policy, events: seq<Event>)
    decreases |events|
  {
    events == [] || (NothingSlips(r, policy, events[0]) && NothingEverSlips(Step(r, policy, events[0]), policy, events[1..]))
  }

  lemma {:induction false} RunCompleteIff(r: Run, policy: Policy, events: seq<Event>)
    requires LedgerOwned(r) && Complete(r) && NeverStale(r, policy, events)
    ensures CompleteThroughout(r, policy, events) <==> NothingEverSlips(r, policy, events)
    ensures NothingEverSlips(r, policy, events) ==> Complete(Steps(r, policy, events))
    decreases |events|
  {
    if events != [] {
      var next := Step(r, policy, events[0]);
      StepKeepsOwnership(r, policy, events[0]);
      StepCompleteIff(r, policy, events[0]);
      if NothingSlips(r, policy, events[0]) {
        RunCompleteIff(next, policy, events[1..]);
      } else {
        assert !CompleteThroughout(next, policy, events[1..]);
      }
    }
  }

  /** Over every run from a new resource, everything the operator put on the server and has not removed is
      in `managedKeyIds` at every point, exactly if every association that took effect was answered and
      its status write kept. */
  lemma NothingEscapesTheLedger(dir: Registry<Account>, policy: Policy, spec: UserSpec, events: seq<Event>)
    requires NeverStale(Run(dir, [], spec, NEW_STATUS), policy, events)
    ensures CompleteThroughout(Run(dir, [], spec, NEW_STATUS), policy, events)
            <==> NothingEverSlips(Run(dir, [], spec, NEW_STATUS), policy, events)
  {
    RunCompleteIff(Run(dir, [], spec, NEW_STATUS), policy, events);
  }
}
