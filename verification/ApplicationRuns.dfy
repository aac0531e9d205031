/** How often applications are created over runs of passes and third-party changes. */
module ApplicationRuns {
  import opened Prelude
  import opened Remote
  import opened StatusPatch
  import opened ApplicationModel
  import opened ApplicationProperties

  function Created(calls: seq<Call>, name: string): nat {
    if calls == [] then 0 else
      var c := calls[|calls| - 1];
      Created(calls[..|calls| - 1], name) + (if c.CreateCall? && c.landed && c.name == name then 1 else 0)
  }

  lemma LoggedCreated(calls: seq<Call>, c: Call, name: string)
    ensures Created(calls + [c], name)
            == Created(calls, name) + (if c.CreateCall? && c.landed && c.name == name then 1 else 0)
  {
    assert (calls + [c])[..|calls|] == calls;
  }

  function Taken(dir: Registry<App>, name: string): nat {
    if NameTaken(dir, name) then 1 else 0
  }

  lemma TakenKept(d: Registry<App>, e: Registry<App>, name: string)
    requires forall i: nat | Has(d, i) && d[i].value.name == name :: Has(e, i) && e[i].value.name == name
    ensures Taken(d, name) <= Taken(e, name)
  {
    if NameTaken(d, name) {
      var i :| 0 <= i < |d| && d[i].Some? && d[i].value.name == name;
      assert Has(d, i) && Has(e, i);
    }
  }

  // ---------------------------------------------------------------- one pass

  /** A pass that may create an application it did not search for: its stored id leads nowhere, and the server
      does not refuse duplicates. */
  predicate Strays(w: World, spec: AppSpec, stored: StoredId, name: string) {
    !w.unique && spec.name == name && stored != Empty && !Live(w.dir, stored)
  }

  /** No name freed, and none created but one that was free or, with some slack, one more. */
  predicate Within(w: World, after: World, name: string, slack: nat) {
    && Created(after.calls, name) - Taken(after.dir, name) <= Created(w.calls, name) - Taken(w.dir, name) + slack
    && Taken(w.dir, name) <= Taken(after.dir, name)
  }

  lemma QuietCall(w: World, dir: Registry<App>, c: Call, name: string)
    requires !c.CreateCall?
    requires forall i: nat | Has(w.dir, i) && w.dir[i].value.name == name :: Has(dir, i) && dir[i].value.name == name
    ensures Within(w, Served(w, dir, c), name, 0)
  {
    LoggedCreated(w.calls, c, name);
    TakenKept(w.dir, dir, name);
  }

  lemma CreateWithin(w: World, a: App, name: string)
    ensures Within(w, Create(w, a).0, name,
                   if !w.unique && a.name == name && NameTaken(w.dir, name) then 1 else 0)
  {
    var after := Create(w, a).0;
    LoggedCreated(w.calls, after.calls[|w.calls|], name);
    TakenKept(w.dir, after.dir, name);
    if after.calls[|w.calls|].landed && a.name == name {
      assert after.dir[|w.dir|].Some? && after.dir[|w.dir|].value.name == name;
    }
  }

  lemma SyncWithin(w: World, spec: AppSpec, stored: StoredId, header: string, name: string)
    ensures Within(w, SyncStep(w, spec, stored, header).w, name,
                   if Strays(w, spec, stored, name) || (stored == Empty && !w.unique && spec.name == name && NameTaken(w.dir, name))
                   then 1 else 0)
  {
    hide Within;
    if stored.Issued? {
      var (w1, got) := Get(w, stored.id);
      QuietCall(w, w.dir, GetCall(stored.id), name);
      match got {
        case Failed => WithinMore(w, w1, name);
        case NotFound =>
          CreateWithin(w1, Requested(spec, header), name);
          WithinTwo(w, w1, Create(w1, Requested(spec, header)).0, name);
        case Ok(existing) =>
          var diff := Diff(existing, spec);
          if diff.Some? {
            var w2 := Patch(w1, stored.id, diff.value).0;
            QuietCall(w1, w2.dir, w2.calls[|w1.calls|], name);
            WithinTwo(w, w1, w2, name);
          }
      }
    } else {
      CreateWithin(w, Requested(spec, header), name);
      WithinMore(w, Create(w, Requested(spec, header)).0, name);
    }
  }

  lemma WithinTwo(w: World, w1: World, w2: World, name: string)
    requires Within(w, w1, name, 0)
    ensures Within(w1, w2, name, 0) ==> Within(w, w2, name, 0)
    ensures Within(w1, w2, name, 0) || Within(w1, w2, name, 1) ==> Within(w, w2, name, 1)
  {
  }

  lemma WithinMore(w: World, after: World, name: string)
    ensures Within(w, after, name, 0) ==> Within(w, after, name, 1)
  {
  }

  lemma PassWithin(w: World, spec: AppSpec, stored: StoredId, header: string, name: string)
    requires w.unique || FitsPage(w.dir)
    ensures Within(w, AppPass(w, spec, stored, header).w, name, if Strays(w, spec, stored, name) then 1 else 0)
  {
    if stored == Empty {
      var (w1, listed) := List(w);
      QuietCall(w, w.dir, ListCall, name);
      if listed.Ok? {
        SearchMissesIff(w.dir, spec.name);
        if !w.unique { FitsMeansListed(w.dir, Named(spec.name)); }
        SearchPage(w.dir, 0, PAGE_SIZE, Named(spec.name));
        var found := FirstMatch(listed.value, Named(spec.name));
        var id := if found.Some? then Issued(found.value) else Empty;
        SyncWithin(w1, spec, id, header, name);
        WithinTwo(w, w1, SyncStep(w1, spec, id, header).w, name);
        assert AppPass(w, spec, stored, header) == SyncStep(w1, spec, id, header);
      }
    } else {
      SyncWithin(w, spec, stored, header, name);
    }
  }

  // ---------------------------------------------------------------- runs

  /** Passes of any application resources from any stored ids, and whatever third parties make of the
      applications. */
  datatype Attempt =
    | For(spec: AppSpec, stored: StoredId, header: string, script: seq<Fault>)
    | ThirdParty(dir: Registry<App>)

  function Tried(dir: Registry<App>, unique: bool, calls: seq<Call>, a: Attempt): (Registry<App>, seq<Call>) {
    match a
    case For(spec, stored, header, script) =>
      var p := AppPass(Server(dir, unique, script, calls), spec, stored, header);
      (p.w.dir, p.w.calls)
    case ThirdParty(edited) => (edited, calls)
  }

  function TriedAll(dir: Registry<App>, unique: bool, calls: seq<Call>, many: seq<Attempt>): (Registry<App>, seq<Call>)
    decreases |many|
  {
    if many == [] then (dir, calls) else
      var (d, c) := Tried(dir, unique, calls, many[0]);
      TriedAll(d, unique, c, many[1..])
  }

  /** Every pass finds at most a page of applications. */
  ghost predicate AlwaysFits(dir: Registry<App>, unique: bool, calls: seq<Call>, many: seq<Attempt>)
    decreases |many|
  {
    many == [] ||
    var (d, c) := Tried(dir, unique, calls, many[0]);
    (many[0].For? ==> FitsPage(dir)) && AlwaysFits(d, unique, c, many[1..])
  }

  /** How often the last application of that name ceases to have it. */
  function Freed(dir: Registry<App>, unique: bool, calls: seq<Call>, many: seq<Attempt>, name: string): nat
    decreases |many|
  {
    if many == [] then 0 else
      var (d, c) := Tried(dir, unique, calls, many[0]);
      (if Taken(d, name) < Taken(dir, name) then 1 else 0) + Freed(d, unique, c, many[1..], name)
  }

  /** How many passes of the run start from a stored id that leads nowhere. */
  function Lost(dir: Registry<App>, unique: bool, calls: seq<Call>, many: seq<Attempt>, name: string): nat
    decreases |many|
  {
    if many == [] then 0 else
      var (d, c) := Tried(dir, unique, calls, many[0]);
      (if many[0].For? && Strays(Server(dir, unique, many[0].script, calls), many[0].spec, many[0].stored, name) then 1 else 0)
      + Lost(d, unique, c, many[1..], name)
  }

  lemma {:induction false} RunBound(dir: Registry<App>, unique: bool, calls: seq<Call>, many: seq<Attempt>, name: string)
    requires unique || AlwaysFits(dir, unique, calls, many)
    ensures var (d, c) := TriedAll(dir, unique, calls, many);
            Created(c, name) - Taken(d, name)
            <= Created(calls, name) - Taken(dir, name) + Freed(dir, unique, calls, many, name) + Lost(dir, unique, calls, many, name)
    decreases |many|
  {
    if many != [] {
      if many[0].For? {
        PassWithin(Server(dir, unique, many[0].script, calls), many[0].spec, many[0].stored, many[0].header, name);
      }
      var (d, c) := Tried(dir, unique, calls, many[0]);
      RunBound(d, unique, c, many[1..], name);
    }
  }

  /** Over any run with failures, lost replies, lost status writes and arbitrary third-party changes, an
      application of a name is created at most once more often than the name becomes free, one time less if
      it was taken at the start, plus once for every pass that starts from a stored id that leads nowhere. A
      server that refuses duplicates rules the latter out, whatever fits the page. */
  lemma CreationsBound(dir: Registry<App>, unique: bool, many: seq<Attempt>, name: string)
    requires unique || AlwaysFits(dir, unique, [], many)
    ensures Created(TriedAll(dir, unique, [], many).1, name) + Taken(dir, name)
            <= 1 + Freed(dir, unique, [], many, name) + Lost(dir, unique, [], many, name)
    ensures unique ==> Lost(dir, unique, [], many, name) == 0
  {
    RunBound(dir, unique, [], many, name);
    if unique { RefusingLosesNone(dir, [], many, name); }
  }

  lemma {:induction false} RefusingLosesNone(dir: Registry<App>, calls: seq<Call>, many: seq<Attempt>, name: string)
    ensures Lost(dir, true, calls, many, name) == 0
    decreases |many|
  {
    if many != [] {
      var (d, c) := Tried(dir, true, calls, many[0]);
      RefusingLosesNone(d, c, many[1..], name);
    }
  }

  /** The same pass over and over: its creation lands, but neither the reply nor the status write arrives. */
  function Pile(spec: AppSpec, header: string, n: nat): seq<Attempt> {
    if n == 0 then [] else [For(spec, Issued(0), header, [Clean, LostReply])] + Pile(spec, header, n - 1)
  }

  lemma PileStep(dir: Registry<App>, calls: seq<Call>, spec: AppSpec, header: string)
    requires |dir| > 0 && dir[0].None?
    ensures Tried(dir, false, calls, For(spec, Issued(0), header, [Clean, LostReply]))
            == (dir + [Some(Requested(spec, header))], calls + [GetCall(0)] + [CreateCall(spec.name, true)])
  {
    var w: World := Server(dir, false, [Clean, LostReply], calls);
    assert Get(w, 0) == (Server(dir, false, [LostReply], calls + [GetCall(0)]), NotFound);
  }

  /** Such passes do occur, and nothing bounds them: with the stored application gone, a lenient server
      collects one duplicate for each. */
  lemma {:induction false} DuplicatesPile(dir: Registry<App>, calls: seq<Call>, spec: AppSpec, header: string, n: nat)
    requires |dir| > 0 && dir[0].None?
    ensures Created(TriedAll(dir, false, calls, Pile(spec, header, n)).1, spec.name) == Created(calls, spec.name) + n
    decreases n
  {
    hide Tried, Created;
    if n == 0 {
      assert Pile(spec, header, n) == [];
    } else {
      assert Pile(spec, header, n)[1..] == Pile(spec, header, n - 1);
      PileStep(dir, calls, spec, header);
      var c1 := calls + [GetCall(0)];
      LoggedCreated(calls, GetCall(0), spec.name);
      LoggedCreated(c1, CreateCall(spec.name, true), spec.name);
      DuplicatesPile(dir + [Some(Requested(spec, header))], c1 + [CreateCall(spec.name, true)], spec, header, n - 1);
    }
  }
}
