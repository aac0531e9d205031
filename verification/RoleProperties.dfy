/** Convergence, quiescence and creation of roles. */
module RoleProperties {
  import opened Prelude
  import opened Remote
  import opened StatusPatch
  import opened RoleModel
  import MergePatch

  /** The stored id names a role that is exactly what the spec asks for; no description means empty. */
  predicate Converged(dir: Registry<Role>, spec: RoleSpec, stored: StoredId) {
    && stored.Issued? && Has(dir, stored.id)
    && dir[stored.id].value.name == spec.name
    && (spec.description.Some? ==> dir[stored.id].value.description == spec.description.value)
    && (spec.description.None? ==> dir[stored.id].value.description == "")
  }

  /** The stored role would have to be renamed into a name the server has given to another role. */
  predicate Clash(w: World, spec: RoleSpec, stored: StoredId) {
    && w.unique && stored.Issued? && Has(w.dir, stored.id)
    && w.dir[stored.id].value.name != spec.name
    && NameTaken(w.dir, spec.name, Some(stored.id))
  }

  lemma ConvergedIsQuiet(w: World, spec: RoleSpec, stored: StoredId)
    requires w.script == [] && Converged(w.dir, spec, stored)
    ensures var p := RolePass(w, spec, stored);
            && p.w.dir == w.dir && p.stored == stored && p.failure.None?
            && p.w.calls == w.calls + [GetCall(stored.id)]
  {
  }

  /** A search by name misses exactly what is not there or lies beyond a full page. */
  lemma SearchMissesIff(dir: Registry<Role>, name: string)
    ensures FirstMatch(Page(dir), Named(name)).None? <==> !NameTaken(dir, name, None) || BeyondPage(dir, Named(name))
    ensures BeyondPage(dir, Named(name)) ==> NameTaken(dir, name, None)
  {
    MissedIff(dir, Named(name));
    forall i: nat | Has(dir, i) && dir[i].value.name == name ensures NameTaken(dir, name, None) && Named(name)(dir[i].value) {
      assert 0 <= i < |dir|;
    }
    if NameTaken(dir, name, None) {
      var i :| 0 <= i < |dir| && dir[i].Some? && dir[i].value.name == name;
      assert Has(dir, i) && Named(name)(dir[i].value);
    }
  }

  lemma MissedMeansFree(dir: Registry<Role>, name: string)
    requires FitsPage(dir)
    ensures FirstMatch(Page(dir), Named(name)).None? <==> !NameTaken(dir, name, None)
  {
    SearchMissesIff(dir, name);
    FitsMeansListed(dir, Named(name));
  }

  /** The reconciler cannot see who has the name, and the server refuses it or an unparsable id keeps the
      reconciler from asking for it. */
  ghost predicate Blocked(w: World, spec: RoleSpec, stored: StoredId) {
    && !(stored.Issued? && Has(w.dir, stored.id))
    && (!NameTaken(w.dir, spec.name, None) || BeyondPage(w.dir, Named(spec.name)))
    && (stored.Plain? || (w.unique && NameTaken(w.dir, spec.name, None)))
  }

  lemma FindRoleOutcome(w: World, spec: RoleSpec, stored: StoredId)
    requires w.script == [] && !stored.Issued?
    ensures var p := FindOrCreate(w, spec, stored);
            && p.w.unique == w.unique && p.w.script == []
            && (!Blocked(w, spec, stored) ==>
                  && p.failure.None? && p.stored.Issued? && Has(p.w.dir, p.stored.id)
                  && p.w.dir[p.stored.id].value.name == spec.name)
            && (Blocked(w, spec, stored) ==> p.w.dir == w.dir && p.stored == stored)
  {
    SearchMissesIff(w.dir, spec.name);
    SearchPage(w.dir, 0, PAGE_SIZE, Named(spec.name));
  }

  lemma StoredRolePass(w: World, spec: RoleSpec, stored: StoredId)
    requires w.script == [] && stored.Issued? && Has(w.dir, stored.id)
    ensures var p := RolePass(w, spec, stored);
            && p.stored == stored && p.w.unique == w.unique && p.w.script == []
            && (!Clash(w, spec, stored) ==> p.failure.None? && Converged(p.w.dir, spec, stored))
            && (Clash(w, spec, stored) ==> p.failure.Some? && p.w.dir == w.dir)
  {
  }

  /** Two clean passes suffice, from any remote state, however many roles there are, and any stored id, unless
      the stored role has to take a name the server has given away, or the reconciler is blocked: then no
      number of passes does. */
  lemma RoleConvergesInTwoIff(w: World, spec: RoleSpec, stored: StoredId)
    requires w.script == []
    ensures var one := RolePass(w, spec, stored);
            var two := RolePass(one.w, spec, one.stored);
            (two.failure.None? && Converged(two.w.dir, spec, two.stored))
            <==> !Clash(w, spec, stored) && !Blocked(w, spec, stored)
    ensures var one := RolePass(w, spec, stored);
            && (Clash(w, spec, stored) ==> one.failure.Some? && one.w.dir == w.dir && Clash(one.w, spec, one.stored))
            && (Blocked(w, spec, stored) ==> one.w.dir == w.dir && Blocked(one.w, spec, one.stored) && !one.stored.Issued?)
  {
    if stored.Issued? && Has(w.dir, stored.id) {
      StoredRolePass(w, spec, stored);
      StoredRolePass(RolePass(w, spec, stored).w, spec, stored);
    } else {
      UnstoredConverges(w, spec, stored);
    }
  }

  lemma UnstoredConverges(w: World, spec: RoleSpec, stored: StoredId)
    requires w.script == [] && !(stored.Issued? && Has(w.dir, stored.id))
    ensures var one := RolePass(w, spec, stored);
            var two := RolePass(one.w, spec, one.stored);
            && ((two.failure.None? && Converged(two.w.dir, spec, two.stored)) <==> !Blocked(w, spec, stored))
            && (Blocked(w, spec, stored) ==> one.w.dir == w.dir && Blocked(one.w, spec, one.stored) && !one.stored.Issued?)
  {
    var (w0, id) := if stored.Issued? then (Get(w, stored.id).0, Empty) else (w, stored);
    assert RolePass(w, spec, stored) == FindOrCreate(w0, spec, id) && w0.dir == w.dir && w0.unique == w.unique;
    assert Blocked(w, spec, stored) == Blocked(w0, spec, id);
    FindRoleOutcome(w0, spec, id);
    var one := RolePass(w, spec, stored);
    if Blocked(w, spec, stored) {
      FindRoleOutcome(one.w, spec, one.stored);
    } else {
      StoredRolePass(one.w, spec, one.stored);
    }
  }

  /** Once converged, a clean pass at any later time leaves server and status alone and its status patch is
      empty. */
  lemma RoleQuiescence(w: World, spec: RoleSpec, s: Status, detail: string, now: int,
                       again: World, detail': string, later: int, manifest: Doc, idField: string)
    requires RolePass(w, spec, s.id).failure.None?
    requires again.script == [] && again.dir == RolePass(w, spec, s.id).w.dir
    requires Converged(again.dir, spec, RolePass(w, spec, s.id).stored)
    ensures var s1 := NextStatus(RolePass(w, spec, s.id), s, detail, now);
            var p := RolePass(again, spec, s1.id);
            var s2 := NextStatus(p, s1, detail', later);
            && p.w.dir == again.dir && s2 == s1 && IsReady(s1)
            && MergePatch.Diff(Document(manifest, s1, idField), Document(manifest, s2, idField)) == MergePatch.Obj(map[])
  {
    var p := RolePass(w, spec, s.id);
    ConcludeAgain(s.(id := p.stored), true, "Synced", "Role synced", now, later, manifest, idField);
    ConvergedIsQuiet(again, spec, p.stored);
    var s1 := NextStatus(p, s, detail, now);
    assert s1.(id := s1.id) == s1;
  }

  /** Every pass keeps, clears or replaces the stored id by one the server issued; and a clean pass reports
      Ready without a usable id exactly when the stored id was unparsable and no listed role has the name. */
  lemma ReadyWithoutIdIff(w: World, spec: RoleSpec, stored: StoredId)
    ensures var p := RolePass(w, spec, stored);
            && (p.stored == stored || p.stored == Empty || p.stored.Issued?)
            && (p.failure.None? && !p.stored.Issued? ==> stored.Plain? && p.stored == stored && p.w.dir == w.dir)
    ensures w.script == [] ==>
              var p := RolePass(w, spec, stored);
              (p.failure.None? && !p.stored.Issued?)
              <==> stored.Plain? && FirstMatch(Page(w.dir), Named(spec.name)).None?
  {
  }

  // ---------------------------------------------------------------- what the verdict says

  function ReasonOf(c: Call): string {
    match c
    case GetCall(_) => "GetFailed"
    case ListCall => "ListFailed"
    case CreateCall(_, _) => "CreateFailed"
    case PatchCall(_, _, _) => "PatchFailed"
  }

  /** The pass stopped at its first failing call, of which the reason is the name. */
  ghost predicate Verdict(w: World, p: Pass) {
    && StopsAtFailure(w.script, |p.w.calls| - |w.calls|, p.failure.Some?)
    && (p.failure.Some? ==> p.failure.value == ReasonOf(p.w.calls[|p.w.calls| - 1]))
  }

  lemma FindVerdict(w: World, spec: RoleSpec, stored: StoredId)
    ensures var p := FindOrCreate(w, spec, stored); Verdict(w, p) && (p.failure.Some? ==> p.stored == stored)
  {
  }

  /** A pass stops at the first call that fails, in any world: so success means that no call failed, and a
      failure names the kind of the last call. A stored id found gone is cleared for good. */
  lemma VerdictNamesTheCall(w: World, spec: RoleSpec, stored: StoredId)
    ensures var p := RolePass(w, spec, stored);
            && Verdict(w, p)
            && (p.failure.Some? ==> p.stored == if stored.Issued? && Get(w, stored.id).1.NotFound? then Empty else stored)
  {
    if stored.Issued? {
      var (w1, got) := Get(w, stored.id);
      if got.NotFound? {
        FindVerdict(w1, spec, Empty);
        var p := FindOrCreate(w1, spec, Empty);
        assert RolePass(w, spec, stored) == p;
        StopsOneLater(w.script, |p.w.calls| - |w1.calls|, p.failure.Some?);
      }
    } else {
      FindVerdict(w, spec, stored);
    }
  }

  /** A role of the name was adopted, or one as wanted was created, or an unparsable id was kept. */
  ghost predicate FoundOrMade(dir: Registry<Role>, spec: RoleSpec, stored: StoredId, p: Pass) {
    || (p.stored.Issued? && p.w.dir == dir && Has(dir, p.stored.id) && dir[p.stored.id].value.name == spec.name)
    || (p.stored == Issued(|dir|) && |p.w.dir| == |dir| + 1 && p.w.dir[..|dir|] == dir && Converged(p.w.dir, spec, p.stored))
    || (stored.Plain? && p.stored == stored && p.w.dir == dir)
  }

  lemma EmptyFinds(dir: Registry<Role>, spec: RoleSpec, stored: StoredId, p: Pass)
    requires FoundOrMade(dir, spec, Empty, p)
    ensures FoundOrMade(dir, spec, stored, p)
  {
  }

  lemma FindSuccess(w: World, spec: RoleSpec, stored: StoredId)
    requires !stored.Issued? && FindOrCreate(w, spec, stored).failure.None?
    ensures FoundOrMade(w.dir, spec, stored, FindOrCreate(w, spec, stored))
  {
    SearchPage(w.dir, 0, PAGE_SIZE, Named(spec.name));
  }

  /** Success under any failures before and after: the stored role is as the spec wants it; or it was found by
      name and left as it was; or it was created as the spec wants it; or there is no id to store. */
  lemma SuccessMeans(w: World, spec: RoleSpec, stored: StoredId)
    requires RolePass(w, spec, stored).failure.None?
    ensures var p := RolePass(w, spec, stored);
            || (stored.Issued? && Has(w.dir, stored.id) && p.stored == stored && Converged(p.w.dir, spec, stored))
            || (!(stored.Issued? && Has(w.dir, stored.id)) && FoundOrMade(w.dir, spec, stored, p))
  {
    hide FindOrCreate, FoundOrMade;
    if !stored.Issued? {
      FindSuccess(w, spec, stored);
    } else if Get(w, stored.id).1.NotFound? {
      FindSuccess(Get(w, stored.id).0, spec, Empty);
      EmptyFinds(w.dir, spec, stored, RolePass(w, spec, stored));
    }
  }

  /** A role is created with the name and description of the spec, its reply lost or not. */
  lemma CreatesWhatIsWanted(w: World, spec: RoleSpec, stored: StoredId)
    ensures var p := RolePass(w, spec, stored);
            |p.w.dir| > |w.dir| ==>
              |p.w.dir| == |w.dir| + 1 && p.w.dir[..|w.dir|] == w.dir && Converged(p.w.dir, spec, Issued(|w.dir|))
  {
    var (w0, id) := if stored.Issued? then (Get(w, stored.id).0, Empty) else (w, stored);
    FindCreatesWanted(w0, spec, id);
  }

  lemma FindCreatesWanted(w: World, spec: RoleSpec, stored: StoredId)
    ensures var p := FindOrCreate(w, spec, stored);
            |p.w.dir| > |w.dir| ==>
              |p.w.dir| == |w.dir| + 1 && p.w.dir[..|w.dir|] == w.dir && Converged(p.w.dir, spec, Issued(|w.dir|))
  {
  }

  /** A live stored role is patched exactly where it differs from the spec, or left as it is. */
  lemma PatchesWhatDiffers(w: World, spec: RoleSpec, stored: StoredId, i: nat)
    requires stored.Issued? && Has(w.dir, stored.id)
    requires |w.calls| <= i < |RolePass(w, spec, stored).w.calls|
    ensures var p, existing := RolePass(w, spec, stored), w.dir[stored.id].value;
            var c := p.w.calls[i];
            && Has(p.w.dir, stored.id) && (p.w.dir[stored.id] == w.dir[stored.id] || Converged(p.w.dir, spec, stored))
            && (c.PatchCall? ==>
                  && c.id == stored.id
                  && c.patch.name == (if existing.name == spec.name then None else Some(spec.name))
                  && (c.patch.description.Some? <==> existing.description != OrElse(spec.description, ""))
                  && (c.patch.description.Some? ==> c.patch.description.value == OrElse(spec.description, "")))
  {
  }

  // ---------------------------------------------------------------- at most one creation

  function Created(calls: seq<Call>, name: string): nat {
    if calls == [] then 0 else
      var c := calls[|calls| - 1];
      Created(calls[..|calls| - 1], name) + (if c.CreateCall? && c.landed && c.name == name then 1 else 0)
  }

  lemma LoggedCreated(calls: seq<Call>, c: Call, name: string)
    ensures Created(calls + [c], name)
            == Created(calls, name) + (if c.CreateCall? && c.landed && c.name == name then 1 else 0)
  {
    assert (calls + [c])[..|calls|] == calls;
  }

  /** Without a usable stored id, a clean search creates the role exactly when it is not listed and the
      server does not refuse the name. */
  lemma FindCreatesIff(w: World, spec: RoleSpec, stored: StoredId)
    requires w.script == []
    ensures var calls := FindOrCreate(w, spec, stored).w.calls;
            && (Created(calls, spec.name) > Created(w.calls, spec.name)
                <==> stored == Empty && FirstMatch(Page(w.dir), Named(spec.name)).None?
                     && !(w.unique && NameTaken(w.dir, spec.name, None)))
  {
    hide Created;
    var w1 := List(w).0;
    LoggedCreated(w.calls, ListCall, spec.name);
    if stored == Empty && FirstMatch(Page(w.dir), Named(spec.name)).None? {
      var w2 := Create(w1, Wanted(spec)).0;
      LoggedCreated(w1.calls, w2.calls[|w1.calls|], spec.name);
      assert FindOrCreate(w, spec, stored).w == w2;
    } else {
      assert FindOrCreate(w, spec, stored).w == w1;
    }
  }

  /** A clean pass creates a role exactly when its stored id is empty or stale and no live role has the name,
      or the first one that has it lies beyond the page and the server does not refuse the name. */
  lemma CreationIff(w: World, spec: RoleSpec, stored: StoredId)
    requires w.script == []
    ensures Created(RolePass(w, spec, stored).w.calls, spec.name) > Created(w.calls, spec.name)
            <==> && (stored == Empty || (stored.Issued? && !Has(w.dir, stored.id)))
                 && (NameTaken(w.dir, spec.name, None) ==> !w.unique && BeyondPage(w.dir, Named(spec.name)))
  {
    SearchMissesIff(w.dir, spec.name);
    if stored.Issued? {
      var (w1, got) := Get(w, stored.id);
      LoggedCreated(w.calls, GetCall(stored.id), spec.name);
      if got.Ok? {
        LoggedCreated(w1.calls, Patch(w1, stored.id, PatchFor(got.value, spec)).0.calls[|w1.calls|], spec.name);
      } else {
        FindCreatesIff(w1, spec, Empty);
      }
    } else {
      FindCreatesIff(w, spec, stored);
    }
    if NameTaken(w.dir, spec.name, None) && !BeyondPage(w.dir, Named(spec.name)) {
      assert FirstMatch(Page(w.dir), Named(spec.name)).Some?;
    }
  }

  // ---------------------------------------------------------------- runs

  /** Passes of any role resources from any stored ids, and whatever third parties make of the roles. */
  datatype Attempt =
    | For(spec: RoleSpec, stored: StoredId, script: seq<Fault>)
    | ThirdParty(dir: Registry<Role>)

  function Tried(dir: Registry<Role>, unique: bool, calls: seq<Call>, a: Attempt): (Registry<Role>, seq<Call>) {
    match a
    case For(spec, stored, script) =>
      var p := RolePass(Server(dir, unique, script, calls), spec, stored);
      (p.w.dir, p.w.calls)
    case ThirdParty(edited) => (edited, calls)
  }

  function TriedAll(dir: Registry<Role>, unique: bool, calls: seq<Call>, many: seq<Attempt>): (Registry<Role>, seq<Call>)
    decreases |many|
  {
    if many == [] then (dir, calls) else
      var (d, c) := Tried(dir, unique, calls, many[0]);
      TriedAll(d, unique, c, many[1..])
  }

  /** Every pass of the run finds at most a page of roles. */
  ghost predicate AlwaysFits(dir: Registry<Role>, unique: bool, calls: seq<Call>, many: seq<Attempt>)
    decreases |many|
  {
    many == [] ||
    var (d, c) := Tried(dir, unique, calls, many[0]);
    (many[0].For? ==> FitsPage(dir)) && AlwaysFits(d, unique, c, many[1..])
  }

  function Taken(dir: Registry<Role>, name: string): nat {
    if NameTaken(dir, name, None) then 1 else 0
  }

  /** How often in the run the last role of that name ceases to have it. */
  function Freed(dir: Registry<Role>, unique: bool, calls: seq<Call>, many: seq<Attempt>, name: string): nat
    decreases |many|
  {
    if many == [] then 0 else
      var (d, c) := Tried(dir, unique, calls, many[0]);
      (if Taken(d, name) < Taken(dir, name) then 1 else 0) + Freed(d, unique, c, many[1..], name)
  }

  /** A pass that renames the stored role from this name to another, with the roles before and after it. */
  predicate RenamesAway(dir: Registry<Role>, d: Registry<Role>, a: Attempt, name: string) {
    && a.For? && a.stored.Issued?
    && Has(dir, a.stored.id) && dir[a.stored.id].value.name == name
    && Has(d, a.stored.id) && d[a.stored.id].value.name == a.spec.name != name
  }

  function Renames(dir: Registry<Role>, unique: bool, calls: seq<Call>, many: seq<Attempt>, name: string): nat
    decreases |many|
  {
    if many == [] then 0 else
      var (d, c) := Tried(dir, unique, calls, many[0]);
      (if RenamesAway(dir, d, many[0], name) then 1 else 0) + Renames(d, unique, c, many[1..], name)
  }

  lemma TakenBy(dir: Registry<Role>, name: string, id: Id)
    requires Has(dir, id) && dir[id].value.name == name
    ensures NameTaken(dir, name, None)
  {
    assert 0 <= id < |dir| && dir[id].Some?;
  }

  /** Roles that keep their names keep them taken. */
  lemma TakenKept(d: Registry<Role>, e: Registry<Role>, name: string)
    requires forall i: nat | Has(d, i) && d[i].value.name == name :: Has(e, i) && e[i].value.name == name
    ensures Taken(d, name) <= Taken(e, name)
  {
    if NameTaken(d, name, None) {
      var i :| 0 <= i < |d| && d[i].Some? && d[i].value.name == name;
      assert Has(d, i);
      TakenBy(e, name, i);
    }
  }

  lemma CreateBound(w: World, r: Role, name: string)
    requires w.unique || !NameTaken(w.dir, r.name, None)
    ensures Harmless(w, Create(w, r).0, name)
  {
    var w' := Create(w, r).0;
    LoggedCreated(w.calls, w'.calls[|w.calls|], name);
    TakenKept(w.dir, w'.dir, name);
    if w'.calls[|w.calls|].landed && r.name == name {
      TakenBy(w'.dir, name, |w.dir|);
    }
  }

  /** Neither a name freed nor a taken name created. */
  predicate Harmless(w: World, after: World, name: string) {
    && Created(after.calls, name) - Taken(after.dir, name) <= Created(w.calls, name) - Taken(w.dir, name)
    && Taken(w.dir, name) <= Taken(after.dir, name)
  }

  lemma QuietCall(w: World, dir: Registry<Role>, c: Call, name: string)
    requires !c.CreateCall?
    requires forall i: nat | Has(w.dir, i) && w.dir[i].value.name == name :: Has(dir, i) && dir[i].value.name == name
    ensures Harmless(w, Served(w, dir, c), name)
  {
    LoggedCreated(w.calls, c, name);
    TakenKept(w.dir, dir, name);
  }

  lemma HarmlessTwo(w: World, w1: World, w2: World, name: string)
    requires Harmless(w, w1, name) && Harmless(w1, w2, name)
    ensures Harmless(w, w2, name)
  {
  }

  lemma FindBound(w: World, spec: RoleSpec, stored: StoredId, name: string)
    requires w.unique || FitsPage(w.dir)
    ensures Harmless(w, FindOrCreate(w, spec, stored).w, name)
  {
    hide Harmless;
    var (w1, listed) := List(w);
    QuietCall(w, w.dir, ListCall, name);
    if listed.Ok? && FirstMatch(listed.value, Named(spec.name)).None? && stored == Empty {
      if !w.unique { MissedMeansFree(w.dir, spec.name); }
      CreateBound(w1, Wanted(spec), name);
      HarmlessTwo(w, w1, Create(w1, Wanted(spec)).0, name);
      assert FindOrCreate(w, spec, stored).w == Create(w1, Wanted(spec)).0;
    } else {
      assert FindOrCreate(w, spec, stored).w == w1;
    }
  }

  /** One call to the server about the stored role: what it may do to a name it renames away. */
  lemma PatchBound(w: World, id: Id, patch: RolePatch, name: string)
    ensures var w' := Patch(w, id, patch).0;
            && Created(w'.calls, name) == Created(w.calls, name)
            && (Harmless(w, w', name)
                || (&& Has(w.dir, id) && w.dir[id].value.name == name
                    && patch.name.Some? && Has(w'.dir, id) && w'.dir[id].value.name == patch.name.value))
  {
    var w' := Patch(w, id, patch).0;
    LoggedCreated(w.calls, w'.calls[|w.calls|], name);
    if !(w'.calls[|w.calls|].landed && w.dir[id].value.name == name && patch.name.Some?) {
      QuietCall(w, w'.dir, w'.calls[|w.calls|], name);
    }
  }

  /** One pass: it is harmless, or renames its stored role from this name to another and creates nothing. */
  lemma PassBound(w: World, spec: RoleSpec, stored: StoredId, name: string)
    requires w.unique || FitsPage(w.dir)
    ensures var p := RolePass(w, spec, stored);
            || Harmless(w, p.w, name)
            || (Created(p.w.calls, name) == Created(w.calls, name) && RenamesAway(w.dir, p.w.dir, For(spec, stored, w.script), name))
  {
    hide Harmless, FindOrCreate;
    if stored.Issued? {
      var (w1, got) := Get(w, stored.id);
      QuietCall(w, w.dir, GetCall(stored.id), name);
      if got.NotFound? {
        FindBound(w1, spec, Empty, name);
        HarmlessTwo(w, w1, FindOrCreate(w1, spec, Empty).w, name);
      } else if got.Ok? {
        StoredBound(w, w1, spec, stored, got.value, name);
      }
    } else {
      FindBound(w, spec, stored, name);
    }
  }

  lemma StoredBound(w: World, w1: World, spec: RoleSpec, stored: StoredId, existing: Role, name: string)
    requires stored.Issued? && Has(w.dir, stored.id) && Get(w, stored.id) == (w1, Ok(existing))
    requires Harmless(w, w1, name)
    ensures var p := RolePass(w, spec, stored);
            || Harmless(w, p.w, name)
            || (Created(p.w.calls, name) == Created(w.calls, name) && RenamesAway(w.dir, p.w.dir, For(spec, stored, w.script), name))
  {
    LoggedCreated(w.calls, GetCall(stored.id), name);
    var patch := PatchFor(existing, spec);
    if patch != RolePatch(None, None) {
      PatchBound(w1, stored.id, patch, name);
      var w2 := Patch(w1, stored.id, patch).0;
      assert RolePass(w, spec, stored).w == w2;
      if Harmless(w1, w2, name) { HarmlessTwo(w, w1, w2, name); }
    } else {
      assert RolePass(w, spec, stored).w == w1;
    }
  }

  lemma {:induction false} RunBound(dir: Registry<Role>, unique: bool, calls: seq<Call>, many: seq<Attempt>, name: string)
    requires unique || AlwaysFits(dir, unique, calls, many)
    ensures var (d, c) := TriedAll(dir, unique, calls, many);
            Created(c, name) - Taken(d, name) <= Created(calls, name) - Taken(dir, name) + Freed(dir, unique, calls, many, name)
    decreases |many|
  {
    if many != [] {
      if many[0].For? {
        PassBound(Server(dir, unique, many[0].script, calls), many[0].spec, many[0].stored, name);
      }
      var (d, c) := Tried(dir, unique, calls, many[0]);
      RunBound(d, unique, c, many[1..], name);
    }
  }

  /** Over any run with arbitrary failures, lost replies, lost status writes and third-party edits and
      deletions, a role of a name is created at most once more often than that name becomes free, and one
      time less if the name was taken at the start. RenamingCreatesAgain attains the bound. */
  lemma CreationsBound(dir: Registry<Role>, unique: bool, many: seq<Attempt>, name: string)
    requires unique || AlwaysFits(dir, unique, [], many)
    ensures Created(TriedAll(dir, unique, [], many).1, name) + Taken(dir, name) <= 1 + Freed(dir, unique, [], many, name)
  {
    RunBound(dir, unique, [], many, name);
  }

  /** Third parties leave every role of this name its name. */
  ghost predicate Spared(dir: Registry<Role>, unique: bool, calls: seq<Call>, many: seq<Attempt>, name: string)
    decreases |many|
  {
    many == [] ||
    var (d, c) := Tried(dir, unique, calls, many[0]);
    && (many[0].ThirdParty? ==>
          forall i: nat | Has(dir, i) && dir[i].value.name == name :: Has(d, i) && d[i].value.name == name)
    && Spared(d, unique, c, many[1..], name)
  }

  lemma {:induction false} OnlyRenamesFree(dir: Registry<Role>, unique: bool, calls: seq<Call>, many: seq<Attempt>, name: string)
    requires (unique || AlwaysFits(dir, unique, calls, many)) && Spared(dir, unique, calls, many, name)
    ensures Freed(dir, unique, calls, many, name) <= Renames(dir, unique, calls, many, name)
    decreases |many|
  {
    if many != [] {
      var (d, c) := Tried(dir, unique, calls, many[0]);
      if many[0].For? {
        PassBound(Server(dir, unique, many[0].script, calls), many[0].spec, many[0].stored, name);
      } else {
        TakenKept(dir, d, name);
      }
      OnlyRenamesFree(d, unique, c, many[1..], name);
    }
  }

  /** So the operator creates at most one role per name, and none where one was, plus one for each of its
      own passes that renames a role of that name; renamings of other roles do not matter. */
  lemma AtMostOneRole(dir: Registry<Role>, unique: bool, many: seq<Attempt>, name: string)
    requires (unique || AlwaysFits(dir, unique, [], many)) && Spared(dir, unique, [], many, name)
    ensures Created(TriedAll(dir, unique, [], many).1, name) + Taken(dir, name) <= 1 + Renames(dir, unique, [], many, name)
  {
    CreationsBound(dir, unique, many, name);
    OnlyRenamesFree(dir, unique, [], many, name);
  }

  const FIRST := RoleSpec("admin", None)
  const SECOND := RoleSpec("owner", None)
  const ADMIN := Role("admin", "")
  const OWNER := Role("owner", "")
  const RENAME := RolePatch(Some("owner"), None)

  lemma FirstCreation(unique: bool)
    ensures Tried([], unique, [], For(FIRST, Empty, [])) == ([Some(ADMIN)], [ListCall, CreateCall("admin", true)])
  {
    var none: Registry<Role> := [];
    var w: World := Server(none, unique, [], []);
    assert Page(none) == [];
    assert w.calls + [ListCall] == [ListCall];
    assert List(w) == (Server(none, unique, [], [ListCall]), Ok(Page(none)));
    var p := RolePass(w, FIRST, Empty);
    assert p.w.calls == [ListCall] + [CreateCall("admin", true)] == [ListCall, CreateCall("admin", true)];
    assert p.w.dir == none + [Some(ADMIN)] == [Some(ADMIN)];
  }

  lemma Renaming(unique: bool, calls: seq<Call>)
    ensures Tried([Some(ADMIN)], unique, calls, For(SECOND, Issued(0), []))
            == ([Some(OWNER)], calls + [GetCall(0)] + [PatchCall(0, RENAME, true)])
  {
    var w: World := Server([Some(ADMIN)], unique, [], calls);
    assert Get(w, 0) == (Server([Some(ADMIN)], unique, [], calls + [GetCall(0)]), Ok(ADMIN));
    assert PatchFor(ADMIN, SECOND) == RENAME && Patched(ADMIN, RENAME) == OWNER;
    assert Put([Some(ADMIN)], 0, OWNER) == [Some(OWNER)];
  }

  lemma SecondCreation(unique: bool, calls: seq<Call>)
    ensures Tried([Some(OWNER)], unique, calls, For(FIRST, Empty, []))
            == ([Some(OWNER), Some(ADMIN)], calls + [ListCall] + [CreateCall("admin", true)])
  {
    var dir: Registry<Role> := [Some(OWNER)];
    var w: World := Server(dir, unique, [], calls);
    MissedMeansFree(dir, "admin");
    assert LiveFrom(dir, 1) == 0 && FitsPage(dir);
    assert List(w) == (Server(dir, unique, [], calls + [ListCall]), Ok(Page(dir)));
    assert dir + [Some(ADMIN)] == [Some(OWNER), Some(ADMIN)];
  }

  /** The bound is attained: edit the name of one resource, and another resource of the old name has its
      role created although a role of that name had been created before. */
  lemma RenamingCreatesAgain(unique: bool)
    ensures var run := [For(FIRST, Empty, []), For(SECOND, Issued(0), []), For(FIRST, Empty, [])];
            && Created(TriedAll([], unique, [], run).1, "admin") == 2
            && Renames([], unique, [], run, "admin") == 1
            && Taken([], "admin") == 0
  {
    var run := [For(FIRST, Empty, []), For(SECOND, Issued(0), []), For(FIRST, Empty, [])];
    var c1 := [ListCall, CreateCall("admin", true)];
    var c2 := c1 + [GetCall(0)] + [PatchCall(0, RENAME, true)];
    var c3 := c2 + [ListCall] + [CreateCall("admin", true)];
    FirstCreation(unique);
    Renaming(unique, c1);
    SecondCreation(unique, c2);
    var rest := run[1..];
    assert run[0] == For(FIRST, Empty, []) && rest[0] == For(SECOND, Issued(0), []) && rest[1..] == [run[2]] && [run[2]][1..] == [];
    assert TriedAll([Some(OWNER)], unique, c2, [run[2]]).1 == c3;
    assert TriedAll([Some(ADMIN)], unique, c1, rest).1 == c3;
    assert Renames([Some(OWNER)], unique, c2, [run[2]], "admin") == 0;
    assert Renames([Some(ADMIN)], unique, c1, rest, "admin") == 1;
    assert [ListCall] + [CreateCall("admin", true)] == c1 && [] + [ListCall] == [ListCall];
    LoggedCreated([], ListCall, "admin");
    LoggedCreated([ListCall], CreateCall("admin", true), "admin");
    LoggedCreated(c1, GetCall(0), "admin");
    LoggedCreated(c1 + [GetCall(0)], PatchCall(0, RENAME, true), "admin");
    LoggedCreated(c2, ListCall, "admin");
    LoggedCreated(c2 + [ListCall], CreateCall("admin", true), "admin");
  }
}
