/** JSON merge patches (section 2 of RFC 7396): the format in which every status write reaches the
    Kubernetes API server. */
module MergePatch {
  import opened Prelude

  /** Leaves are abstract: a string, a Boolean, a time stamp or the printed form of an id. */
  datatype Json<A> = Null | Leaf(atom: A) | Arr(items: seq<Json<A>>) | Obj(fields: map<string, Json<A>>)

  /** The MergePatch procedure of section 2 of RFC 7396. */
  function Apply<A>(target: Json<A>, patch: Json<A>): Json<A>
    decreases patch
  {
    if !patch.Obj? then patch else
    var base := Fields(target);
    Obj(map k | k in base.Keys + patch.fields.Keys && (k in patch.fields ==> patch.fields[k] != Null) ::
      if k in patch.fields then Apply(Member(base, k), patch.fields[k]) else base[k])
  }

  function Fields<A>(j: Json<A>): map<string, Json<A>> {
    if j.Obj? then j.fields else map[]
  }

  function Member<A>(m: map<string, Json<A>>, k: string): Json<A> {
    if k in m then m[k] else Null
  }

  /** The client's diff between the snapshot and the mutated object: differing members only, nested
      objects compared member by member, everything else (arrays in particular) carried whole, and
      members that disappeared marked with null. */
  function Diff<A(==)>(base: Json<A>, obj: Json<A>): Json<A>
    requires base.Obj? && obj.Obj?
    decreases obj
  {
    Obj(map k | k in base.fields.Keys + obj.fields.Keys && At(base.fields, k) != At(obj.fields, k) ::
      if k !in obj.fields then Null
      else if Member(base.fields, k).Obj? && obj.fields[k].Obj? then Diff(base.fields[k], obj.fields[k])
      else obj.fields[k])
  }

  /** No null as an object member. Arrays are copied whole, so what they hold does not matter. */
  ghost predicate NullFree<A>(j: Json<A>) {
    j.Obj? ==> forall k | k in j.fields :: j.fields[k] != Null && NullFree(j.fields[k])
  }

  /** The value at a path of member names. */
  function Lookup<A>(j: Json<A>, path: seq<string>): Option<Json<A>>
    decreases |path|
  {
    if path == [] then Some(j)
    else if j.Obj? && path[0] in j.fields then Lookup(j.fields[path[0]], path[1..])
    else None
  }

  /** A null-free value used as a patch on a non-object is that value. */
  lemma {:induction false} ApplyToNull<A>(target: Json<A>, patch: Json<A>)
    requires NullFree(patch) && !target.Obj?
    ensures Apply(target, patch) == patch
    decreases patch
  {
    if patch.Obj? {
      forall k | k in patch.fields ensures Apply(Null, patch.fields[k]) == patch.fields[k] {
        ApplyToNull(Null, patch.fields[k]);
      }
      assert Apply(target, patch).fields == patch.fields;
    }
  }

  /** Sending the diff to a server that still holds the snapshot leaves exactly the mutated object. */
  lemma {:induction false} RoundTrip<A>(base: Json<A>, obj: Json<A>)
    requires base.Obj? && obj.Obj? && NullFree(obj)
    ensures Apply(base, Diff(base, obj)) == obj
    decreases obj
  {
    var patch := Diff(base, obj);
    var result := Apply(base, patch);
    forall k ensures At(result.fields, k) == At(obj.fields, k) {
      DiffMember(base, obj, k);
      if k in patch.fields && k in obj.fields {
        var held := Member(base.fields, k);
        assert k in result.fields && result.fields[k] == Apply(held, patch.fields[k]);
        if held.Obj? && obj.fields[k].Obj? {
          RoundTrip(held, obj.fields[k]);
        } else if obj.fields[k].Obj? {
          ApplyToNull(held, obj.fields[k]);
        }
      }
    }
    SameByAt(result.fields, obj.fields);
  }

  lemma DiffMember<A>(base: Json<A>, obj: Json<A>, k: string)
    requires base.Obj? && obj.Obj?
    ensures k in Diff(base, obj).fields <==> At(base.fields, k) != At(obj.fields, k)
  {
  }

  /** The patch has nothing to say about the path: walking down the patch ends at a member it lacks. */
  ghost predicate Spares<A>(patch: Json<A>, path: seq<string>)
    decreases |path|
  {
    patch.Obj? && path != [] && (path[0] in patch.fields ==> Spares(patch.fields[path[0]], path[1..]))
  }

  lemma {:induction false} SparedIsKept<A>(patch: Json<A>, current: Json<A>, path: seq<string>)
    requires Spares(patch, path)
    ensures Lookup(Apply(current, patch), path) == Lookup(current, path)
    decreases |path|
  {
    var k := path[0];
    if k in patch.fields && patch.fields[k] != Null {
      SparedIsKept(patch.fields[k], Member(Fields(current), k), path[1..]);
    }
  }

  /** Otherwise some document changes at the path. */
  lemma {:induction false} NotSparedMayChange<A>(patch: Json<A>, path: seq<string>) returns (current: Json<A>)
    requires !Spares(patch, path)
    ensures Lookup(Apply(current, patch), path) != Lookup(current, path)
    decreases |path|
  {
    if path == [] {
      current := if patch.Obj? then Arr([]) else Obj(map[]);
    } else if !patch.Obj? || patch.fields[path[0]] == Null {
      current := Trail(path);
    } else {
      var inner := NotSparedMayChange(patch.fields[path[0]], path[1..]);
      current := Obj(map[path[0] := inner]);
      assert Member(Fields(current), path[0]) == inner;
    }
  }

  /** A document that has the path. */
  function Trail<A>(path: seq<string>): (j: Json<A>)
    ensures Lookup(j, path).Some?
  {
    if path == [] then Null else Obj(map[path[0] := Trail(path[1..])])
  }

  /** Snapshot and mutated object agree somewhere along the path; or they differ and are both objects all the
      way to where the mutated object says nothing; or it has an object, there where the snapshot has none,
      that says nothing about the rest of the path. */
  ghost predicate Untouched<A>(base: Json<A>, obj: Json<A>, path: seq<string>)
    requires base.Obj? && obj.Obj?
    decreases |path|
  {
    path != [] &&
    var k, rest := path[0], path[1..];
    || At(base.fields, k) == At(obj.fields, k)
    || (&& k in obj.fields && obj.fields[k].Obj?
        && if Member(base.fields, k).Obj? then Untouched(base.fields[k], obj.fields[k], rest) else Spares(obj.fields[k], rest))
  }

  lemma {:induction false} UntouchedIsSpared<A>(base: Json<A>, obj: Json<A>, path: seq<string>)
    requires base.Obj? && obj.Obj?
    ensures Untouched(base, obj, path) <==> Spares(Diff(base, obj), path)
    decreases |path|
  {
    if path != [] {
      var k := path[0];
      DiffMember(base, obj, k);
      if k in base.fields && k in obj.fields && base.fields[k].Obj? && obj.fields[k].Obj? {
        UntouchedIsSpared(base.fields[k], obj.fields[k], path[1..]);
      }
    }
  }

  /** The frame, exactly: whatever the server holds by now at a path is kept by the patch, for every such
      value, if and only if the path is untouched. */
  lemma FrameKeptIff<A(!new)>(base: Json<A>, obj: Json<A>, path: seq<string>)
    requires base.Obj? && obj.Obj?
    ensures Untouched(base, obj, path)
            <==> forall current :: Lookup(Apply(current, Diff(base, obj)), path) == Lookup(current, path)
  {
    UntouchedIsSpared(base, obj, path);
    if Untouched(base, obj, path) {
      forall current ensures Lookup(Apply(current, Diff(base, obj)), path) == Lookup(current, path) {
        SparedIsKept(Diff(base, obj), current, path);
      }
    } else {
      var current := NotSparedMayChange(Diff(base, obj), path);
    }
  }

  /** In particular a path that leads through objects in both documents, at whose end they agree. */
  lemma {:induction false} AgreedIsUntouched<A>(base: Json<A>, obj: Json<A>, path: seq<string>)
    requires path != [] && SharedParents(base, obj, path)
    requires Lookup(base, path) == Lookup(obj, path)
    ensures Untouched(base, obj, path)
    decreases |path|
  {
    if |path| == 1 {
      assert path == [path[0]];
      LookupOne(base, path[0]);
      LookupOne(obj, path[0]);
    } else {
      AgreedIsUntouched(base.fields[path[0]], obj.fields[path[0]], path[1..]);
    }
  }

  /** A patch writes what it holds. */
  lemma {:induction false} HeldIsWritten<A>(patch: Json<A>, current: Json<A>, path: seq<string>)
    requires NullFree(patch) && path != []
    requires Lookup(patch, path).Some? && !Lookup(patch, path).value.Obj?
    ensures Lookup(Apply(current, patch), path) == Lookup(patch, path)
    decreases |path|
  {
    var k, rest := path[0], path[1..];
    if rest != [] {
      HeldIsWritten(patch.fields[k], Member(Fields(current), k), rest);
    }
  }

  /** Where snapshot and mutated object differ, and the latter has no object, the server ends up with the
      mutated object's value: an array replaced whole, a removed member gone, a new parent put in place. */
  lemma {:induction false} FrameWritten<A>(base: Json<A>, obj: Json<A>, current: Json<A>, path: seq<string>)
    requires base.Obj? && obj.Obj? && path != [] && NullFree(obj)
    requires Lookup(base, path) != Lookup(obj, path)
    requires Lookup(obj, path).Some? ==> !Lookup(obj, path).value.Obj?
    ensures Lookup(Apply(current, Diff(base, obj)), path) == Lookup(obj, path)
    decreases |path|
  {
    var k, rest := path[0], path[1..];
    DiffMember(base, obj, k);
    var now := Member(Fields(current), k);
    if rest == [] {
      LookupOne(base, k); LookupOne(obj, k);
      LookupOne(Apply(current, Diff(base, obj)), k);
      assert path == [k];
    } else if k in obj.fields && obj.fields[k].Obj? {
      if Member(base.fields, k).Obj? {
        FrameWritten(base.fields[k], obj.fields[k], now, rest);
        assert Apply(current, Diff(base, obj)).fields[k] == Apply(now, Diff(base.fields[k], obj.fields[k]));
      } else {
        HeldIsWritten(obj.fields[k], now, rest);
      }
    }
  }

  lemma LookupOne<A>(j: Json<A>, k: string)
    ensures Lookup(j, [k]) == At(Fields(j), k)
  {
    if j.Obj? && k in j.fields {
      assert [k][1..] == [];
    }
  }

  /** Every proper prefix of the path is an object in both documents. */
  ghost predicate SharedParents<A>(base: Json<A>, obj: Json<A>, path: seq<string>)
    decreases |path|
  {
    && base.Obj? && obj.Obj?
    && (|path| > 1 ==>
      && path[0] in base.fields
      && path[0] in obj.fields
      && SharedParents(base.fields[path[0]], obj.fields[path[0]], path[1..]))
  }

  /** An unchanged object gives an empty patch, which changes no document. */
  lemma QuietDiff<A>(obj: Json<A>, current: Json<A>)
    requires obj.Obj? && current.Obj?
    ensures Diff(obj, obj) == Obj(map[])
    ensures Apply(current, Diff(obj, obj)) == current
  {
    assert Diff(obj, obj).fields == map[];
    assert Apply(current, Obj(map[])).fields == current.fields;
  }
}
