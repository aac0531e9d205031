/** The remote Keyline server as the operator sees it: ids, replies, failures, paged listings. */
module Remote {
  import opened Prelude

  type Id = nat

  /** The only page the operator ever asks for is page 0 of this size. */
  const PAGE_SIZE: nat := 1000

  /** What can go wrong with one call: nothing, an error before the server acted, or an error
      although the server acted. A failed call never looks like a 404. */
  datatype Fault = Clean | NoEffect | LostReply

  /** What will befall the next call; beyond its script every call is clean. */
  function Upcoming(script: seq<Fault>): Fault {
    if script == [] then Clean else script[0]
  }

  function Remaining(script: seq<Fault>): seq<Fault> {
    if script == [] then [] else script[1..]
  }

  /** What befalls the call after the next `i` calls. */
  function FaultAt(script: seq<Fault>, i: nat): Fault {
    if i < |script| then script[i] else Clean
  }

  /** Of `n` calls, all but possibly the last were clean, and the last too unless the pass failed. */
  ghost predicate StopsAtFailure(script: seq<Fault>, n: int, failed: bool) {
    && (failed ==> n > 0)
    && forall i: nat | i < (if failed then n - 1 else n) :: FaultAt(script, i) == Clean
  }

  lemma StopsOneLater(script: seq<Fault>, n: int, failed: bool)
    requires Upcoming(script) == Clean && StopsAtFailure(Remaining(script), n, failed)
    ensures StopsAtFailure(script, n + 1, failed)
  {
    forall i: nat | i < (if failed then n else n + 1) ensures FaultAt(script, i) == Clean {
      if i > 0 {
        assert FaultAt(script, i) == FaultAt(Remaining(script), i - 1);
      }
    }
  }

  datatype Reply<+T> = Ok(value: T) | NotFound | Failed

  /** The text field of a status that holds an id (for instances, a URL): absent, text that is no UUID, or
      the printed form of a server id. Parsing a printed id gives that id back. */
  datatype StoredId = Empty | Plain(text: string) | Issued(id: Id)

  /** Items in the order the server created them, which is also the order of its listings. The index is
      the id: ids are never reused, and a deleted item leaves a hole. */
  type Registry<T> = seq<Option<T>>

  datatype Item<T> = Item(id: Id, value: T)

  predicate Has<T>(r: Registry<T>, id: Id) {
    id < |r| && r[id].Some?
  }

  function Put<T>(r: Registry<T>, id: Id, value: T): Registry<T>
    requires id < |r|
  {
    r[id := Some(value)]
  }

  /** The live items from index `from` on, at most `limit` of them. */
  function Rows<T>(r: Registry<T>, from: nat, limit: nat): seq<Item<T>>
    requires from <= |r|
    decreases |r| - from
  {
    if from == |r| || limit == 0 then []
    else if r[from].Some? then [Item(from, r[from].value)] + Rows(r, from + 1, limit - 1)
    else Rows(r, from + 1, limit)
  }

  /** The reply to a listing call. */
  function Page<T>(r: Registry<T>): seq<Item<T>> {
    Rows(r, 0, PAGE_SIZE)
  }

  /** How many live items there are from index `from` on. */
  function LiveFrom<T>(r: Registry<T>, from: nat): nat
    requires from <= |r|
    decreases |r| - from
  {
    if from == |r| then 0 else (if r[from].Some? then 1 else 0) + LiveFrom(r, from + 1)
  }

  predicate FitsPage<T>(r: Registry<T>) {
    LiveFrom(r, 0) <= PAGE_SIZE
  }

  /** The id of the first listed item that satisfies the test. */
  function FirstMatch<T>(rows: seq<Item<T>>, test: T -> bool): Option<Id> {
    if rows == [] then None
    else if test(rows[0].value) then Some(rows[0].id)
    else FirstMatch(rows[1..], test)
  }

  /** `id` is the first live item from `from` on that satisfies the test. */
  ghost predicate IsFirst<T>(r: Registry<T>, from: nat, test: T -> bool, id: Id) {
    && from <= id
    && Has(r, id)
    && test(r[id].value)
    && forall j | from <= j < id && Has(r, j) :: !test(r[j].value)
  }

  ghost predicate Nowhere<T>(r: Registry<T>, from: nat, test: T -> bool) {
    forall j | from <= j && Has(r, j) :: !test(r[j].value)
  }

  /** Searching the page finds the first match exactly when fewer than a page of live items precede
      it; otherwise it finds nothing. */
  lemma {:induction false} SearchPage<T>(r: Registry<T>, from: nat, limit: nat, test: T -> bool)
    requires from <= |r|
    ensures match FirstMatch(Rows(r, from, limit), test)
            case Some(id) => IsFirst(r, from, test, id) && LiveFrom(r, from) - LiveFrom(r, id) < limit
            case None => forall id | IsFirst(r, from, test, id) :: LiveFrom(r, from) - LiveFrom(r, id) >= limit
    decreases |r| - from
  {
    if from < |r| && limit > 0 {
      var rows := Rows(r, from, limit);
      if r[from].Some? {
        assert rows[1..] == Rows(r, from + 1, limit - 1);
        SearchPage(r, from + 1, limit - 1, test);
        if !test(r[from].value) {
          forall id ensures IsFirst(r, from, test, id) <==> IsFirst(r, from + 1, test, id) {}
        } else {
          forall id | IsFirst(r, from, test, id) ensures id == from {}
        }
      } else {
        SearchPage(r, from + 1, limit, test);
        forall id ensures IsFirst(r, from, test, id) <==> IsFirst(r, from + 1, test, id) {}
      }
    } else if from < |r| {
      forall id | IsFirst(r, from, test, id) ensures LiveFrom(r, from) >= LiveFrom(r, id) {
        LiveMonotone(r, from, id);
      }
    }
  }

  lemma {:induction false} LiveMonotone<T>(r: Registry<T>, from: nat, to: nat)
    requires from <= to <= |r|
    ensures LiveFrom(r, to) <= LiveFrom(r, from)
    decreases |r| - from
  {
    if from < to { LiveMonotone(r, from + 1, to); }
  }

  /** A match that exists has a first occurrence. */
  lemma {:induction false} FirstExists<T>(r: Registry<T>, from: nat, test: T -> bool) returns (id: Id)
    requires !Nowhere(r, from, test)
    ensures IsFirst(r, from, test, id)
    decreases |r| - from
  {
    if Has(r, from) && test(r[from].value) {
      id := from;
    } else {
      id := FirstExists(r, from + 1, test);
    }
  }

  /** When everything fits the page, the search is exact. */
  lemma SearchFits<T>(r: Registry<T>, test: T -> bool)
    requires FitsPage(r)
    ensures match FirstMatch(Page(r), test)
            case Some(id) => IsFirst(r, 0, test, id)
            case None => Nowhere(r, 0, test)
  {
    SearchPage(r, 0, PAGE_SIZE, test);
    if FirstMatch(Page(r), test).None? && !Nowhere(r, 0, test) {
      var id := FirstExists(r, 0, test);
      assert false;
    }
  }

  /** A full page of live items precedes the first match. */
  ghost predicate BeyondPage<T>(r: Registry<T>, test: T -> bool) {
    exists id :: IsFirst(r, 0, test, id) && LiveFrom(r, 0) - LiveFrom(r, id) >= 1000
  }

  /** A search misses exactly what is not there or lies beyond the page. */
  lemma MissedIff<T>(r: Registry<T>, test: T -> bool)
    ensures FirstMatch(Page(r), test).None? <==> Nowhere(r, 0, test) || BeyondPage(r, test)
  {
    SearchPage(r, 0, PAGE_SIZE, test);
    if !Nowhere(r, 0, test) {
      var first := FirstExists(r, 0, test);
    }
  }

  /** Nothing lies beyond a page that is not full. */
  lemma FitsMeansListed<T>(r: Registry<T>, test: T -> bool)
    requires FitsPage(r)
    ensures !BeyondPage(r, test)
  {
    SearchFits(r, test);
    MissedIff(r, test);
    forall id | IsFirst(r, 0, test, id) ensures FirstMatch(Page(r), test).Some? {
      assert Has(r, id);
    }
    SearchPage(r, 0, PAGE_SIZE, test);
    forall id, first | IsFirst(r, 0, test, id) && IsFirst(r, 0, test, first) ensures id == first {}
  }

  lemma {:induction false} LiveAppend<T>(r: Registry<T>, value: T, from: nat)
    requires from <= |r|
    ensures LiveFrom(r + [Some(value)], from) == LiveFrom(r, from) + 1
    decreases |r| - from
  {
    if from < |r| {
      LiveAppend(r, value, from + 1);
    } else {
      assert LiveFrom(r + [Some(value)], from + 1) == 0;
    }
  }

  /** An item appended to a listing without a match, and with room on the page, is the match. */
  lemma AppendedIsFound<T>(r: Registry<T>, value: T, test: T -> bool)
    requires test(value) && FirstMatch(Page(r), test).None? && LiveFrom(r, 0) < PAGE_SIZE
    ensures FirstMatch(Page(r + [Some(value)]), test) == Some(|r|)
  {
    var q := r + [Some(value)];
    LiveAppend(r, value, 0);
    SearchFits(r, test);
    SearchFits(q, test);
    var found := FirstMatch(Page(q), test);
    assert Has(q, |r|);
    if found.Some? && found.value < |r| {
      assert Has(r, found.value);
    }
  }

  // ---------------------------------------------------------------- servers between two passes

  /** A server whose items have names, with what will befall its next calls and the calls so far. Where
      names are unique the server refuses to create or rename an item into a taken name. */
  datatype Server<T, C> = Server(dir: Registry<T>, unique: bool, script: seq<Fault>, calls: seq<C>)

  function Served<T, C>(w: Server<T, C>, dir: Registry<T>, c: C): Server<T, C> {
    w.(dir := dir, script := Remaining(w.script), calls := w.calls + [c])
  }
}
