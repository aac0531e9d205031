/** Conditions and status writes (internal/controller/helpers.go). */
module StatusPatch {
  import opened Prelude
  import opened Remote
  import opened MergePatch

  const READY := "Ready"
  const MANAGED_FIELD := "managedKeyIds"
  const CONDITIONS_FIELD := "conditions"
  const SPEC_FIELD := "spec"
  const STATUS_FIELD := "status"

  datatype Truth = Yes | No | Unknown

  datatype Condition = Condition(kind: string, status: Truth, reason: string, message: string, since: int)

  /** The status of any of the custom resources. Only users have managed key ids. */
  datatype Status = Status(id: StoredId, managed: seq<string>, conditions: seq<Condition>)

  const NEW_STATUS := Status(Empty, [], [])

  /** Adding a condition: replaces the first condition of its type, keeping the transition time when
      the value does not change, and appends otherwise. */
  function Upsert(conditions: seq<Condition>, c: Condition): seq<Condition> {
    if conditions == [] then [c]
    else if conditions[0].kind == c.kind then
      [c.(since := if conditions[0].status == c.status then conditions[0].since else c.since)] + conditions[1..]
    else [conditions[0]] + Upsert(conditions[1..], c)
  }

  predicate IsTrue(conditions: seq<Condition>, kind: string) {
    conditions != [] &&
    if conditions[0].kind == kind then conditions[0].status == Yes else IsTrue(conditions[1..], kind)
  }

  function ReadyCondition(ready: bool, reason: string, message: string, now: int): Condition {
    Condition(READY, if ready then Yes else No, reason, message, now)
  }

  function Conclude(s: Status, ready: bool, reason: string, message: string, now: int): Status {
    s.(conditions := Upsert(s.conditions, ReadyCondition(ready, reason, message, now)))
  }

  predicate IsReady(s: Status) {
    IsTrue(s.conditions, READY)
  }

  /** A condition is read back as it was set, others are undisturbed. */
  lemma {:induction false} UpsertReadsBack(conditions: seq<Condition>, c: Condition, kind: string)
    ensures IsTrue(Upsert(conditions, c), kind) ==
            if kind == c.kind then c.status == Yes else IsTrue(conditions, kind)
  {
    if conditions != [] {
      UpsertReadsBack(conditions[1..], c, kind);
      var u := Upsert(conditions, c);
      assert u[1..] == if conditions[0].kind == c.kind then conditions[1..] else Upsert(conditions[1..], c);
    }
  }

  /** The position of the first condition of a type, or the length if there is none. */
  function Where(conditions: seq<Condition>, kind: string): (i: nat)
    ensures i <= |conditions|
    ensures i < |conditions| ==> conditions[i].kind == kind
    ensures forall j :: 0 <= j < i ==> conditions[j].kind != kind
  {
    if conditions == [] || conditions[0].kind == kind then 0 else 1 + Where(conditions[1..], kind)
  }

  /** The first condition of its type becomes the new one, reason and message included, keeping the old time
      exactly if the value is the same; where there is none it is appended; all others stay as they are. */
  lemma {:induction false} UpsertSets(conditions: seq<Condition>, c: Condition)
    ensures var u, i := Upsert(conditions, c), Where(conditions, c.kind);
            && |u| == (if i == |conditions| then i + 1 else |conditions|)
            && (forall j :: 0 <= j < |conditions| && j != i ==> u[j] == conditions[j])
            && u[i] == Condition(c.kind, c.status, c.reason, c.message,
                                 if i < |conditions| && conditions[i].status == c.status then conditions[i].since else c.since)
            && Where(u, c.kind) == i
  {
    if conditions != [] && conditions[0].kind != c.kind {
      UpsertSets(conditions[1..], c);
      assert Upsert(conditions, c)[1..] == Upsert(conditions[1..], c);
    }
  }

  /** The Ready condition of a status. */
  function ReadyAt(s: Status): Option<Condition> {
    var i := Where(s.conditions, "Ready");
    if i < |s.conditions| then Some(s.conditions[i]) else None
  }

  /** What concluding a pass writes: Ready with this truth, reason and message, its time renewed exactly if the
      truth changes; the id, the managed keys and all other conditions are left to the pass. */
  lemma ConcludeSets(s: Status, ready: bool, reason: string, message: string, now: int)
    ensures var t, before := Conclude(s, ready, reason, message, now), ReadyAt(s);
            var truth := if ready then Yes else No;
            && t.id == s.id && t.managed == s.managed
            && ReadyAt(t) == Some(Condition("Ready", truth, reason, message,
                                            if before.Some? && before.value.status == truth then before.value.since else now))
            && (forall i :: 0 <= i < |s.conditions| && i != Where(s.conditions, "Ready") ==>
                  i < |t.conditions| && t.conditions[i] == s.conditions[i])
            && |t.conditions| == |s.conditions| + (if before.None? then 1 else 0)
  {
    UpsertSets(s.conditions, ReadyCondition(ready, reason, message, now));
  }

  /** Setting the same condition again, at any later time, changes nothing: not even its time. */
  lemma {:induction false} UpsertAgain(conditions: seq<Condition>, c: Condition, later: int)
    ensures Upsert(Upsert(conditions, c), c.(since := later)) == Upsert(conditions, c)
  {
    var u := Upsert(conditions, c);
    if conditions != [] && conditions[0].kind != c.kind {
      UpsertAgain(conditions[1..], c, later);
      assert u[1..] == Upsert(conditions[1..], c);
    }
  }

  /** At most one condition of each type, kept by every write. */
  ghost predicate OnePerType(conditions: seq<Condition>) {
    forall i, j :: 0 <= i < j < |conditions| ==> conditions[i].kind != conditions[j].kind
  }

  lemma {:induction false} UpsertKeepsOnePerType(conditions: seq<Condition>, c: Condition)
    requires OnePerType(conditions)
    ensures OnePerType(Upsert(conditions, c))
    ensures forall k | 0 <= k < |Upsert(conditions, c)| ::
              Upsert(conditions, c)[k].kind == c.kind || exists i :: 0 <= i < |conditions| && conditions[i].kind == Upsert(conditions, c)[k].kind
  {
    if conditions != [] && conditions[0].kind != c.kind {
      var rest, u := conditions[1..], Upsert(conditions, c);
      UpsertKeepsOnePerType(rest, c);
      forall k | 0 < k < |u|
        ensures u[k].kind != u[0].kind
        ensures u[k].kind == c.kind || exists i :: 0 <= i < |conditions| && conditions[i].kind == u[k].kind
      {
        assert u[k] == Upsert(rest, c)[k - 1];
        if u[k].kind != c.kind {
          var i :| 0 <= i < |rest| && rest[i].kind == u[k].kind;
          assert conditions[i + 1] == rest[i];
        }
      }
    }
  }

  // ---------------------------------------------------------------- documents

  datatype Atom = Text(text: string) | Truth(truth: Truth) | Time(time: int) | Ident(stored: StoredId)

  type Doc = Json<Atom>

  function EncodeTexts(texts: seq<string>): (docs: seq<Doc>)
    ensures |docs| == |texts|
  {
    if texts == [] then [] else [Leaf(Text(texts[0]))] + EncodeTexts(texts[1..])
  }

  function EncodeCondition(c: Condition): Doc {
    Obj(map["type" := Leaf(Text(c.kind)), "status" := Leaf(Atom.Truth(c.status)), "reason" := Leaf(Text(c.reason)),
            "message" := Leaf(Text(c.message)), "lastTransitionTime" := Leaf(Time(c.since))])
  }

  function EncodeConditions(cs: seq<Condition>): (docs: seq<Doc>)
    ensures |docs| == |cs|
  {
    if cs == [] then [] else [EncodeCondition(cs[0])] + EncodeConditions(cs[1..])
  }

  /** Every status field is left out when it is empty. */
  function EncodeStatus(s: Status, idField: string): Doc {
    Obj((if s.id == Empty then map[] else map[idField := Leaf(Ident(s.id))]) +
        (if s.managed == [] then map[] else map[MANAGED_FIELD := Arr(EncodeTexts(s.managed))]) +
        (if s.conditions == [] then map[] else map[CONDITIONS_FIELD := Arr(EncodeConditions(s.conditions))]))
  }

  function SpecAndStatus(manifest: Doc, status: Option<Doc>): Doc {
    Obj(map[SPEC_FIELD := manifest] + (if status.Some? then map[STATUS_FIELD := status.value] else map[]))
  }

  /** The object as sent to the API server; an entirely empty status is left out. */
  function Document(manifest: Doc, s: Status, idField: string): Doc {
    SpecAndStatus(manifest, if s == NEW_STATUS then None else Some(EncodeStatus(s, idField)))
  }

  function DecodeText(d: Doc): string {
    if d.Leaf? && d.atom.Text? then d.atom.text else ""
  }

  function DecodeTexts(docs: seq<Doc>): seq<string> {
    if docs == [] then [] else [DecodeText(docs[0])] + DecodeTexts(docs[1..])
  }

  function DecodeCondition(d: Doc): Condition {
    var status, since := Member(Fields(d), "status"), Member(Fields(d), "lastTransitionTime");
    Condition(DecodeText(Member(Fields(d), "type")),
              if status.Leaf? && status.atom.Truth? then status.atom.truth else Unknown,
              DecodeText(Member(Fields(d), "reason")),
              DecodeText(Member(Fields(d), "message")),
              if since.Leaf? && since.atom.Time? then since.atom.time else 0)
  }

  function DecodeConditions(docs: seq<Doc>): seq<Condition> {
    if docs == [] then [] else [DecodeCondition(docs[0])] + DecodeConditions(docs[1..])
  }

  function DecodeStatus(d: Doc, idField: string): Status {
    var id, managed, conditions :=
      Member(Fields(d), idField), Member(Fields(d), MANAGED_FIELD), Member(Fields(d), CONDITIONS_FIELD);
    Status(if id.Leaf? && id.atom.Ident? then id.atom.stored else Empty,
           if managed.Arr? then DecodeTexts(managed.items) else [],
           if conditions.Arr? then DecodeConditions(conditions.items) else [])
  }

  function StatusOf(document: Doc, idField: string): Status {
    DecodeStatus(Member(Fields(document), STATUS_FIELD), idField)
  }

  lemma {:induction false} TextsRoundTrip(texts: seq<string>)
    ensures DecodeTexts(EncodeTexts(texts)) == texts
  {
    if texts != [] {
      TextsRoundTrip(texts[1..]);
      assert EncodeTexts(texts)[1..] == EncodeTexts(texts[1..]);
    }
  }

  lemma {:induction false} ConditionsRoundTrip(cs: seq<Condition>)
    ensures DecodeConditions(EncodeConditions(cs)) == cs
  {
    if cs != [] {
      ConditionsRoundTrip(cs[1..]);
      assert EncodeConditions(cs)[1..] == EncodeConditions(cs[1..]);
      assert DecodeCondition(EncodeCondition(cs[0])) == cs[0];
    }
  }

  ghost predicate IdField(name: string) {
    name != MANAGED_FIELD && name != CONDITIONS_FIELD
  }

  lemma DocumentRoundTrip(manifest: Doc, s: Status, idField: string)
    requires IdField(idField)
    ensures StatusOf(Document(manifest, s, idField), idField) == s
  {
    hide EncodeTexts, DecodeTexts, EncodeConditions, DecodeConditions;
    TextsRoundTrip(s.managed);
    ConditionsRoundTrip(s.conditions);
    if s != NEW_STATUS {
      var fields := EncodeStatus(s, idField).fields;
      assert DecodeStatus(EncodeStatus(s, idField), idField) == s;
    }
  }

  /** A condition in a document, member by member. */
  ghost predicate Shows(d: Doc, c: Condition) {
    && Lookup(d, ["type"]) == Some(Leaf(Text(c.kind))) && Lookup(d, ["reason"]) == Some(Leaf(Text(c.reason)))
    && Lookup(d, ["message"]) == Some(Leaf(Text(c.message)))
    && Lookup(d, ["status"]) == Some(Leaf(Atom.Truth(c.status)))
    && Lookup(d, ["lastTransitionTime"]) == Some(Leaf(Time(c.since)))
  }

  lemma MemberFound(d: Doc, k: string)
    requires d.Obj?
    ensures Lookup(d, [k]) == At(d.fields, k)
  {
    if k in d.fields { assert Lookup(d.fields[k], []) == Some(d.fields[k]); }
  }

  lemma ConditionShows(c: Condition)
    ensures Shows(EncodeCondition(c), c)
  {
    var d := EncodeCondition(c);
    MemberFound(d, "type");
    MemberFound(d, "status");
    MemberFound(d, "reason");
    MemberFound(d, "message");
    MemberFound(d, "lastTransitionTime");
  }

  lemma {:induction false} ConditionsShow(cs: seq<Condition>, i: nat)
    requires i < |cs|
    ensures Shows(EncodeConditions(cs)[i], cs[i])
  {
    ConditionShows(cs[0]);
    if i > 0 { ConditionsShow(cs[1..], i - 1); }
  }

  lemma {:induction false} TextsShow(texts: seq<string>, i: nat)
    requires i < |texts|
    ensures EncodeTexts(texts)[i] == Leaf(Text(texts[i]))
  {
    if i > 0 { TextsShow(texts[1..], i - 1); }
  }

  /** Where a written status is found in the object, under the names the API gives its fields. */
  lemma StatusIsShown(s: Status, idField: string)
    requires IdField(idField)
    ensures var d := EncodeStatus(s, idField);
            && Lookup(d, [idField]) == (if s.id == Empty then None else Some(Leaf(Ident(s.id))))
            && (s.managed != [] ==>
                  exists docs: seq<Doc> :: Lookup(d, ["managedKeyIds"]) == Some(Arr(docs)) && |docs| == |s.managed|
                    && forall i :: 0 <= i < |docs| ==> docs[i] == Leaf(Text(s.managed[i])))
            && (s.conditions != [] ==>
                  exists docs: seq<Doc> :: Lookup(d, ["conditions"]) == Some(Arr(docs)) && |docs| == |s.conditions|
                    && forall i :: 0 <= i < |docs| ==> Shows(docs[i], s.conditions[i]))
  {
    var d := EncodeStatus(s, idField);
    MemberFound(d, idField);
    MemberFound(d, "managedKeyIds");
    MemberFound(d, "conditions");
    var texts, docs := EncodeTexts(s.managed), EncodeConditions(s.conditions);
    forall i: nat | i < |s.managed| ensures texts[i] == Leaf(Text(s.managed[i])) { TextsShow(s.managed, i); }
    forall i: nat | i < |s.conditions| ensures Shows(docs[i], s.conditions[i]) { ConditionsShow(s.conditions, i); }
    assert s.managed != [] ==> Lookup(d, ["managedKeyIds"]) == Some(Arr(texts));
    assert s.conditions != [] ==> Lookup(d, ["conditions"]) == Some(Arr(docs));
  }

  lemma DocumentHolds(manifest: Doc, s: Status, idField: string)
    ensures var d := Document(manifest, s, idField);
            && Lookup(d, ["spec"]) == Some(manifest)
            && Lookup(d, ["status"]) == if s == NEW_STATUS then None else Some(EncodeStatus(s, idField))
  {
    MemberFound(Document(manifest, s, idField), "spec");
    MemberFound(Document(manifest, s, idField), "status");
  }

  lemma SpecAndStatusLandsWhole(manifest: Doc, edited: Doc, was: Option<Doc>, now: Option<Doc>)
    requires edited != Null
    requires was.Some? ==> was.value.Obj?
    requires now.Some? ==> now.value.Obj? && NullFree(now.value)
    ensures Apply(SpecAndStatus(edited, was), Diff(SpecAndStatus(manifest, was), SpecAndStatus(manifest, now)))
            == SpecAndStatus(edited, now)
  {
    var base, next, wanted := SpecAndStatus(manifest, was), SpecAndStatus(manifest, now), SpecAndStatus(edited, now);
    var result := Apply(SpecAndStatus(edited, was), Diff(base, next));
    forall k ensures At(result.fields, k) == At(wanted.fields, k) {
      DiffMember(base, next, k);
      if k == STATUS_FIELD && was != now && now.Some? {
        if was.Some? {
          RoundTrip(was.value, now.value);
        } else {
          ApplyToNull(Null, now.value);
        }
      }
    }
    SameByAt(result.fields, wanted.fields);
  }

  /** One status write lands whole: id, managed key ids and conditions together, with a spec that was
      edited between the read and the write left as edited. */
  lemma StatusWriteLandsWhole(manifest: Doc, edited: Doc, base: Status, next: Status, idField: string)
    requires edited != Null
    ensures var patch := Diff(Document(manifest, base, idField), Document(manifest, next, idField));
            Apply(Document(edited, base, idField), patch) == Document(edited, next, idField)
  {
    assert NullFree(EncodeStatus(next, idField));
    SpecAndStatusLandsWhole(manifest, edited,
      if base == NEW_STATUS then None else Some(EncodeStatus(base, idField)),
      if next == NEW_STATUS then None else Some(EncodeStatus(next, idField)));
  }

  /** Concluding a pass with the outcome already recorded changes nothing, so the patch is empty and no
      new event for this object arises. */
  lemma ConcludeAgain(s: Status, ready: bool, reason: string, message: string, now: int, later: int,
                      manifest: Doc, idField: string)
    ensures var s1 := Conclude(s, ready, reason, message, now);
            var s2 := Conclude(s1, ready, reason, message, later);
            && s2 == s1 && IsReady(s1) == ready && s1.id == s.id && s1.managed == s.managed
            && Diff(Document(manifest, s1, idField), Document(manifest, s2, idField)) == Obj(map[])
  {
    var c := ReadyCondition(ready, reason, message, now);
    UpsertAgain(s.conditions, c, later);
    UpsertReadsBack(s.conditions, c, READY);
    var s1 := Conclude(s, ready, reason, message, now);
    QuietDiff(Document(manifest, s1, idField), Document(manifest, s1, idField));
  }

  // ---------------------------------------------------------------- mutable entities

  /** One custom resource as the reconciler holds it in memory. */
  class Resource<S> {
    const spec: S
    const manifest: Doc
    const idField: string
    var id: StoredId
    var managed: seq<string>
    var conditions: seq<Condition>

    constructor (spec: S, manifest: Doc, idField: string, s: Status)
      ensures this.spec == spec && this.manifest == manifest && this.idField == idField
      ensures View() == s
    {
      this.spec, this.manifest, this.idField := spec, manifest, idField;
      id, managed, conditions := s.id, s.managed, s.conditions;
    }

    function View(): Status
      reads this
    {
      Status(id, managed, conditions)
    }
  }

  /** The stored copy of that resource. */
  class ApiServer {
    var document: Doc

    constructor (document: Doc)
      ensures this.document == document
    {
      this.document := document;
    }

    method PatchStatus(patch: Doc, fault: Fault) returns (ok: bool)
      modifies this
      ensures ok == fault.Clean?
      ensures document == if fault.NoEffect? then old(document) else Apply(old(document), patch)
    {
      if !fault.NoEffect? {
        document := Apply(document, patch);
      }
      ok := fault.Clean?;
    }
  }

  datatype Result = RequeueAfter | Error

  /** Holds the snapshot taken right after the read, before any mutation. */
  class StatusPatcher<S> {
    const server: ApiServer
    const resource: Resource<S>
    const base: Status

    constructor (server: ApiServer, resource: Resource<S>)
      ensures this.server == server && this.resource == resource && base == resource.View()
    {
      this.server, this.resource, this.base := server, resource, resource.View();
    }

    method SetNotReady(reason: string, message: string, now: int, fault: Fault) returns (result: Result)
      modifies server, resource
      ensures resource.View() == Conclude(old(resource.View()), false, reason, message, now)
      ensures server.document == Written(old(server.document), resource.manifest, base, resource.View(), resource.idField, fault)
      ensures result == if fault.Clean? then RequeueAfter else Error
    {
      resource.conditions := Upsert(resource.conditions, ReadyCondition(false, reason, message, now));
      result := Write(fault);
    }

    method SetReady(reason: string, message: string, now: int, fault: Fault) returns (result: Result)
      modifies server, resource
      ensures resource.View() == Conclude(old(resource.View()), true, reason, message, now)
      ensures server.document == Written(old(server.document), resource.manifest, base, resource.View(), resource.idField, fault)
      ensures result == if fault.Clean? then RequeueAfter else Error
    {
      resource.conditions := Upsert(resource.conditions, ReadyCondition(true, reason, message, now));
      result := Write(fault);
    }

    method Write(fault: Fault) returns (result: Result)
      modifies server
      ensures server.document == Written(old(server.document), resource.manifest, base, resource.View(), resource.idField, fault)
      ensures result == if fault.Clean? then RequeueAfter else Error
    {
      var ok := server.PatchStatus(
        Diff(Document(resource.manifest, base, resource.idField),
             Document(resource.manifest, resource.View(), resource.idField)), fault);
      result := if ok then RequeueAfter else Error;
    }
  }

  /** The stored document after the write of `next` by a reconciler that read `base`. */
  function Written(stored: Doc, manifest: Doc, base: Status, next: Status, idField: string, fault: Fault): Doc {
    if fault.NoEffect? then stored
    else Apply(stored, Diff(Document(manifest, base, idField), Document(manifest, next, idField)))
  }

  /** What the next pass reads: the whole new status, or the whole old one. */
  lemma WriteIsAtomic(manifest: Doc, edited: Doc, base: Status, next: Status, idField: string, fault: Fault)
    requires IdField(idField) && edited != Null
    ensures var after := Written(Document(edited, base, idField), manifest, base, next, idField, fault);
            && StatusOf(after, idField) == (if fault.NoEffect? then base else next)
            && Member(Fields(after), SPEC_FIELD) == edited
  {
    hide EncodeStatus, StatusOf, Apply, Diff;
    if fault.NoEffect? {
      DocumentRoundTrip(edited, base, idField);
    } else {
      StatusWriteLandsWhole(manifest, edited, base, next, idField);
      DocumentRoundTrip(edited, next, idField);
    }
  }

  /** After a write that lands, the next pass reads the outcome that was concluded, word for word. */
  lemma OutcomeIsReadBack(manifest: Doc, edited: Doc, base: Status, s: Status, ready: bool, reason: string, message: string,
                          now: int, idField: string, fault: Fault)
    requires IdField(idField) && edited != Null && fault != NoEffect
    ensures var next := Conclude(s, ready, reason, message, now);
            var read := StatusOf(Written(Document(edited, base, idField), manifest, base, next, idField, fault), idField);
            && read.id == s.id && read.managed == s.managed
            && ReadyAt(read).Some?
            && var c := ReadyAt(read).value;
               c.status == (if ready then Yes else No) && c.reason == reason && c.message == message
  {
    ConcludeSets(s, ready, reason, message, now);
    WriteIsAtomic(manifest, edited, base, Conclude(s, ready, reason, message, now), idField, fault);
  }
}
