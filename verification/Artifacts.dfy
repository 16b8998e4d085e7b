/** Versioned artifacts: records, the indexes over them and the blobs they point to, changed
    together by create, update and delete. */
module Artifacts {
  import opened Common
  import opened Text

  newtype Byte = x: int | 0 <= x < 256
  type Bytes = seq<Byte>
  type ArtifactId = string // the text of a UUID
  type Index = map<string, seq<ArtifactId>>

  datatype Status = Active | Superseded | Deleted

  datatype Record = Record(
    id: ArtifactId,
    name: string,
    kind: string,
    goal: Option<string>,
    space: string,
    version: nat,
    status: Status,
    updated: int,
    provenance: string, // the provenance's lineage id
    tags: seq<string>)
  {
    function Lineage(): string {
      if provenance == "" then id else provenance
    }
  }

  datatype Shelf = Shelf(
    records: map<ArtifactId, Record>,
    order: seq<ArtifactId>, // the record dictionary's insertion order
    byGoal: Index,
    byType: Index,
    byLineage: Index,
    blobs: map<string, Bytes>)

  const EmptyShelf := Shelf(map[], [], map[], map[], map[], map[])

  // ------------------------------------------------------------------
  // Blob locations
  // ------------------------------------------------------------------

  predicate Allowed(c: char) {
    'a' <= c <= 'z' || 'A' <= c <= 'Z' || '0' <= c <= '9' || c in {'_', '.', '-', ' '}
  }

  /** Each run of characters that are not allowed becomes one underscore. */
  function Cleaned(s: string, inRun: bool): string {
    if s == [] then []
    else if Allowed(s[0]) then [s[0]] + Cleaned(s[1..], false)
    else (if inRun then [] else "_") + Cleaned(s[1..], true)
  }

  function NoSpaces(s: string): string {
    seq(|s|, i requires 0 <= i < |s| => if s[i] == ' ' then '_' else s[i])
  }

  /** `_safe_filename`. */
  function SafeFilename(name: string): string {
    var cleaned := Cleaned(Strip(name), false);
    NoSpaces(if cleaned == [] then "artifact" else cleaned)
  }

  /** `_blob_path`, below the blob root. */
  function Location(r: Record): string {
    r.space + "/" + r.Lineage() + "/" + ("v" + Decimal(r.version)) + "/" + SafeFilename(r.name)
  }

  // ------------------------------------------------------------------
  // Mutations
  // ------------------------------------------------------------------

  /** What the caller of `create` supplies; `claimed` is a lineage id in its provenance. */
  datatype Draft = Draft(name: string, kind: string, content: Bytes, goal: Option<string>, space: string,
    tags: seq<string>, claimed: Option<string>)

  datatype Change = Change(content: Bytes, name: Option<string>, tags: Option<seq<string>>)

  function Listed(index: Index, key: string): seq<ArtifactId> {
    if key in index then index[key] else []
  }

  function AddTo(index: Index, key: string, id: ArtifactId): Index {
    index[key := if id in Listed(index, key) then Listed(index, key) else Listed(index, key) + [id]]
  }

  /** `_index_record`. */
  function Indexed(s: Shelf, r: Record): Shelf {
    s.(records := s.records[r.id := r],
       order := if r.id in s.records then s.order else s.order + [r.id],
       byGoal := if r.goal.Some? then AddTo(s.byGoal, r.goal.value, r.id) else s.byGoal,
       byType := AddTo(s.byType, r.kind, r.id),
       byLineage := AddTo(s.byLineage, r.Lineage(), r.id))
  }

  function Stored(s: Shelf, r: Record, content: Bytes): Shelf {
    Indexed(s.(blobs := s.blobs[Location(r) := content]), r)
  }

  function NormalTags(tags: seq<string>): seq<string> {
    if tags == [] then [] else (if Strip(tags[0]) == "" then [] else [Lower(Strip(tags[0]))]) + NormalTags(tags[1..])
  }

  function FirstRecord(id: ArtifactId, d: Draft, now: int): Record {
    Record(id, Strip(d.name), Lower(Strip(d.kind)), d.goal, d.space, 1, Active, now,
           if d.claimed.Some? then d.claimed.value else id, NormalTags(d.tags))
  }

  /** `create`, with the new id, the time, and whether the blob can be written; the flag says
      whether it raised. */
  function Create(s: Shelf, id: ArtifactId, d: Draft, now: int, writable: bool): (Shelf, bool) {
    if Strip(d.name) == "" || Strip(d.kind) == "" || !writable then (s, true)
    else (Stored(s, FirstRecord(id, d, now), d.content), false)
  }

  predicate IsActive(s: Shelf, id: ArtifactId) {
    id in s.records && s.records[id].status == Active
  }

  function NextRecord(current: Record, newId: ArtifactId, c: Change, now: int): Record {
    Record(newId, Strip(if c.name.Some? && c.name.value != "" then c.name.value else current.name), current.kind,
      current.goal,
           current.space, current.version + 1, Active, now, current.Lineage(),
           if c.tags.Some? then NormalTags(c.tags.value) else current.tags)
  }

  function WithStatus(s: Shelf, id: ArtifactId, status: Status): Shelf
    requires id in s.records
  {
    s.(records := s.records[id := s.records[id].(status := status)])
  }

  /** `update`: the current version is superseded before the new blob is written. */
  function Update(s: Shelf, id: ArtifactId, newId: ArtifactId, c: Change, now: int, writable: bool): (Shelf, bool) {
    if !IsActive(s, id) then (s, true)
    else
      var s1 := WithStatus(s, id, Superseded);
      if !writable then (s1, true) else (Stored(s1, NextRecord(s.records[id], newId, c, now), c.content), false)
  }

  /** `delete`. */
  function Delete(s: Shelf, id: ArtifactId, now: int): (Shelf, bool) {
    if !IsActive(s, id) then (s, true)
    else (s.(records := s.records[id := s.records[id].(status := Deleted, updated := now)]), false)
  }

  // ------------------------------------------------------------------
  // The invariant
  // ------------------------------------------------------------------

  /** One lineage: versions 1..n in index order, all but the last superseded. */
  ghost predicate ChainOk(records: map<ArtifactId, Record>, lineage: string, ids: seq<ArtifactId>) {
    && ids != [] && ids[0] == lineage && lineage != "" && Free(lineage, '/')
    && (forall i :: 0 <= i < |ids| ==>
          && ids[i] in records && records[ids[i]].Lineage() == lineage && records[ids[i]].version == i + 1
          && (i < |ids| - 1 ==> records[ids[i]].status == Superseded))
  }

  ghost predicate Chains(s: Shelf) {
    && (forall l :: l in s.byLineage ==> ChainOk(s.records, l, s.byLineage[l]))
    && (forall id :: id in s.records ==>
         s.records[id].Lineage() in s.byLineage && id in s.byLineage[s.records[id].Lineage()])
  }

  /** An index lists exactly the records that have its key. */
  ghost predicate Exact(index: Index, records: map<ArtifactId, Record>, key: Record -> Option<string>) {
    && (forall k, id :: k in index && id in index[k] ==> id in records && key(records[id]) == Some(k))
    && (forall id :: id in records && key(records[id]).Some? ==>
         key(records[id]).value in index && id in index[key(records[id]).value])
  }

  function GoalOf(r: Record): Option<string> {
    r.goal
  }

  function TypeOf(r: Record): Option<string> {
    Some(r.kind)
  }

  ghost predicate Ordered(s: Shelf) {
    && (forall i :: 0 <= i < |s.order| ==> s.order[i] in s.records)
    && (forall i, j :: 0 <= i < j < |s.order| ==> s.order[i] != s.order[j])
    && (forall id :: id in s.records ==> id in s.order && s.records[id].id == id)
  }

  ghost predicate Valid(s: Shelf) {
    && Chains(s) && Ordered(s)
    && Exact(s.byGoal, s.records, GoalOf) && Exact(s.byType, s.records, TypeOf)
    && (forall id :: id in s.records ==> Location(s.records[id]) in s.blobs)
  }

  /** What a caller sees of `read_content` for a record. */
  function Content(s: Shelf, id: ArtifactId): Option<Bytes> {
    if id in s.records && Location(s.records[id]) in s.blobs then Some(s.blobs[Location(s.records[id])]) else None
  }

  // ------------------------------------------------------------------
  // Locations are injective
  // ------------------------------------------------------------------

  lemma {:induction false} CleanedFree(s: string, inRun: bool)
    ensures Free(Cleaned(s, inRun), '/')
  {
    if s != [] {
      CleanedFree(s[1..], false);
      CleanedFree(s[1..], true);
    }
  }

  lemma SafeFilenameFree(name: string)
    ensures Free(SafeFilename(name), '/')
  {
    CleanedFree(Strip(name), false);
  }

  lemma VersionFree(n: nat)
    ensures Free("v" + Decimal(n), '/')
  {
    DecimalDigits(n);
  }

  /** Two records at one location are the same version of the same lineage. */
  lemma LocationInjective(r: Record, r': Record)
    requires Location(r) == Location(r') && Free(r.Lineage(), '/') && Free(r'.Lineage(), '/')
    ensures r.Lineage() == r'.Lineage() && r.version == r'.version
  {
    SafeFilenameFree(r.name);
    SafeFilenameFree(r'.name);
    VersionFree(r.version);
    VersionFree(r'.version);
    hide SafeFilename, Decimal, Free;
    var l, l' := r.space + "/" + r.Lineage(), r'.space + "/" + r'.Lineage();
    var v, v' := "v" + Decimal(r.version), "v" + Decimal(r'.version);
    LastPart(l + "/" + v, SafeFilename(r.name), l' + "/" + v', SafeFilename(r'.name), '/');
    LastPart(l, v, l', v', '/');
    LastPart(r.space, r.Lineage(), r'.space, r'.Lineage(), '/');
    assert Decimal(r.version) == v[1..] && Decimal(r'.version) == v'[1..];
    DecimalInjective(r.version, r'.version);
  }

  // ------------------------------------------------------------------
  // Every operation keeps the invariant
  // ------------------------------------------------------------------

  /** A lineage whose versions so far are all superseded, or a lineage that is to begin. */
  ghost predicate OpenChain(s: Shelf, lineage: string) {
    if lineage in s.byLineage then
      && ChainOk(s.records, lineage, s.byLineage[lineage])
      && forall id :: id in s.byLineage[lineage] ==> s.records[id].status == Superseded
    else lineage != "" && Free(lineage, '/')
  }

  lemma ChainGrows(records: map<ArtifactId, Record>, l: string, ids: seq<ArtifactId>, r: Record)
    requires ids != [] ==> ChainOk(records, l, ids) && forall id :: id in ids ==> records[id].status == Superseded
    requires ids == [] ==> l == r.id && l != "" && Free(l, '/')
    requires r.id !in records && r.Lineage() == l && r.version == |ids| + 1
    ensures ChainOk(records[r.id := r], l, ids + [r.id])
  {
    hide Free;
    var more := ids + [r.id];
    forall i | 0 <= i < |more|
      ensures more[i] in records[r.id := r] && records[r.id := r][more[i]].Lineage() == l
        && records[r.id := r][more[i]].version == i + 1
      ensures i < |more| - 1 ==> records[r.id := r][more[i]].status == Superseded
    {
      if i < |ids| {
        assert ids[i] in records && ids[i] in ids;
      }
    }
  }

  lemma ChainUntouched(records: map<ArtifactId, Record>, l: string, ids: seq<ArtifactId>, r: Record)
    requires ChainOk(records, l, ids) && r.id !in records
    ensures ChainOk(records[r.id := r], l, ids)
  {
    hide Free;
  }

  lemma AppendToChain(s: Shelf, r: Record)
    requires Chains(s) && r.id !in s.records && OpenChain(s, r.Lineage())
    requires r.version == |Listed(s.byLineage, r.Lineage())| + 1
    requires r.Lineage() !in s.byLineage ==> r.Lineage() == r.id
    ensures Chains(Indexed(s, r))
  {
    hide ChainOk, Free, Indexed, OpenChain, Listed;
    var l := r.Lineage();
    var s' := Indexed(s, r);
    IndexedAt(s, r);
    OpenChainGives(s, r);
    ChainGrows(s.records, l, Listed(s.byLineage, l), r);
    forall k | k in s'.byLineage ensures ChainOk(s'.records, k, s'.byLineage[k]) {
      if k != l {
        ChainUntouched(s.records, k, s.byLineage[k], r);
      }
    }
    forall id | id in s'.records
      ensures s'.records[id].Lineage() in s'.byLineage && id in s'.byLineage[s'.records[id].Lineage()]
    {
      if id != r.id {
        assert id in s.byLineage[s.records[id].Lineage()];
      }
    }
  }

  lemma OpenChainGives(s: Shelf, r: Record)
    requires OpenChain(s, r.Lineage()) && (r.Lineage() !in s.byLineage ==> r.Lineage() == r.id)
    ensures var l := r.Lineage();
      var ids := Listed(s.byLineage, l);
      && (ids != [] ==> ChainOk(s.records, l, ids) && forall id :: id in ids ==> s.records[id].status == Superseded)
      && (ids == [] ==> l == r.id && l != "" && Free(l, '/'))
      && (l in s.byLineage ==> ids == s.byLineage[l])
  {
    hide Free;
  }

  lemma IndexedAt(s: Shelf, r: Record)
    requires Chains(s) && r.id !in s.records
    ensures var s' := Indexed(s, r);
      && s'.records == s.records[r.id := r]
      && s'.byLineage == s.byLineage[r.Lineage() := Listed(s.byLineage, r.Lineage()) + [r.id]]
  {
    hide Free;
    if r.Lineage() in s.byLineage {
      assert ChainOk(s.records, r.Lineage(), s.byLineage[r.Lineage()]);
    }
  }

  lemma IndexedExact(index: Index, records: map<ArtifactId, Record>, r: Record, key: Record -> Option<string>)
    requires Exact(index, records, key) && r.id !in records
    ensures Exact(if key(r).Some? then AddTo(index, key(r).value, r.id) else index, records[r.id := r], key)
  {}

  lemma SameKeysExact(index: Index, records: map<ArtifactId, Record>, records': map<ArtifactId, Record>,
      key: Record -> Option<string>)
    requires Exact(index, records, key) && records'.Keys == records.Keys
    requires forall id :: id in records ==> key(records'[id]) == key(records[id])
    ensures Exact(index, records', key)
  {}

  lemma IndexedOrdered(s: Shelf, r: Record)
    requires Ordered(s) && r.id !in s.records
    ensures Ordered(Indexed(s, r))
  {}

  /** A new id is not a lineage either: each lineage is the id of its first version. */
  lemma LineageIsAnId(s: Shelf, l: string)
    requires Chains(s) && l in s.byLineage
    ensures l in s.records
  {
    assert ChainOk(s.records, l, s.byLineage[l]);
  }

  /** Storing a new version leaves every other record's content alone. */
  lemma StoredElsewhere(s: Shelf, r: Record, id: ArtifactId)
    requires Chains(s) && id in s.records && Free(r.Lineage(), '/')
    requires r.version == |Listed(s.byLineage, r.Lineage())| + 1
    ensures Location(s.records[id]) != Location(r)
  {
    hide Free, Location;
    var earlier := s.records[id];
    assert ChainOk(s.records, earlier.Lineage(), s.byLineage[earlier.Lineage()]);
    if Location(earlier) == Location(r) {
      LocationInjective(earlier, r);
    }
  }

  lemma StoredKeeps(s: Shelf, r: Record, content: Bytes)
    requires Valid(s) && r.id !in s.records && OpenChain(s, r.Lineage())
    requires r.version == |Listed(s.byLineage, r.Lineage())| + 1
    requires r.Lineage() !in s.byLineage ==> r.Lineage() == r.id
    ensures Valid(Stored(s, r, content))
    ensures forall id :: id in s.records ==> Content(Stored(s, r, content), id) == Content(s, id)
    ensures Content(Stored(s, r, content), r.id) == Some(content)
  {
    ValidParts(s);
    hide Valid, Location, OpenChain, Free, Exact, Chains, Ordered, Indexed, Content;
    var s1 := s.(blobs := s.blobs[Location(r) := content]);
    var s' := Indexed(s1, r);
    SameChains(s, s1, r.Lineage());
    AppendToChain(s1, r);
    IndexedOrdered(s1, r);
    IndexesGrow(s1, r);
    IndexedAt(s1, r);
    IndexedBlobs(s1, r);
    StoredBlobs(s, r, content, s');
    ValidIs(s');
  }

  lemma ValidParts(s: Shelf)
    requires Valid(s)
    ensures Chains(s) && Ordered(s) && Exact(s.byGoal, s.records, GoalOf) && Exact(s.byType, s.records, TypeOf)
    ensures forall id :: id in s.records ==> Location(s.records[id]) in s.blobs
  {}

  lemma ValidIs(s: Shelf)
    requires Chains(s) && Ordered(s) && Exact(s.byGoal, s.records, GoalOf) && Exact(s.byType, s.records, TypeOf)
    requires forall id :: id in s.records ==> Location(s.records[id]) in s.blobs
    ensures Valid(s)
  {}

  lemma IndexesGrow(s: Shelf, r: Record)
    requires r.id !in s.records && Exact(s.byGoal, s.records, GoalOf) && Exact(s.byType, s.records, TypeOf)
    ensures var s' := Indexed(s, r); Exact(s'.byGoal, s'.records, GoalOf) && Exact(s'.byType, s'.records, TypeOf)
  {
    hide Exact, AddTo;
    IndexedExact(s.byGoal, s.records, r, GoalOf);
    IndexedExact(s.byType, s.records, r, TypeOf);
  }

  lemma IndexedBlobs(s: Shelf, r: Record)
    ensures Indexed(s, r).blobs == s.blobs
  {}

  lemma StoredBlobs(s: Shelf, r: Record, content: Bytes, s': Shelf)
    requires Chains(s) && OpenChain(s, r.Lineage()) && r.version == |Listed(s.byLineage, r.Lineage())| + 1
    requires r.id !in s.records && forall id :: id in s.records ==> Location(s.records[id]) in s.blobs
    requires s'.records == s.records[r.id := r] && s'.blobs == s.blobs[Location(r) := content]
    ensures forall id :: id in s'.records ==> Location(s'.records[id]) in s'.blobs
    ensures forall id :: id in s.records ==> Content(s', id) == Content(s, id)
    ensures Content(s', r.id) == Some(content)
  {
    OpenIsFree(s, r.Lineage());
    hide Location, OpenChain, Free, Chains, Content;
    ContentIs(s', r.id);
    forall id | id in s.records ensures Location(s'.records[id]) in s'.blobs && Content(s', id) == Content(s, id) {
      StoredElsewhere(s, r, id);
      ContentIs(s, id);
      ContentIs(s', id);
    }
  }

  lemma ContentIs(s: Shelf, id: ArtifactId)
    requires id in s.records && Location(s.records[id]) in s.blobs
    ensures Content(s, id) == Some(s.blobs[Location(s.records[id])])
  {}

  lemma OpenIsFree(s: Shelf, l: string)
    requires OpenChain(s, l)
    ensures Free(l, '/')
  {}

  lemma SameChains(s: Shelf, s1: Shelf, l: string)
    requires Chains(s) && OpenChain(s, l) && Ordered(s)
    requires s1.records == s.records && s1.byLineage == s.byLineage && s1.order == s.order
    ensures Chains(s1) && OpenChain(s1, l) && Ordered(s1)
  {}

  /** The caller's provenance names no lineage, or one that comes to the new id. */
  predicate Unclaimed(id: ArtifactId, d: Draft) {
    d.claimed.None? || d.claimed.value in {"", id}
  }

  lemma CreateKeeps(s: Shelf, id: ArtifactId, d: Draft, now: int, writable: bool)
    requires Valid(s) && id !in s.records && id != "" && Free(id, '/') && Unclaimed(id, d)
    ensures var (r, raised) := Create(s, id, d, now, writable);
      && Valid(r) && (raised ==> r == s)
      && (forall x :: x in s.records ==> Content(r, x) == Content(s, x))
      && (!raised ==>
            && Content(r, id) == Some(d.content) && r.records == s.records[id := FirstRecord(id, d, now)]
            && r.byLineage == s.byLineage[id := [id]] && id !in s.byLineage)
  {
    hide Valid, Content, Free, Stored;
    var (r, raised) := Create(s, id, d, now, writable);
    if !raised {
      NewLineage(s, id);
      NotListed(s, id, id);
      assert Listed(s.byLineage, id) + [id] == [id];
      StoredKeeps(s, FirstRecord(id, d, now), d.content);
      StoredAt(s, FirstRecord(id, d, now), d.content);
    }
  }

  lemma NewLineage(s: Shelf, id: ArtifactId)
    requires Valid(s) && id !in s.records && id != "" && Free(id, '/')
    ensures id !in s.byLineage && OpenChain(s, id)
  {
    if id in s.byLineage {
      LineageIsAnId(s, id);
    }
  }

  lemma StoredAt(s: Shelf, r: Record, content: Bytes)
    requires r.id !in Listed(s.byLineage, r.Lineage())
    ensures var s' := Stored(s, r, content);
      && s'.records == s.records[r.id := r]
      && s'.byLineage == s.byLineage[r.Lineage() := Listed(s.byLineage, r.Lineage()) + [r.id]]
  {}

  /** An active version is the last of its lineage. */
  lemma ActiveIsLast(s: Shelf, id: ArtifactId)
    requires Chains(s) && IsActive(s, id)
    ensures var l := s.records[id].Lineage();
      l in s.byLineage && ChainOk(s.records, l, s.byLineage[l]) && s.byLineage[l][|s.byLineage[l]| - 1] == id
        && s.records[id].version == |s.byLineage[l]|
  {
    var l := s.records[id].Lineage();
    assert ChainOk(s.records, l, s.byLineage[l]);
    var i :| 0 <= i < |s.byLineage[l]| && s.byLineage[l][i] == id;
  }

  lemma RestatusKeeps(s: Shelf, id: ArtifactId, r: Record)
    requires Valid(s) && IsActive(s, id)
    requires r == s.records[id].(status := r.status, updated := r.updated)
    ensures var s' := s.(records := s.records[id := r]);
      && Valid(s') && forall x :: x in s.records ==> Content(s', x) == Content(s, x)
  {
    ValidParts(s);
    hide Valid, Location, Exact, Chains, Ordered, Content;
    var s' := s.(records := s.records[id := r]);
    RestatusBlobs(s, id, r);
    RestatusChains(s, id, r);
    RestatusIndexes(s, id, r);
    RestatusOrdered(s, id, r);
    ValidIs(s');
  }

  lemma RestatusIndexes(s: Shelf, id: ArtifactId, r: Record)
    requires id in s.records && r.goal == s.records[id].goal && r.kind == s.records[id].kind
    requires Exact(s.byGoal, s.records, GoalOf) && Exact(s.byType, s.records, TypeOf)
    ensures Exact(s.byGoal, s.records[id := r], GoalOf) && Exact(s.byType, s.records[id := r], TypeOf)
  {
    hide Exact;
    SameKeysExact(s.byGoal, s.records, s.records[id := r], GoalOf);
    SameKeysExact(s.byType, s.records, s.records[id := r], TypeOf);
  }

  lemma RestatusBlobs(s: Shelf, id: ArtifactId, r: Record)
    requires id in s.records && r == s.records[id].(status := r.status, updated := r.updated)
    requires forall x :: x in s.records ==> Location(s.records[x]) in s.blobs
    ensures var s' := s.(records := s.records[id := r]);
      forall x :: x in s.records ==> Location(s'.records[x]) in s'.blobs && Content(s', x) == Content(s, x)
  {
    hide Location;
    var s' := s.(records := s.records[id := r]);
    forall x | x in s.records ensures Location(s'.records[x]) in s'.blobs && Content(s', x) == Content(s, x) {
      SameLocation(s.records[x], s'.records[x]);
    }
  }

  lemma RestatusOrdered(s: Shelf, id: ArtifactId, r: Record)
    requires Ordered(s) && id in s.records && r.id == s.records[id].id
    ensures Ordered(s.(records := s.records[id := r]))
  {}

  lemma RestatusChains(s: Shelf, id: ArtifactId, r: Record)
    requires Chains(s) && IsActive(s, id)
    requires r == s.records[id].(status := r.status, updated := r.updated)
    ensures Chains(s.(records := s.records[id := r]))
  {
    hide ChainOk;
    var s' := s.(records := s.records[id := r]);
    forall l | l in s'.byLineage ensures ChainOk(s'.records, l, s'.byLineage[l]) {
      RestatusChain(s, id, r, l);
    }
  }

  lemma SameLocation(r: Record, r': Record)
    requires r' == r.(status := r'.status, updated := r'.updated)
    ensures Location(r') == Location(r) && r'.Lineage() == r.Lineage()
  {}

  lemma RestatusChain(s: Shelf, id: ArtifactId, r: Record, l: string)
    requires Chains(s) && IsActive(s, id) && l in s.byLineage
    requires r == s.records[id].(status := r.status, updated := r.updated)
    ensures ChainOk(s.records[id := r], l, s.byLineage[l])
  {
    hide Free;
    assert ChainOk(s.records, l, s.byLineage[l]);
    ActiveIsLast(s, id);
  }

  lemma SupersedingOpens(s: Shelf, id: ArtifactId)
    requires Valid(s) && IsActive(s, id)
    ensures var s1 := WithStatus(s, id, Superseded);
      && OpenChain(s1, s.records[id].Lineage()) && s.records[id].Lineage() in s1.byLineage
      && s.records[id].version == |Listed(s1.byLineage, s.records[id].Lineage())|
  {
    hide Free, Exact, Location;
    ActiveIsLast(s, id);
    var l := s.records[id].Lineage();
    RestatusChain(s, id, s.records[id].(status := Superseded), l);
    var s1 := WithStatus(s, id, Superseded);
    forall x | x in s1.byLineage[l] ensures s1.records[x].status == Superseded {
      var i :| 0 <= i < |s1.byLineage[l]| && s1.byLineage[l][i] == x;
    }
  }

  lemma UpdateKeeps(s: Shelf, id: ArtifactId, newId: ArtifactId, c: Change, now: int, writable: bool)
    requires Valid(s) && newId !in s.records
    ensures var (r, raised) := Update(s, id, newId, c, now, writable);
      && Valid(r)
      && (forall x :: x in s.records ==> Content(r, x) == Content(s, x))
      && (!raised ==>
            && IsActive(s, id) && Content(r, newId) == Some(c.content)
            && var l := s.records[id].Lineage();
               && l in s.byLineage && r.byLineage == s.byLineage[l := s.byLineage[l] + [newId]]
               && r.records == s.records[id := s.records[id].(status := Superseded)][newId :=
                    NextRecord(s.records[id], newId, c, now)]
               && NextRecord(s.records[id], newId, c, now).Lineage() == l)
  {
    hide Valid, Content, Stored, OpenChain;
    if IsActive(s, id) {
      var current := s.records[id];
      var s1 := WithStatus(s, id, Superseded);
      RestatusKeeps(s, id, current.(status := Superseded));
      SupersedingOpens(s, id);
      if writable {
        var r := NextRecord(current, newId, c, now);
        NextLineage(s, id, newId, c, now);
        StoredKeeps(s1, r, c.content);
        NotListed(s1, newId, r.Lineage());
        StoredAt(s1, r, c.content);
      }
    }
  }

  lemma NextLineage(s: Shelf, id: ArtifactId, newId: ArtifactId, c: Change, now: int)
    requires Valid(s) && id in s.records
    ensures NextRecord(s.records[id], newId, c, now).Lineage() == s.records[id].Lineage()
  {
    var l := s.records[id].Lineage();
    assert ChainOk(s.records, l, s.byLineage[l]);
    assert s.records[s.byLineage[l][0]].version == 1;
  }

  lemma NotListed(s: Shelf, id: ArtifactId, l: string)
    requires Valid(s) && id !in s.records
    ensures id !in Listed(s.byLineage, l)
  {
    if l in s.byLineage {
      assert ChainOk(s.records, l, s.byLineage[l]);
    }
  }

  lemma DeleteKeeps(s: Shelf, id: ArtifactId, now: int)
    requires Valid(s)
    ensures var (r, raised) := Delete(s, id, now);
      && Valid(r) && (forall x :: x in s.records ==> Content(r, x) == Content(s, x))
      && (raised <==> !IsActive(s, id)) && (raised ==> r == s)
      && (!raised ==> r == s.(records := s.records[id := s.records[id].(status := Deleted, updated := now)]))
  {
    hide Valid, Content;
    if IsActive(s, id) {
      RestatusKeeps(s, id, s.records[id].(status := Deleted, updated := now));
    }
  }

  // ------------------------------------------------------------------
  // Every run
  // ------------------------------------------------------------------

  datatype Op =
    | DoCreate(id: ArtifactId, draft: Draft, now: int, writable: bool)
    | DoUpdate(id: ArtifactId, newId: ArtifactId, change: Change, now: int, writable: bool)
    | DoDelete(id: ArtifactId, now: int)

  function Apply(s: Shelf, op: Op): (Shelf, bool) {
    match op
    case DoCreate(id, draft, now, writable) => Create(s, id, draft, now, writable)
    case DoUpdate(id, newId, change, now, writable) => Update(s, id, newId, change, now, writable)
    case DoDelete(id, now) => Delete(s, id, now)
  }

  /** New ids are new UUIDs, and no caller claims the lineage of another artifact. */
  ghost predicate Clean(s: Shelf, op: Op) {
    match op
    case DoCreate(id, draft, _, _) => id !in s.records && id != "" && Free(id, '/') && Unclaimed(id, draft)
    case DoUpdate(_, newId, _, _, _) => newId !in s.records
    case DoDelete(_, _) => true
  }

  ghost predicate CleanRun(s: Shelf, ops: seq<Op>)
    decreases ops
  {
    ops == [] || (Clean(s, ops[0]) && CleanRun(Apply(s, ops[0]).0, ops[1..]))
  }

  function After(s: Shelf, ops: seq<Op>): Shelf
    decreases ops
  {
    if ops == [] then s else After(Apply(s, ops[0]).0, ops[1..])
  }

  lemma StepKeeps(s: Shelf, op: Op)
    requires Valid(s) && Clean(s, op)
    ensures var r := Apply(s, op).0;
      Valid(r) && forall x :: x in s.records ==> x in r.records && Content(r, x) == Content(s, x)
  {
    ContentsKnown(s);
    hide Valid, Create, Update, Delete;
    match op {
      case DoCreate(id, draft, now, writable) => CreateKeeps(s, id, draft, now, writable);
      case DoUpdate(id, newId, change, now, writable) => UpdateKeeps(s, id, newId, change, now, writable);
      case DoDelete(id, now) => DeleteKeeps(s, id, now);
    }
  }

  lemma ContentsKnown(s: Shelf)
    requires Valid(s)
    ensures forall x :: x in s.records ==> Content(s, x).Some?
  {
    hide Location;
  }

  /** Over any clean run, also one in which blobs fail to be written, the lineages stay linear, the
      indexes exact, and the bytes of every existing version what they were. */
  lemma {:induction false} CleanRunKeeps(s: Shelf, ops: seq<Op>)
    requires Valid(s) && CleanRun(s, ops)
    ensures var r := After(s, ops);
      Valid(r) && forall x :: x in s.records ==> x in r.records && Content(r, x) == Content(s, x)
    decreases ops
  {
    hide Valid, Apply, Content, Clean;
    if ops != [] {
      StepKeeps(s, ops[0]);
      CleanRunKeeps(Apply(s, ops[0]).0, ops[1..]);
    }
  }

  // ------------------------------------------------------------------
  // The end of a lineage
  // ------------------------------------------------------------------

  /** The last version of every lineage is ACTIVE or DELETED. */
  ghost predicate Ends(s: Shelf) {
    forall l :: l in s.byLineage ==> LastStatus(s, l) in {Some(Active), Some(Deleted)}
  }

  function LastStatus(s: Shelf, l: string): Option<Status> {
    var ids := Listed(s.byLineage, l);
    if ids != [] && ids[|ids| - 1] in s.records then Some(s.records[ids[|ids| - 1]].status) else None
  }

  /** An update whose blob cannot be written has superseded the active version already. */
  predicate LosesVersion(s: Shelf, op: Op) {
    op.DoUpdate? && IsActive(s, op.id) && !op.writable
  }

  /** Creating keeps every end; so does deleting; updating does unless the write fails. */
  lemma StepEnds(s: Shelf, op: Op)
    requires Valid(s) && Clean(s, op) && Ends(s)
    ensures Ends(Apply(s, op).0) <==> !LosesVersion(s, op)
  {
    hide Valid, Ends, Create, Update, Delete;
    match op {
      case DoCreate(id, draft, now, writable) => CreateEnds(s, id, draft, now, writable);
      case DoUpdate(id, newId, change, now, writable) => UpdateEnds(s, id, newId, change, now, writable);
      case DoDelete(id, now) => DeleteEnds(s, id, now);
    }
  }

  lemma StoredLast(s: Shelf, r: Record, content: Bytes, l: string)
    requires Valid(s) && r.id !in s.records
    ensures var s' := Stored(s, r, content);
      && (l in s'.byLineage <==> l in s.byLineage || l == r.Lineage())
      && LastStatus(s', l) == if l == r.Lineage() then Some(r.status) else LastStatus(s, l)
  {
    KnownIds(s);
    NotListed(s, r.id, r.Lineage());
    StoredAt(s, r, content);
    hide Valid, Stored, LastStatus;
    AppendedLast(s, Stored(s, r, content), r.Lineage(), r, l);
  }

  lemma AppendedLast(s: Shelf, s': Shelf, own: string, r: Record, l: string)
    requires s'.records == s.records[r.id := r] && s'.byLineage == s.byLineage[own := Listed(s.byLineage, own) + [r.id]]
    requires r.id !in s.records && forall k, id :: k in s.byLineage && id in s.byLineage[k] ==> id in s.records
    ensures LastStatus(s', l) == if l == own then Some(r.status) else LastStatus(s, l)
  {
    if l != own && l in s.byLineage && s.byLineage[l] != [] {
      var last := s.byLineage[l][|s.byLineage[l]| - 1];
      assert last in s.byLineage[l];
    }
  }

  lemma RestatusLast(s: Shelf, id: ArtifactId, r: Record, l: string)
    requires Valid(s) && IsActive(s, id) && r.Lineage() == s.records[id].Lineage()
    ensures var s' := s.(records := s.records[id := r]);
      LastStatus(s', l) == if l == r.Lineage() then Some(r.status) else LastStatus(s, l)
    ensures s.records[id].Lineage() in s.byLineage
  {
    hide Valid, IsActive;
    KnownIds(s);
    LastIs(s, id);
    var lineage := s.records[id].Lineage();
    if l != lineage && l in s.byLineage && s.byLineage[l] != [] {
      assert s.byLineage[l][|s.byLineage[l]| - 1] in s.byLineage[l];
    }
  }

  lemma LastIs(s: Shelf, id: ArtifactId)
    requires Valid(s) && IsActive(s, id)
    ensures var l := s.records[id].Lineage();
      l in s.byLineage && s.byLineage[l] != [] && s.byLineage[l][|s.byLineage[l]| - 1] == id
  {
    hide Location, Exact, Ordered;
    ActiveIsLast(s, id);
  }

  lemma KnownIds(s: Shelf)
    requires Valid(s)
    ensures forall l, id :: l in s.byLineage && id in s.byLineage[l] ==> id in s.records && s.records[id].Lineage() == l
  {
    hide Location, Free, Exact;
    forall l, id | l in s.byLineage && id in s.byLineage[l] ensures id in s.records && s.records[id].Lineage() == l {
      assert ChainOk(s.records, l, s.byLineage[l]);
    }
  }

  lemma CreateEnds(s: Shelf, id: ArtifactId, d: Draft, now: int, writable: bool)
    requires Valid(s) && Ends(s) && id !in s.records && id != "" && Free(id, '/') && Unclaimed(id, d)
    ensures Ends(Create(s, id, d, now, writable).0)
  {
    hide Valid, LastStatus, Stored, Free;
    var (r, raised) := Create(s, id, d, now, writable);
    if !raised {
      forall l | l in r.byLineage ensures LastStatus(r, l) in {Some(Active), Some(Deleted)} {
        StoredLast(s, FirstRecord(id, d, now), d.content, l);
      }
    }
  }

  lemma DeleteEnds(s: Shelf, id: ArtifactId, now: int)
    requires Valid(s) && Ends(s)
    ensures Ends(Delete(s, id, now).0)
  {
    hide Valid, LastStatus;
    if IsActive(s, id) {
      var r := Delete(s, id, now).0;
      forall l | l in r.byLineage ensures LastStatus(r, l) in {Some(Active), Some(Deleted)} {
        RestatusLast(s, id, r.records[id], l);
      }
    }
  }

  lemma UpdateEnds(s: Shelf, id: ArtifactId, newId: ArtifactId, c: Change, now: int, writable: bool)
    requires Valid(s) && Ends(s) && newId !in s.records
    ensures Ends(Update(s, id, newId, c, now, writable).0) <==> !(IsActive(s, id) && !writable)
  {
    hide Valid, LastStatus, Stored, Content;
    if IsActive(s, id) {
      var current := s.records[id];
      var s1 := WithStatus(s, id, Superseded);
      var r := Update(s, id, newId, c, now, writable).0;
      RestatusKeeps(s, id, current.(status := Superseded));
      RestatusLast(s, id, current.(status := Superseded), current.Lineage());
      NextLineage(s, id, newId, c, now);
      if writable {
        forall l | l in r.byLineage ensures LastStatus(r, l) in {Some(Active), Some(Deleted)} {
          RestatusLast(s, id, current.(status := Superseded), l);
          StoredLast(s1, NextRecord(current, newId, c, now), c.content, l);
        }
      }
    }
  }

  ghost predicate LosesNothing(s: Shelf, ops: seq<Op>)
    decreases ops
  {
    ops == [] || (!LosesVersion(s, ops[0]) && LosesNothing(Apply(s, ops[0]).0, ops[1..]))
  }

  lemma {:induction false} RunEnds(s: Shelf, ops: seq<Op>)
    requires Valid(s) && CleanRun(s, ops) && Ends(s) && LosesNothing(s, ops)
    ensures Ends(After(s, ops))
    decreases ops
  {
    hide Valid, Apply, Ends, Clean, LosesVersion;
    if ops != [] {
      StepKeeps(s, ops[0]);
      StepEnds(s, ops[0]);
      RunEnds(Apply(s, ops[0]).0, ops[1..]);
    }
  }

  lemma EmptyIsValid()
    ensures Valid(EmptyShelf) && Ends(EmptyShelf)
  {}

  /** Over every run the versions of a lineage are exactly 1, 2, ..., n in index order, all but
      the last SUPERSEDED; the last is ACTIVE or DELETED if no update lost its write. */
  lemma LinearVersions(ops: seq<Op>, l: string, i: nat)
    requires CleanRun(EmptyShelf, ops)
    requires l in After(EmptyShelf, ops).byLineage && i < |After(EmptyShelf, ops).byLineage[l]|
    ensures var s := After(EmptyShelf, ops);
      var ids := s.byLineage[l];
      && ids[i] in s.records && s.records[ids[i]].version == i + 1 && s.records[ids[i]].Lineage() == l == ids[0]
      && (i < |ids| - 1 ==> s.records[ids[i]].status == Superseded)
      && (i == |ids| - 1 && LosesNothing(EmptyShelf, ops) ==> s.records[ids[i]].status in {Active, Deleted})
  {
    hide CleanRun, LosesNothing, After, Valid, Ends;
    EmptyIsValid();
    CleanRunKeeps(EmptyShelf, ops);
    ChainAt(After(EmptyShelf, ops), l, i);
    if LosesNothing(EmptyShelf, ops) {
      RunEnds(EmptyShelf, ops);
      LastEnds(After(EmptyShelf, ops), l);
    }
  }

  lemma LastEnds(s: Shelf, l: string)
    requires Ends(s) && l in s.byLineage
    ensures var ids := s.byLineage[l];
      ids != [] && ids[|ids| - 1] in s.records && s.records[ids[|ids| - 1]].status in {Active, Deleted}
  {}

  lemma ChainAt(s: Shelf, l: string, i: nat)
    requires Valid(s) && l in s.byLineage && i < |s.byLineage[l]|
    ensures var ids := s.byLineage[l];
      && ids[i] in s.records && s.records[ids[i]].version == i + 1 && s.records[ids[i]].Lineage() == l == ids[0]
      && (i < |ids| - 1 ==> s.records[ids[i]].status == Superseded)
  {
    hide Location, Exact, Ordered;
    assert ChainOk(s.records, l, s.byLineage[l]);
  }

  // ------------------------------------------------------------------
  // Reading
  // ------------------------------------------------------------------

  /** The first record among `ids` with the version. */
  function WithVersion(s: Shelf, ids: seq<ArtifactId>, version: int): Option<ArtifactId> {
    if ids == [] then None
    else if ids[0] in s.records && s.records[ids[0]].version == version then Some(ids[0])
    else WithVersion(s, ids[1..], version)
  }

  /** `get`. */
  function Lookup(s: Shelf, id: ArtifactId, version: Option<int>): Option<ArtifactId> {
    if id !in s.records then None
    else if version.None? then Some(id)
    else WithVersion(s, Listed(s.byLineage, s.records[id].Lineage()), version.value)
  }

  lemma {:induction false} VersionAt(s: Shelf, ids: seq<ArtifactId>, from: nat, version: int)
    requires forall i :: 0 <= i < |ids| ==> ids[i] in s.records && s.records[ids[i]].version == from + i
    ensures WithVersion(s, ids, version) == if from <= version < from + |ids| then Some(ids[version - from]) else None
  {
    if ids != [] {
      VersionAt(s, ids[1..], from + 1, version);
    }
  }

  /** From any id of a lineage, `get` finds the same record: the version's own, if there is one. */
  lemma SameFromAnyId(s: Shelf, id: ArtifactId, id': ArtifactId, version: int)
    requires Valid(s) && id in s.records && id' in s.records && s.records[id].Lineage() == s.records[id'].Lineage()
    ensures var ids := s.byLineage[s.records[id].Lineage()];
      && Lookup(s, id, Some(version)) == Lookup(s, id', Some(version))
      && Lookup(s, id, Some(version)) == if 1 <= version <= |ids| then Some(ids[version - 1]) else None
  {
    hide Location, Exact, Ordered;
    var l := s.records[id].Lineage();
    assert ChainOk(s.records, l, s.byLineage[l]);
    hide Chains;
    VersionAt(s, s.byLineage[l], 1, version);
  }

  /** A record is found under its own lineage and version. */
  lemma OwnVersion(s: Shelf, id: ArtifactId)
    requires Valid(s) && id in s.records
    ensures Lookup(s, id, Some(s.records[id].version)) == Some(id)
  {
    SameFromAnyId(s, id, id, s.records[id].version);
    hide Location, Exact, Ordered;
    var l := s.records[id].Lineage();
    assert ChainOk(s.records, l, s.byLineage[l]);
    var i :| 0 <= i < |s.byLineage[l]| && s.byLineage[l][i] == id;
  }

  /** At most one record of a lineage is active: the last. */
  lemma OneActive(s: Shelf, id: ArtifactId, id': ArtifactId)
    requires Valid(s) && IsActive(s, id) && IsActive(s, id') && s.records[id].Lineage() == s.records[id'].Lineage()
    ensures id == id'
  {
    assert Chains(s);
    hide Chains, Ordered, Exact;
    ActiveIsLast(s, id);
    ActiveIsLast(s, id');
  }
}
