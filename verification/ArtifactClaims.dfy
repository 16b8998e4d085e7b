/** Immutable history in full: which operation changes the bytes of an existing version, and what
    a lineage id in the caller's provenance does to the shelf. */
module ArtifactClaims {
  import opened Common
  import opened Text
  import opened Artifacts

  /** Every record has its blob; nothing is said about lineages. */
  ghost predicate Stocked(s: Shelf) {
    forall id :: id in s.records ==> Location(s.records[id]) in s.blobs
  }

  /** New ids are new. */
  ghost predicate NewIds(s: Shelf, op: Op) {
    match op
    case DoCreate(id, _, _, _) => id !in s.records
    case DoUpdate(_, newId, _, _, _) => newId !in s.records
    case DoDelete(_, _) => true
  }

  /** The record that an operation writes a blob for. */
  function Written(s: Shelf, op: Op): Option<Record> {
    match op
    case DoCreate(id, d, now, writable) =>
      if Strip(d.name) == "" || Strip(d.kind) == "" || !writable then None else Some(FirstRecord(id, d, now))
    case DoUpdate(id, newId, c, now, writable) =>
      if !IsActive(s, id) || !writable then None else Some(NextRecord(s.records[id], newId, c, now))
    case DoDelete(_, _) => None
  }

  function NewBytes(op: Op): Bytes {
    match op
    case DoCreate(_, d, _, _) => d.content
    case DoUpdate(_, _, c, _, _) => c.content
    case DoDelete(_, _) => []
  }

  /** Two records whose blobs lie under the same space and lineage, with the same version and the
      same file name. */
  predicate SamePlace(x: Record, r: Record) {
    && x.space + "/" + x.Lineage() == r.space + "/" + r.Lineage()
    && x.version == r.version && SafeFilename(x.name) == SafeFilename(r.name)
  }

  /** The guard: an existing record lies where the new one goes, and holds other bytes. */
  ghost predicate Overwrites(s: Shelf, op: Op) {
    && Written(s, op).Some?
    && exists x :: x in s.records && SamePlace(s.records[x], Written(s, op).value)
         && Content(s, x) != Some(NewBytes(op))
  }

  ghost predicate KeepsBytes(s: Shelf, r: Shelf) {
    forall x :: x in s.records ==> x in r.records && Content(r, x) == Content(s, x)
  }

  lemma SamePlaceIsSameLocation(x: Record, r: Record)
    ensures Location(x) == Location(r) <==> SamePlace(x, r)
  {
    var l, l' := x.space + "/" + x.Lineage(), r.space + "/" + r.Lineage();
    var v, v' := "v" + Decimal(x.version), "v" + Decimal(r.version);
    var f, f' := SafeFilename(x.name), SafeFilename(r.name);
    assert Location(x) == l + "/" + v + "/" + f && Location(r) == l' + "/" + v' + "/" + f';
    SafeFilenameFree(x.name);
    SafeFilenameFree(r.name);
    VersionFree(x.version);
    VersionFree(r.version);
    hide SafeFilename, Decimal, Free, Location;
    if Location(x) == Location(r) {
      LastPart(l + "/" + v, f, l' + "/" + v', f', '/');
      LastPart(l, v, l', v', '/');
      assert Decimal(x.version) == v[1..] && Decimal(r.version) == v'[1..];
      DecimalInjective(x.version, r.version);
    }
  }

  /** `r` has the records of `s`, some with another status or time, and the written one, if any,
      with its blob. */
  ghost predicate Adds(s: Shelf, r: Shelf, written: Option<Record>, bytes: Bytes) {
    && (forall x :: x in s.records ==>
          && x in r.records
          && r.records[x] == s.records[x].(status := r.records[x].status, updated := r.records[x].updated))
    && (forall x :: x in r.records && x !in s.records ==> written.Some? && r.records[x] == written.value)
    && r.blobs == if written.Some? then s.blobs[Location(written.value) := bytes] else s.blobs
  }

  lemma StoredAdds(s: Shelf, s1: Shelf, r: Record, content: Bytes)
    requires Adds(s, s1, None, []) && r.id !in s1.records
    ensures Adds(s, Stored(s1, r, content), Some(r), content)
  {
    hide Location, AddTo;
  }

  lemma NothingAdded(s: Shelf)
    ensures Adds(s, s, None, [])
  {}

  lemma RestatusAdds(s: Shelf, id: ArtifactId, r: Record)
    requires id in s.records && r == s.records[id].(status := r.status, updated := r.updated)
    ensures Adds(s, s.(records := s.records[id := r]), None, [])
  {}

  /** What an operation does to records and blobs. */
  lemma Effect(s: Shelf, op: Op)
    requires NewIds(s, op)
    ensures Adds(s, Apply(s, op).0, Written(s, op), if Written(s, op).Some? then NewBytes(op) else [])
  {
    hide Adds, Stored, Strip;
    NothingAdded(s);
    match op {
      case DoCreate(id, d, now, writable) => StoredAdds(s, s, FirstRecord(id, d, now), d.content);
      case DoUpdate(id, newId, c, now, writable) =>
        if IsActive(s, id) {
          RestatusAdds(s, id, s.records[id].(status := Superseded));
          StoredAdds(s, WithStatus(s, id, Superseded), NextRecord(s.records[id], newId, c, now), c.content);
        }
      case DoDelete(id, now) =>
        if IsActive(s, id) {
          RestatusAdds(s, id, s.records[id].(status := Deleted, updated := now));
        }
    }
  }

  lemma EffectOnContent(s: Shelf, op: Op, x: ArtifactId)
    requires NewIds(s, op) && x in s.records && Stocked(s)
    ensures var written := Written(s, op);
      && x in Apply(s, op).0.records
      && Content(Apply(s, op).0, x) ==
         if written.Some? && SamePlace(s.records[x], written.value) then Some(NewBytes(op)) else Content(s, x)
  {
    Effect(s, op);
    hide Location, Apply, Written, SamePlace;
    SameLocation(s.records[x], Apply(s, op).0.records[x]);
    if Written(s, op).Some? {
      SamePlaceIsSameLocation(s.records[x], Written(s, op).value);
    }
  }

  lemma StaysStocked(s: Shelf, op: Op)
    requires NewIds(s, op) && Stocked(s)
    ensures Stocked(Apply(s, op).0)
  {
    Effect(s, op);
    hide Location, Apply, Written;
    var r := Apply(s, op).0;
    forall x | x in r.records ensures Location(r.records[x]) in r.blobs {
      if x in s.records {
        SameLocation(s.records[x], r.records[x]);
      }
    }
  }

  /** An operation leaves the bytes of every existing version alone if and only if no existing
      record with other bytes lies where the new one goes. */
  lemma KeepsBytesExactlyWhen(s: Shelf, op: Op)
    requires Stocked(s) && NewIds(s, op)
    ensures KeepsBytes(s, Apply(s, op).0) <==> !Overwrites(s, op)
    ensures Stocked(Apply(s, op).0)
  {
    hide Apply, Written, SamePlace, Content, NewIds, Stocked;
    StaysStocked(s, op);
    forall x | x in s.records
      ensures x in Apply(s, op).0.records
      ensures Content(Apply(s, op).0, x) ==
        if Written(s, op).Some?
          && SamePlace(s.records[x], Written(s, op).value) then Some(NewBytes(op)) else Content(s, x)
    {
      EffectOnContent(s, op, x);
    }
  }

  /** A run with new ids in which no operation meets the guard. */
  ghost predicate GuardedRun(s: Shelf, ops: seq<Op>)
    decreases ops
  {
    ops == [] || (NewIds(s, ops[0]) && !Overwrites(s, ops[0]) && GuardedRun(Apply(s, ops[0]).0, ops[1..]))
  }

  /** Immutable history: over any run of create, update and delete, with whatever the callers
      claim and whichever writes fail, the bytes of every existing version stay what they were,
      as long as no operation meets the overwrite guard. */
  lemma {:induction false} HistoryIsImmutable(s: Shelf, ops: seq<Op>)
    requires Stocked(s) && GuardedRun(s, ops)
    ensures KeepsBytes(s, After(s, ops))
    decreases ops
  {
    hide Apply, Overwrites, NewIds, Stocked, Content;
    if ops != [] {
      KeepsBytesExactlyWhen(s, ops[0]);
      HistoryIsImmutable(Apply(s, ops[0]).0, ops[1..]);
    }
  }

  /** On a valid shelf an operation that claims nothing never meets the guard. */
  lemma CleanNeverOverwrites(s: Shelf, op: Op)
    requires Valid(s) && Clean(s, op)
    ensures NewIds(s, op) && Stocked(s) && !Overwrites(s, op)
  {
    hide Valid, Apply, Overwrites, Content, Location, Clean, NewIds, Stocked;
    CleanIsNew(s, op);
    ValidIsStocked(s);
    StepKeeps(s, op);
    KeepsBytesExactlyWhen(s, op);
  }

  lemma CleanIsNew(s: Shelf, op: Op)
    requires Clean(s, op)
    ensures NewIds(s, op)
  {
    hide Unclaimed, Free;
  }

  lemma ValidIsStocked(s: Shelf)
    requires Valid(s)
    ensures Stocked(s)
  {
    hide Chains, Ordered, Exact, Location;
  }

  lemma {:induction false} CleanRunIsGuarded(s: Shelf, ops: seq<Op>)
    requires Valid(s) && CleanRun(s, ops)
    ensures GuardedRun(s, ops)
    decreases ops
  {
    hide Valid, Apply, Overwrites, NewIds, Clean, Stocked;
    if ops != [] {
      CleanNeverOverwrites(s, ops[0]);
      StepKeeps(s, ops[0]);
      CleanRunIsGuarded(Apply(s, ops[0]).0, ops[1..]);
    }
  }

  // ------------------------------------------------------------------
  // Claimed lineages
  // ------------------------------------------------------------------

  lemma ChainNumbers(records: map<ArtifactId, Record>, l: string, ids: seq<ArtifactId>, i: nat)
    requires ChainOk(records, l, ids) && i < |ids|
    ensures ids[i] in records && records[ids[i]].version == i + 1 && records[ids[i]].Lineage() == l && ids[0] == l
      && Free(l, '/')
  {
    hide Free;
  }

  lemma MisnumberedChain(records: map<ArtifactId, Record>, l: string, ids: seq<ArtifactId>, i: nat)
    requires i < |ids| && ids[i] in records && records[ids[i]].version != i + 1
    ensures !ChainOk(records, l, ids)
  {}

  lemma MisnamedChain(records: map<ArtifactId, Record>, l: string, ids: seq<ArtifactId>)
    requires ids != [] && ids[0] != l
    ensures !ChainOk(records, l, ids)
  {}

  lemma BrokenChain(s: Shelf, l: string)
    requires l in s.byLineage && !ChainOk(s.records, l, s.byLineage[l])
    ensures !Valid(s)
  {}

  lemma CreatedAt(s: Shelf, id: ArtifactId, d: Draft, now: int)
    requires Valid(s) && id !in s.records && Strip(d.name) != "" && Strip(d.kind) != ""
    ensures var r := Create(s, id, d, now, true).0;
      var l := FirstRecord(id, d, now).Lineage();
      r.records == s.records[id := FirstRecord(id, d, now)]
        && r.byLineage == s.byLineage[l := Listed(s.byLineage, l) + [id]]
  {
    NotListed(s, id, FirstRecord(id, d, now).Lineage());
    StoredAt(s, FirstRecord(id, d, now), d.content);
    hide Valid, Stored;
  }

  /** Creating keeps the shelf valid if and only if the claimed lineage is empty or the new id
      itself. */
  lemma ClaimIsValidExactlyWhen(s: Shelf, id: ArtifactId, d: Draft, now: int)
    requires Valid(s) && id !in s.records && id != "" && Free(id, '/') && Strip(d.name) != "" && Strip(d.kind) != ""
    ensures Valid(Create(s, id, d, now, true).0) <==> Unclaimed(id, d)
  {
    hide Valid, Create, Free, Strip, ChainOk;
    if Unclaimed(id, d) {
      CreateKeeps(s, id, d, now, true);
    } else {
      var l := d.claimed.value;
      var r := Create(s, id, d, now, true).0;
      CreatedAt(s, id, d, now);
      if Listed(s.byLineage, l) == [] {
        MisnamedChain(r.records, l, r.byLineage[l]);
      } else {
        ListedChain(s, l);
        MisnumberedChain(r.records, l, r.byLineage[l], |Listed(s.byLineage, l)|);
      }
      BrokenChain(r, l);
    }
  }

  lemma ListedChain(s: Shelf, l: string)
    requires Valid(s) && l in s.byLineage
    ensures ChainOk(s.records, l, s.byLineage[l]) && s.byLineage[l] != []
  {}

  /** A claim on an existing lineage gives it a second version 1. */
  lemma ClaimedLineageBreaks(s: Shelf, id: ArtifactId, d: Draft, now: int)
    requires Valid(s) && id !in s.records && d.claimed.Some? && d.claimed.value in s.byLineage
    requires Strip(d.name) != "" && Strip(d.kind) != ""
    ensures var r := Create(s, id, d, now, true).0;
      var l := d.claimed.value;
      var n := |s.byLineage[l]|;
      && l in r.byLineage && 0 < n < |r.byLineage[l]|
      && r.byLineage[l][0] in r.records && r.records[r.byLineage[l][0]].version == 1
      && r.byLineage[l][n] in r.records && r.records[r.byLineage[l][n]].version == 1
      && r.byLineage[l][n] != r.byLineage[l][0]
      && !Valid(r)
  {
    hide Valid, Create, Free, Strip, ChainOk;
    var l := d.claimed.value;
    var n := |s.byLineage[l]|;
    var r := Create(s, id, d, now, true).0;
    ListedChain(s, l);
    ChainNumbers(s.records, l, s.byLineage[l], 0);
    ClaimIsNotEmpty(s, l);
    CreatedAt(s, id, d, now);
    assert r.byLineage[l] == s.byLineage[l] + [id];
    MisnumberedChain(r.records, l, r.byLineage[l], n);
    BrokenChain(r, l);
  }

  lemma ClaimIsNotEmpty(s: Shelf, l: string)
    requires Valid(s) && l in s.byLineage
    ensures l != ""
  {
    assert ChainOk(s.records, l, s.byLineage[l]);
  }

  /** The draft claims an existing lineage and goes, with other bytes, to the place of its first
      version. */
  predicate TakesFirstPlace(s: Shelf, d: Draft) {
    && d.claimed.Some? && d.claimed.value in s.byLineage && s.byLineage[d.claimed.value] != []
    && var first := s.byLineage[d.claimed.value][0];
       && first in s.records && s.records[first].space == d.space
       && SafeFilename(s.records[first].name) == SafeFilename(Strip(d.name))
       && Content(s, first) != Some(d.content)
  }

  /** On a valid shelf, for a claim that could be a UUID: creating changes bytes that exist if and
      only if the draft takes the place of a first version. */
  lemma ClaimOverwritesExactlyWhen(s: Shelf, id: ArtifactId, d: Draft, now: int)
    requires Valid(s) && id !in s.records && id != "" && Free(id, '/') && Strip(d.name) != "" && Strip(d.kind) != ""
    requires d.claimed.Some? ==> d.claimed.value != "" && Free(d.claimed.value, '/')
    ensures KeepsBytes(s, Create(s, id, d, now, true).0) <==> !TakesFirstPlace(s, d)
  {
    ValidParts(s);
    hide Valid, Create, Free, Strip, ChainOk, SafeFilename, Location, Content;
    var op := DoCreate(id, d, now, true);
    assert NewIds(s, op) && Apply(s, op).0 == Create(s, id, d, now, true).0;
    KeepsBytesExactlyWhen(s, op);
    var r := FirstRecord(id, d, now);
    assert Written(s, op) == Some(r);
    if Overwrites(s, op) {
      var x :| x in s.records && SamePlace(s.records[x], r) && Content(s, x) != Some(NewBytes(op));
      PlaceOfFirst(s, x, r);
      FirstTaken(s, id, d, now, x);
    }
    if TakesFirstPlace(s, d) {
      TakenOverwrites(s, id, d, now);
    }
  }

  /** With a slash-free lineage the place tells the space and the lineage apart. */
  lemma PlaceOfFirst(s: Shelf, x: ArtifactId, r: Record)
    requires Valid(s) && x in s.records && SamePlace(s.records[x], r) && Free(r.Lineage(), '/') && r.version == 1
    ensures s.records[x].space == r.space && s.records[x].Lineage() == r.Lineage()
    ensures r.Lineage() in s.byLineage && s.byLineage[r.Lineage()] != [] && s.byLineage[r.Lineage()][0] == x
  {
    hide SafeFilename, Location, Exact, Ordered;
    var l := s.records[x].Lineage();
    assert ChainOk(s.records, l, s.byLineage[l]);
    LastPart(s.records[x].space, l, r.space, r.Lineage(), '/');
    var i :| 0 <= i < |s.byLineage[l]| && s.byLineage[l][i] == x;
  }

  lemma FirstTaken(s: Shelf, id: ArtifactId, d: Draft, now: int, x: ArtifactId)
    requires Valid(s) && id !in s.records && x in s.records && Content(s, x) != Some(d.content)
    requires d.claimed.Some? ==> d.claimed.value != ""
    requires var r := FirstRecord(id, d, now);
      && SamePlace(s.records[x], r) && s.records[x].space == r.space
      && r.Lineage() in s.byLineage && s.byLineage[r.Lineage()] != [] && s.byLineage[r.Lineage()][0] == x
    ensures TakesFirstPlace(s, d)
  {
    hide Valid, SafeFilename, Content, Strip;
    if d.claimed.None? {
      assert FirstRecord(id, d, now).Lineage() == id;
      LineageOfSome(s, id);
    }
  }

  lemma LineageOfSome(s: Shelf, l: string)
    requires Valid(s) && l in s.byLineage
    ensures l in s.records
  {
    assert Chains(s);
    hide Valid;
    LineageIsAnId(s, l);
  }

  lemma TakenOverwrites(s: Shelf, id: ArtifactId, d: Draft, now: int)
    requires Valid(s) && TakesFirstPlace(s, d) && d.claimed.value != "" && Strip(d.name) != "" && Strip(d.kind) != ""
    ensures Overwrites(s, DoCreate(id, d, now, true))
  {
    var first := s.byLineage[d.claimed.value][0];
    ListedChain(s, d.claimed.value);
    ChainNumbers(s.records, d.claimed.value, s.byLineage[d.claimed.value], 0);
    hide Valid, SafeFilename, Content, Strip, ChainOk, Free;
    assert SamePlace(s.records[first], FirstRecord(id, d, now));
  }

  /** Two creates: the second claims the lineage of the first and replaces its bytes. */
  lemma ClaimReplacesBytes()
    ensures var s1 := Create(EmptyShelf, "a", Draft("f", "t", [1], None, "x", [], None), 0, true).0;
      var s2 := Create(s1, "b", Draft("f", "t", [2], None, "x", [], Some("a")), 0, true).0;
      && "a" in s1.records && "a" in s2.records
      && Content(s1, "a") == Some([1]) && Content(s2, "a") == Some([2])
  {
    hide Valid, Strip, Create, Content, SafeFilename, Location, SamePlace, Free, Written, Apply, Stocked;
    var d1, d2 := Draft("f", "t", [1], None, "x", [], None), Draft("f", "t", [2], None, "x", [], Some("a"));
    PlainTexts();
    EmptyIsValid();
    var s1 := Create(EmptyShelf, "a", d1, 0, true).0;
    CreateKeeps(EmptyShelf, "a", d1, 0, true);
    CreatesWhen(EmptyShelf, "a", d1, 0);
    assert s1.records == map["a" := FirstRecord("a", d1, 0)];
    ValidIsStocked(s1);
    var op := DoCreate("b", d2, 0, true);
    EffectOnContent(s1, op, "a");
    CreateWrites(s1, "b", d2, 0);
    SamePlaceOfTwo(d1, d2);
  }

  lemma PlainTexts()
    ensures Strip("f") == "f" && Strip("t") == "t" && Free("a", '/') && Free("b", '/')
  {}

  lemma CreateWrites(s: Shelf, id: ArtifactId, d: Draft, now: int)
    requires Strip(d.name) != "" && Strip(d.kind) != ""
    ensures Written(s, DoCreate(id, d, now, true)) == Some(FirstRecord(id, d, now))
    ensures Apply(s, DoCreate(id, d, now, true)) == Create(s, id, d, now, true)
  {
    hide Strip, FirstRecord, Create;
  }

  lemma SamePlaceOfTwo(d1: Draft, d2: Draft)
    requires d1.claimed == None && d2.claimed == Some("a") && d1.space == d2.space && d1.name == d2.name
    ensures SamePlace(FirstRecord("a", d1, 0), FirstRecord("b", d2, 0))
  {
    hide SafeFilename, Strip;
  }

  lemma CreatesWhen(s: Shelf, id: ArtifactId, d: Draft, now: int)
    requires Strip(d.name) != "" && Strip(d.kind) != ""
    ensures !Create(s, id, d, now, true).1
  {}
}
