/** The artifact service as it runs: records, index dictionaries and blobs changed in place, and
    the loops that read them. */
module ArtifactServices {
  import opened Common
  import opened Text
  import opened Artifacts

  datatype Exported = NotFound | ContentMissing | Exported(id: ArtifactId, content: Bytes)

  /** The filters of `search`; the query text is not modelled, `limit` is. */
  datatype Filter = Filter(
    status: Option<Status>,
    goal: Option<string>,
    space: Option<string>,
    kind: Option<string>,
    tags: seq<string>,
    latestOnly: bool,
    limit: nat)

  /** A linear scan's test: every filter read off the record itself. */
  predicate Passes(f: Filter, r: Record) {
    && (f.status.Some? ==> r.status == f.status.value)
    && (f.goal.Some? ==> r.goal == f.goal)
    && (f.space.Some? ==> r.space == f.space.value)
    && (f.kind.Some? ==> r.kind == Lower(Strip(f.kind.value)))
    && (forall t :: t in f.tags ==> Lower(Strip(t)) in r.tags)
  }

  ghost predicate Matches(s: Shelf, f: Filter, r: Record) {
    r.id in s.records && s.records[r.id] == r && Passes(f, r)
  }

  /** What `search` may show: a match and, if only the latest are wanted, the latest match of
      its lineage. */
  ghost predicate Shown(s: Shelf, f: Filter, r: Record) {
    && Matches(s, f, r)
    && (f.latestOnly ==> forall x :: Matches(s, f, x) && x.Lineage() == r.Lineage() ==> x.version <= r.version)
  }

  ghost predicate NewestFirst(rs: seq<Record>) {
    forall i, j :: 0 <= i < j < |rs| ==> rs[i].updated >= rs[j].updated
  }

  ghost predicate NoRepeats(rs: seq<Record>) {
    forall i, j :: 0 <= i < j < |rs| ==> rs[i].id != rs[j].id
  }

  /** What `export` gives: the record found, unless no version was asked for, it is not active,
      and its lineage still ends in an active version. */
  function ExportTarget(s: Shelf, id: ArtifactId, version: Option<int>): ArtifactId
    requires id in s.records
  {
    var l := s.records[id].Lineage();
    if version.None? && s.records[id].status != Active && LastStatus(s, l) == Some(Active)
      && Listed(s.byLineage, l) != []
    then Listed(s.byLineage, l)[|Listed(s.byLineage, l)| - 1] else id
  }

  class ArtifactService {
    var records: map<ArtifactId, Record>
    var order: seq<ArtifactId>
    var byGoal: Index
    var byType: Index
    var byLineage: Index
    var blobs: map<string, Bytes>

    function Model(): Shelf
      reads this
    {
      Shelf(records, order, byGoal, byType, byLineage, blobs)
    }

    constructor ()
      ensures Model() == EmptyShelf
    {
      records, order, byGoal, byType, byLineage, blobs := map[], [], map[], map[], map[], map[];
    }

    // ----------------------------------------------------------------
    // Mutations
    // ----------------------------------------------------------------

    method IndexRecord(r: Record)
      modifies this
      ensures Model() == Indexed(old(Model()), r)
    {
      if r.id !in records {
        order := order + [r.id];
      }
      records := records[r.id := r];
      if r.goal.Some? {
        byGoal := AddTo(byGoal, r.goal.value, r.id);
      }
      byType := AddTo(byType, r.kind, r.id);
      byLineage := AddTo(byLineage, r.Lineage(), r.id);
    }

    /** Writes the bytes, unless the file system refuses. */
    method WriteBlob(r: Record, content: Bytes, writable: bool) returns (ok: bool)
      modifies `blobs
      ensures ok == writable
      ensures Model() == if ok then old(Model()).(blobs := old(blobs)[Location(r) := content]) else old(Model())
    {
      if writable {
        blobs := blobs[Location(r) := content];
      }
      ok := writable;
    }

    method Create(id: ArtifactId, d: Draft, now: int, writable: bool) returns (raised: bool)
      modifies this
      ensures (Model(), raised) == Artifacts.Create(old(Model()), id, d, now, writable)
    {
      hide Location, Indexed;
      if Strip(d.name) == "" || Strip(d.kind) == "" {
        return true;
      }
      var r := FirstRecord(id, d, now);
      var ok := WriteBlob(r, d.content, writable);
      if !ok {
        return true;
      }
      IndexRecord(r);
      raised := false;
    }

    method Update(id: ArtifactId, newId: ArtifactId, c: Change, now: int, writable: bool) returns (raised: bool)
      modifies this
      ensures (Model(), raised) == Artifacts.Update(old(Model()), id, newId, c, now, writable)
    {
      hide Location, Indexed;
      if id !in records || records[id].status != Active {
        return true;
      }
      var current := records[id];
      records := records[id := current.(status := Superseded)];
      var r := NextRecord(current, newId, c, now);
      var ok := WriteBlob(r, c.content, writable);
      if !ok {
        return true;
      }
      IndexRecord(r);
      raised := false;
    }

    method Delete(id: ArtifactId, now: int) returns (raised: bool)
      modifies `records
      ensures (Model(), raised) == Artifacts.Delete(old(Model()), id, now)
    {
      if id !in records || records[id].status != Active {
        return true;
      }
      records := records[id := records[id].(status := Deleted, updated := now)];
      raised := false;
    }

    // ----------------------------------------------------------------
    // Reads
    // ----------------------------------------------------------------

    method Get(id: ArtifactId, version: Option<int>) returns (found: Option<ArtifactId>)
      ensures found == Lookup(Model(), id, version)
    {
      if id !in records {
        return None;
      }
      if version.None? {
        return Some(id);
      }
      var ids := Listed(byLineage, records[id].Lineage());
      var i := 0;
      while i < |ids|
        invariant 0 <= i <= |ids|
        invariant WithVersion(Model(), ids[i..], version.value) == WithVersion(Model(), ids, version.value)
      {
        assert ids[i..][0] == ids[i] && ids[i..][1..] == ids[i + 1..];
        if ids[i] in records && records[ids[i]].version == version.value {
          return Some(ids[i]);
        }
        i := i + 1;
      }
      found := None;
    }

    /** The bytes of the version asked for; there always are some. */
    method ReadContent(id: ArtifactId, version: Option<int>) returns (content: Option<Bytes>)
      requires Valid(Model())
      ensures var found := Lookup(Model(), id, version);
        content == if found.Some? then Content(Model(), found.value) else None
      ensures id in records && (version.None? || 1 <= version.value <= |Listed(byLineage, records[id].Lineage())|) ==>
        content.Some?
    {
      hide Valid, Lookup, Location;
      LookupKnown(Model(), id, version);
      ContentsKnown(Model());
      var found := Get(id, version);
      if found.None? {
        return None;
      }
      var path := Location(records[found.value]);
      if path !in blobs {
        return None;
      }
      content := Some(blobs[path]);
    }

    /** All versions of a lineage, from any of its ids, oldest first. */
    method Versions(id: ArtifactId) returns (ids: seq<ArtifactId>)
      requires Valid(Model())
      ensures id !in records ==> ids == []
      ensures id in records ==> AllVersions(Model(), records[id].Lineage(), ids)
    {
      hide Valid, AllVersions;
      if id !in records {
        return [];
      }
      LineageListed(Model(), id);
      var listed := Listed(byLineage, records[id].Lineage());
      ids := [];
      var i := 0;
      while i < |listed|
        invariant 0 <= i <= |listed| && ids == listed[..i]
      {
        if listed[i] in records {
          ids := ids + [listed[i]];
        }
        i := i + 1;
      }
      // The index is in version order, so sorting by version changes nothing.
      assert ids == listed;
    }

    method GreatestVersion(rs: seq<Record>) returns (r: Record)
      requires rs != []
      ensures r in rs && forall x :: x in rs ==> x.version <= r.version
    {
      r := rs[0];
      var i := 1;
      while i < |rs|
        invariant 1 <= i <= |rs| && r in rs && forall x :: x in rs[..i] ==> x.version <= r.version
      {
        if rs[i].version > r.version {
          r := rs[i];
        }
        i := i + 1;
      }
      assert rs[..i] == rs;
    }

    method ActiveInLineage(l: string) returns (found: Option<ArtifactId>)
      requires Valid(Model())
      ensures found == if LastStatus(Model(), l) == Some(Active)
        then Some(Listed(byLineage, l)[|Listed(byLineage, l)| - 1]) else None
    {
      hide Valid, LastStatus;
      OnlyLastActive(Model(), l);
      var ids := Listed(byLineage, l);
      var candidates: seq<Record> := [];
      var i := 0;
      while i < |ids|
        invariant 0 <= i <= |ids|
        invariant candidates == if i == |ids|
          && LastStatus(Model(), l) == Some(Active) then [records[ids[|ids| - 1]]] else []
      {
        if ids[i] in records && records[ids[i]].status == Active {
          candidates := candidates + [records[ids[i]]];
        }
        i := i + 1;
      }
      if candidates == [] {
        return None;
      }
      var r := GreatestVersion(candidates);
      found := Some(r.id);
    }

    method Export(id: ArtifactId, version: Option<int>) returns (out: Exported)
      requires Valid(Model())
      ensures var found := Lookup(Model(), id, version);
        out == if found.None? then NotFound
        else if found.value !in records then ContentMissing
        else var target := ExportTarget(Model(), found.value, version);
          if Content(Model(), target).Some? then Exported(target, Content(Model(), target).value) else ContentMissing
      ensures out != ContentMissing
    {
      hide Valid, Lookup, Content, Location;
      var found := Get(id, version);
      if found.None? {
        return NotFound;
      }
      LookupKnown(Model(), id, version);
      ContentsKnown(Model());
      var target := found.value;
      if version.None? && records[target].status != Active {
        var resolved := ActiveInLineage(records[target].Lineage());
        LastIsKnown(Model(), records[target].Lineage());
        if resolved.Some? {
          target := resolved.value;
        }
      }
      OwnVersion(Model(), target);
      var content := ReadContent(target, Some(records[target].version));
      out := if content.Some? then Exported(target, content.value) else ContentMissing;
    }

    // ----------------------------------------------------------------
    // Search
    // ----------------------------------------------------------------

    /** The records that pass the filters; the goal filter goes through the goal index. */
    method Matching(f: Filter) returns (found: seq<Record>)
      requires Valid(Model())
      ensures NoRepeats(found) && forall r :: r in found <==> Matches(Model(), f, r)
    {
      hide Valid, Matches, Passes;
      MatchesAreOrdered(Model(), f);
      var inGoal := if f.goal.Some? then Listed(byGoal, f.goal.value) else [];
      var rest := f.(goal := None);
      found := [];
      var i := 0;
      while i < |order|
        invariant 0 <= i <= |order| && NoRepeats(found)
        invariant forall r :: r in found ==> r.id in order[..i] && Matches(Model(), f, r)
        invariant forall r: Record :: r.id in order[..i] && Matches(Model(), f, r) ==> r in found
      {
        var r := records[order[i]];
        MatchedByIndex(Model(), f, order[i]);
        assert order[..i + 1] == order[..i] + [order[i]];
        if Passes(rest, r) && (f.goal.None? || r.id in inGoal) {
          found := found + [r];
        }
        i := i + 1;
      }
      assert order[..i] == order;
    }

    /** The first record with the greatest version of each lineage. */
    method LatestVersions(rs: seq<Record>) returns (latest: seq<Record>)
      requires NoRepeats(rs)
      requires forall i, j :: 0 <= i < j < |rs| && rs[i].Lineage() == rs[j].Lineage() ==> rs[i].version != rs[j].version
      ensures NoRepeats(latest)
      ensures forall r :: r in latest <==>
        r in rs && forall x :: x in rs && x.Lineage() == r.Lineage() ==> x.version <= r.version
    {
      hide NoRepeats;
      var best: map<string, Record> := map[];
      var i := 0;
      while i < |rs|
        invariant 0 <= i <= |rs|
        invariant forall l :: l in best ==> best[l].Lineage() == l && best[l] in rs[..i]
        invariant forall x :: x in rs[..i] ==> x.Lineage() in best && x.version <= best[x.Lineage()].version
      {
        var r := rs[i];
        assert rs[..i + 1] == rs[..i] + [r];
        if r.Lineage() !in best || r.version > best[r.Lineage()].version {
          best := best[r.Lineage() := r];
        }
        i := i + 1;
      }
      assert rs[..i] == rs;
      latest := [];
      NothingRepeats();
      i := 0;
      while i < |rs|
        invariant 0 <= i <= |rs| && NoRepeats(latest)
        invariant forall r :: r in latest <==> r in rs[..i] && best[r.Lineage()] == r
      {
        assert rs[..i + 1] == rs[..i] + [rs[i]];
        if best[rs[i].Lineage()] == rs[i] {
          NewId(rs, i, latest);
          latest := latest + [rs[i]];
        }
        i := i + 1;
      }
      assert rs[..i] == rs;
      BestIsGreatest(rs, best);
    }

    method SortNewestFirst(rs: seq<Record>) returns (sorted: seq<Record>)
      requires NoRepeats(rs)
      ensures NewestFirst(sorted) && NoRepeats(sorted) && forall r :: r in sorted <==> r in rs
    {
      sorted := [];
      var i := 0;
      while i < |rs|
        invariant 0 <= i <= |rs| && NewestFirst(sorted) && NoRepeats(sorted)
        invariant forall r :: r in sorted <==> r in rs[..i]
      {
        assert rs[..i + 1] == rs[..i] + [rs[i]];
        NewId(rs, i, sorted);
        InsertFacts(sorted, rs[i]);
        sorted := InsertByTime(sorted, rs[i]);
        i := i + 1;
      }
      assert rs[..i] == rs;
    }

    /** `search`: at most `limit` of the records to be shown, newest first, and none left out is
        newer than one that is not. */
    method Search(f: Filter) returns (found: seq<Record>)
      requires Valid(Model())
      ensures |found| <= f.limit && NoRepeats(found) && NewestFirst(found)
      ensures forall r :: r in found ==> Shown(Model(), f, r)
      ensures forall r :: Shown(Model(), f, r) && r !in found ==> |found| == f.limit && forall x :: x in found ==>
        x.updated >= r.updated
    {
      hide Valid, Matches, Passes, NoRepeats, NewestFirst;
      var shown := Matching(f);
      if f.latestOnly {
        VersionsApart(Model(), f, shown);
        shown := LatestVersions(shown);
      }
      assert forall r :: r in shown <==> Shown(Model(), f, r);
      hide Shown;
      var sorted := SortNewestFirst(shown);
      found := if |sorted| <= f.limit then sorted else sorted[..f.limit];
      TakenIsNewest(sorted, found, f.limit);
    }
  }

  // ------------------------------------------------------------------
  // Facts
  // ------------------------------------------------------------------

  /** Behind everything that is as new. */
  function InsertByTime(rs: seq<Record>, r: Record): seq<Record> {
    if rs == [] || r.updated > rs[0].updated then [r] + rs else [rs[0]] + InsertByTime(rs[1..], r)
  }

  lemma {:induction false} InsertFacts(rs: seq<Record>, r: Record)
    requires NewestFirst(rs) && NoRepeats(rs) && forall x :: x in rs ==> x.id != r.id
    ensures NewestFirst(InsertByTime(rs, r)) && NoRepeats(InsertByTime(rs, r))
    ensures forall x :: x in InsertByTime(rs, r) <==> x in rs || x == r
  {
    if rs != [] && r.updated <= rs[0].updated {
      assert rs == [rs[0]] + rs[1..];
      InsertFacts(rs[1..], r);
      var more := InsertByTime(rs[1..], r);
      forall j | 0 <= j < |more| ensures rs[0].updated >= more[j].updated && rs[0].id != more[j].id {
        assert more[j] in more;
      }
    }
  }

  lemma NewId(rs: seq<Record>, i: nat, some: seq<Record>)
    requires NoRepeats(rs) && i < |rs| && forall r :: r in some ==> r in rs[..i]
    ensures forall r :: r in some ==> r.id != rs[i].id
    ensures NoRepeats(some) ==> NoRepeats(some + [rs[i]])
  {
    forall r | r in some ensures r.id != rs[i].id {
      var j :| 0 <= j < i && rs[j] == r;
    }
  }

  lemma TakenIsNewest(sorted: seq<Record>, found: seq<Record>, limit: nat)
    requires NewestFirst(sorted) && NoRepeats(sorted)
    requires found == if |sorted| <= limit then sorted else sorted[..limit]
    ensures NewestFirst(found) && NoRepeats(found) && |found| <= limit
    ensures forall r :: r in found ==> r in sorted
    ensures forall r :: r in sorted && r !in found ==> |found| == limit && forall x :: x in found ==>
      x.updated >= r.updated
  {
    forall r | r in sorted && r !in found
      ensures |found| == limit && forall x :: x in found ==> x.updated >= r.updated
    {
      var j :| 0 <= j < |sorted| && sorted[j] == r;
      assert j >= |found|;
      forall x | x in found ensures x.updated >= r.updated {
        var i :| 0 <= i < |found| && found[i] == x;
        assert sorted[i] == x;
      }
    }
  }

  lemma NothingRepeats()
    ensures NoRepeats([])
  {}

  lemma BestIsGreatest(rs: seq<Record>, best: map<string, Record>)
    requires NoRepeats(rs)
    requires forall i, j :: 0 <= i < j < |rs| && rs[i].Lineage() == rs[j].Lineage() ==> rs[i].version != rs[j].version
    requires forall l :: l in best ==> best[l].Lineage() == l && best[l] in rs
    requires forall x :: x in rs ==> x.Lineage() in best && x.version <= best[x.Lineage()].version
    ensures forall r :: r in rs ==>
      (best[r.Lineage()] == r <==> forall x :: x in rs && x.Lineage() == r.Lineage() ==> x.version <= r.version)
  {
    forall r | r in rs
      ensures best[r.Lineage()] == r <==> forall x :: x in rs && x.Lineage() == r.Lineage() ==> x.version <= r.version
    {
      var b := best[r.Lineage()];
      if b != r {
        var i :| 0 <= i < |rs| && rs[i] == r;
        var j :| 0 <= j < |rs| && rs[j] == b;
        assert b.version > r.version;
      }
    }
  }

  /** The goal index picks out the records a linear scan would. */
  lemma GoalIndexIsScan(s: Shelf)
    requires Valid(s)
    ensures forall g, id :: id in s.records ==> (id in Listed(s.byGoal, g) <==> s.records[id].goal == Some(g))
  {
    hide Chains, Ordered, Location;
    forall g, id | id in s.records ensures id in Listed(s.byGoal, g) <==> s.records[id].goal == Some(g) {
      assert GoalOf(s.records[id]) == s.records[id].goal;
    }
  }

  lemma MatchesAreOrdered(s: Shelf, f: Filter)
    requires Valid(s)
    ensures forall i :: 0 <= i < |s.order| ==> s.order[i] in s.records && s.records[s.order[i]].id == s.order[i]
    ensures forall i, j :: 0 <= i < j < |s.order| ==> s.order[i] != s.order[j]
    ensures forall r :: Matches(s, f, r) ==> r.id in s.order
  {
    assert Ordered(s);
    hide Valid, Passes;
  }

  /** The test by way of the goal index is the linear scan's test. */
  lemma MatchedByIndex(s: Shelf, f: Filter, id: ArtifactId)
    requires Valid(s) && id in s.records && s.records[id].id == id
    ensures var inGoal := if f.goal.Some? then Listed(s.byGoal, f.goal.value) else [];
      Passes(f.(goal := None), s.records[id]) && (f.goal.None? || id in inGoal) <==> Matches(s, f, s.records[id])
    ensures forall r: Record :: r.id == id && Matches(s, f, r) ==> r == s.records[id]
  {
    hide Valid, Lower, Strip;
    GoalIndexIsScan(s);
  }

  /** The ids of a whole lineage, in version order. */
  ghost predicate AllVersions(s: Shelf, l: string, ids: seq<ArtifactId>) {
    && (forall i :: 0 <= i < |ids| ==>
         ids[i] in s.records && s.records[ids[i]].version == i + 1 && s.records[ids[i]].Lineage() == l)
    && (forall x :: x in s.records && s.records[x].Lineage() == l ==> x in ids)
  }

  lemma LineageListed(s: Shelf, id: ArtifactId)
    requires Valid(s) && id in s.records
    ensures var l := s.records[id].Lineage();
      var ids := Listed(s.byLineage, l);
      id in ids && AllVersions(s, l, ids) && forall i :: 0 <= i < |ids| ==> ids[i] in s.records
  {
    hide Exact, Location, Ordered, Free;
    assert Chains(s);
    var l := s.records[id].Lineage();
    assert ChainOk(s.records, l, s.byLineage[l]);
  }

  lemma LookupKnown(s: Shelf, id: ArtifactId, version: Option<int>)
    requires Valid(s)
    ensures Lookup(s, id, version).Some? ==> Lookup(s, id, version).value in s.records
    ensures id in s.records && version.None? ==> Lookup(s, id, version).Some?
    ensures id in s.records && version.Some? && 1 <= version.value <= |Listed(s.byLineage, s.records[id].Lineage())| ==>
      Lookup(s, id, version).Some?
  {
    if id in s.records && version.Some? {
      SameFromAnyId(s, id, id, version.value);
      LineageListed(s, id);
    }
    hide Valid;
  }

  lemma OnlyLastActive(s: Shelf, l: string)
    requires Valid(s)
    ensures var ids := Listed(s.byLineage, l);
      && (forall i :: 0 <= i < |ids| ==> ids[i] in s.records && s.records[ids[i]].id == ids[i])
      && (forall i :: 0 <= i < |ids| - 1 ==> s.records[ids[i]].status != Active)
      && (ids == [] ==> LastStatus(s, l) == None)
      && (ids != [] ==> LastStatus(s, l) == Some(s.records[ids[|ids| - 1]].status))
  {
    hide Exact, Location;
    if l in s.byLineage {
      assert ChainOk(s.records, l, s.byLineage[l]);
    }
  }

  lemma LastIsKnown(s: Shelf, l: string)
    requires Valid(s)
    ensures LastStatus(s, l).Some? ==>
      Listed(s.byLineage, l) != [] && Listed(s.byLineage, l)[|Listed(s.byLineage, l)| - 1] in s.records
  {}

  lemma VersionsApart(s: Shelf, f: Filter, rs: seq<Record>)
    requires Valid(s) && NoRepeats(rs) && forall r :: r in rs ==> Matches(s, f, r)
    ensures forall i, j :: 0 <= i < j < |rs| && rs[i].Lineage() == rs[j].Lineage() ==> rs[i].version != rs[j].version
  {
    hide Passes, Valid, Lookup;
    forall i, j | 0 <= i < j < |rs| && rs[i].Lineage() == rs[j].Lineage() ensures rs[i].version != rs[j].version {
      assert rs[i] in rs && rs[j] in rs;
      OwnVersion(s, rs[i].id);
      OwnVersion(s, rs[j].id);
      SameFromAnyId(s, rs[i].id, rs[j].id, rs[i].version);
    }
  }
}
