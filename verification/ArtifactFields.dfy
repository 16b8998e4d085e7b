/** What the fields of an artifact hold: trimmed names, normal tags, what a new version takes over
    from the old one, safe file names, and what each search filter asks for. */
module ArtifactFields {
  import opened Common
  import opened Text
  import opened Artifacts
  import opened ArtifactServices

  // ------------------------------------------------------------------
  // Text
  // ------------------------------------------------------------------

  /** Nothing but white space. */
  predicate Blank(s: string) {
    forall i :: 0 <= i < |s| ==> s[i] == ' ' || s[i] == '\t' || s[i] == '\n' || s[i] == '\r'
  }

  lemma {:induction false} TrimLeftMeans(s: string) returns (cut: string)
    ensures s == cut + TrimLeft(s) && Blank(cut) && (TrimLeft(s) != [] ==> !Blank([TrimLeft(s)[0]]))
  {
    cut := [];
    if s != [] && IsSpace(s[0]) {
      var rest := TrimLeftMeans(s[1..]);
      cut := [s[0]] + rest;
      assert s == [s[0]] + s[1..];
    } else if s != [] {
      assert [s[0]][0] == s[0];
    }
  }

  lemma {:induction false} TrimRightMeans(s: string) returns (cut: string)
    ensures s == TrimRight(s) + cut && Blank(cut) && (TrimRight(s) != [] ==> !Blank([TrimRight(s)[|TrimRight(s)| - 1]]))
  {
    cut := [];
    if s != [] && IsSpace(s[|s| - 1]) {
      var rest := TrimRightMeans(s[..|s| - 1]);
      cut := rest + [s[|s| - 1]];
      assert s == s[..|s| - 1] + [s[|s| - 1]];
    } else if s != [] {
      assert [s[|s| - 1]][0] == s[|s| - 1];
    }
  }

  /** Stripping takes away white space at both ends and nothing else. */
  lemma StripMeans(s: string) returns (left: string, right: string)
    ensures s == left + Strip(s) + right && Blank(left) && Blank(right)
    ensures Strip(s) != [] ==> !Blank([Strip(s)[0]]) && !Blank([Strip(s)[|Strip(s)| - 1]])
  {
    left := TrimLeftMeans(s);
    right := TrimRightMeans(TrimLeft(s));
    var t := TrimLeft(s);
    if Strip(s) != [] {
      assert t[0] == Strip(s)[0];
    }
    hide TrimLeft, TrimRight;
  }

  lemma BlankStrips(s: string)
    ensures Strip(s) == "" <==> Blank(s)
  {
    var left, right := StripMeans(s);
    hide Strip;
    assert Strip(s) != [] ==> s[|left|] == Strip(s)[0] && !Blank([s[|left|]]);
  }

  /** Lower case, letter by letter. */
  lemma LowerMeans(s: string, i: nat)
    requires i < |s|
    ensures |Lower(s)| == |s|
    ensures Lower(s)[i] as int == s[i] as int + if 'A' <= s[i] <= 'Z' then 32 else 0
  {}

  /** The tags kept are those that are not blank, trimmed and in lower case. */
  lemma {:induction false} TagsMean(tags: seq<string>, t: string)
    ensures t in NormalTags(tags) <==> exists x :: x in tags && !Blank(x) && t == Lower(Strip(x))
  {
    hide Strip, Lower, Blank;
    if tags != [] {
      TagsMean(tags[1..], t);
      BlankStrips(tags[0]);
      assert forall x :: x in tags <==> x == tags[0] || x in tags[1..];
    }
  }

  // ------------------------------------------------------------------
  // Records
  // ------------------------------------------------------------------

  /** `create` is refused exactly for a blank name, a blank type or a blob that cannot be written. */
  lemma CreateRefusedExactlyWhen(s: Shelf, id: ArtifactId, d: Draft, now: int, writable: bool)
    ensures Create(s, id, d, now, writable).1 <==> Blank(d.name) || Blank(d.kind) || !writable
    ensures Create(s, id, d, now, writable).1 ==> Create(s, id, d, now, writable).0 == s
  {
    hide Strip, Stored, FirstRecord;
    BlankStrips(d.name);
    BlankStrips(d.kind);
  }

  /** What a new artifact's record says. */
  lemma CreatedFields(s: Shelf, id: ArtifactId, d: Draft, now: int)
    requires !Create(s, id, d, now, true).1
    ensures var r := Create(s, id, d, now, true).0;
      && id in r.records
      && var a := r.records[id];
         && a.id == id && a.name == Strip(d.name) && a.kind == Lower(Strip(d.kind)) && a.goal == d.goal
         && a.space == d.space
         && a.version == 1 && a.status == Active && a.updated == now
         && a.Lineage() == (if d.claimed.None? || d.claimed.value == "" then id else d.claimed.value)
         && (forall t :: t in a.tags <==> exists x :: x in d.tags && !Blank(x) && t == Lower(Strip(x)))
  {
    hide Strip, Lower, NormalTags, Location, Blank;
    forall t ensures t in NormalTags(d.tags) <==> exists x :: x in d.tags && !Blank(x) && t == Lower(Strip(x)) {
      TagsMean(d.tags, t);
    }
  }

  /** A new version keeps type, goal, space and lineage of the old one, and its name and tags unless
      others are given; an empty name counts as none given. */
  lemma UpdatedFields(s: Shelf, id: ArtifactId, newId: ArtifactId, c: Change, now: int)
    requires Valid(s) && newId !in s.records && !Update(s, id, newId, c, now, true).1
    ensures var r := Update(s, id, newId, c, now, true).0;
      && id in s.records && newId in r.records && id in r.records
      && var old_, new_ := s.records[id], r.records[newId];
         && new_.id == newId && new_.version == old_.version + 1 && new_.status == Active && new_.updated == now
         && new_.kind == old_.kind && new_.goal == old_.goal && new_.space == old_.space
         && new_.Lineage() == old_.Lineage()
         && (c.name.None? || c.name == Some("") ==> new_.name == Strip(old_.name))
         && (c.name.Some? && c.name != Some("") ==> new_.name == Strip(c.name.value))
         && (c.tags.None? ==> new_.tags == old_.tags)
         && (c.tags.Some? ==>
               forall t :: t in new_.tags <==> exists x :: x in c.tags.value && !Blank(x) && t == Lower(Strip(x)))
         && r.records[id] == old_.(status := Superseded)
  {
    hide Valid, Exact, Ordered, ChainOk;
    UpdateKeeps(s, id, newId, c, now, true);
    assert IsActive(s, id);
    hide Valid, Update, Strip, Lower, NormalTags, Location, Blank, Stored;
    if c.tags.Some? {
      forall t ensures t in NormalTags(c.tags.value) <==>
        exists x :: x in c.tags.value && !Blank(x) && t == Lower(Strip(x))
      {
        TagsMean(c.tags.value, t);
      }
    }
  }

  // ------------------------------------------------------------------
  // Exports
  // ------------------------------------------------------------------

  /** Exporting a version gives that version; exporting without one gives the active version of the
      lineage, and the record asked for only if the lineage has none. */
  lemma ExportTargetMeans(s: Shelf, id: ArtifactId, version: Option<int>)
    requires Valid(s) && id in s.records
    ensures var target := ExportTarget(s, id, version);
      && target in s.records && s.records[target].Lineage() == s.records[id].Lineage()
      && (version.Some? ==> target == id)
      && (version.None? ==>
            forall x :: x in s.records && s.records[x].Lineage() == s.records[id].Lineage() ==>
              (s.records[x].status == Active ==> x == target) && (s.records[target].status != Active ==> target == id))
  {
    hide Exact, Ordered, Location;
    var l := s.records[id].Lineage();
    assert ChainOk(s.records, l, s.byLineage[l]);
    hide Chains;
    forall x | IsActive(s, x) && s.records[x].Lineage() == l ensures x == s.byLineage[l][|s.byLineage[l]| - 1] {
      ActiveIsLast(s, x);
    }
  }

  // ------------------------------------------------------------------
  // File names
  // ------------------------------------------------------------------

  /** A letter, a digit, an underscore, a dot or a hyphen. */
  predicate FileChar(c: char) {
    'a' <= c <= 'z' || 'A' <= c <= 'Z' || '0' <= c <= '9' || c == '_' || c == '.' || c == '-'
  }

  lemma {:induction false} CleanedMeans(s: string, inRun: bool)
    ensures forall i :: 0 <= i < |Cleaned(s, inRun)| ==> FileChar(Cleaned(s, inRun)[i]) || Cleaned(s, inRun)[i] == ' '
    ensures s != [] && !inRun ==> Cleaned(s, inRun) != []
    ensures (forall i :: 0 <= i < |s| ==> FileChar(s[i])) ==> Cleaned(s, inRun) == s
  {
    if s != [] {
      CleanedMeans(s[1..], false);
      CleanedMeans(s[1..], true);
      if forall i :: 0 <= i < |s| ==> FileChar(s[i]) {
        assert FileChar(s[0]) && s == [s[0]] + s[1..];
      }
    }
  }

  /** A file name is never empty, has only safe characters, and is the name itself if that is safe. */
  lemma FilenameMeans(name: string)
    ensures SafeFilename(name) != "" && forall i :: 0 <= i < |SafeFilename(name)| ==> FileChar(SafeFilename(name)[i])
    ensures name != "" && (forall i :: 0 <= i < |name| ==> FileChar(name[i])) ==> SafeFilename(name) == name
  {
    CleanedMeans(Strip(name), false);
    if name != "" && forall i :: 0 <= i < |name| ==> FileChar(name[i]) {
      var left, right := StripMeans(name);
      NothingTrimmed(name, left, Strip(name), right);
    }
    hide Cleaned, Strip;
  }

  lemma NothingTrimmed(name: string, left: string, middle: string, right: string)
    requires name == left + middle + right && Blank(left) && Blank(right)
    requires forall i :: 0 <= i < |name| ==> FileChar(name[i])
    ensures middle == name
  {
    assert left != [] ==> name[0] == left[0] && !FileChar(left[0]);
    assert right != [] ==> name[|name| - 1] == right[|right| - 1] && !FileChar(right[|right| - 1]);
  }

  /** The number a text of digits stands for. */
  function Numeral(s: string): int {
    if s == "" then 0 else 10 * Numeral(s[..|s| - 1]) + (s[|s| - 1] as int - '0' as int)
  }

  /** The version in a location is its decimal numeral. */
  lemma {:induction false} DecimalReads(n: nat)
    ensures Numeral(Decimal(n)) == n
  {
    if n >= 10 {
      DecimalReads(n / 10);
      assert Decimal(n)[..|Decimal(n)| - 1] == Decimal(n / 10);
    } else {
      assert Decimal(n)[..0] == "";
    }
  }

  // ------------------------------------------------------------------
  // Search filters
  // ------------------------------------------------------------------

  /** A record passes exactly if it has the status, goal, space, type and tags asked for, types and
      tags compared trimmed and in lower case. */
  lemma FilterMeans(s: Shelf, f: Filter, r: Record)
    ensures Matches(s, f, r) <==>
      && r.id in s.records && s.records[r.id] == r
      && (f.status.None? || f.status.value == r.status)
      && (f.goal.None? || r.goal == Some(f.goal.value))
      && (f.space.None? || f.space.value == r.space)
      && (f.kind.None? || Lower(Strip(f.kind.value)) == r.kind)
      && (forall t :: t in f.tags ==> Lower(Strip(t)) in r.tags)
  {
    hide Strip, Lower;
  }

  /** A search for a tag finds an artifact that was created with it, however either was written. */
  lemma TagIsFound(id: ArtifactId, d: Draft, now: int, given: string, asked: string)
    requires given in d.tags && !Blank(given) && Lower(Strip(asked)) == Lower(Strip(given))
    requires !Create(EmptyShelf, id, d, now, true).1
    ensures var s := Create(EmptyShelf, id, d, now, true).0;
      id in s.records && Matches(s, Filter(Some(Active), d.goal, Some(d.space), Some(d.kind), [asked], true, 1),
        s.records[id])
  {
    hide Strip, Lower, Blank, Create, Matches, Passes;
    CreatedFields(EmptyShelf, id, d, now);
    var s := Create(EmptyShelf, id, d, now, true).0;
    FilterMeans(s, Filter(Some(Active), d.goal, Some(d.space), Some(d.kind), [asked], true, 1), s.records[id]);
  }
}
