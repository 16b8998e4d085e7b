/** Scoped memory keys, the memory manager over one flat store, and checkpoints of a process's
    working memory. */
module Memory {
  import opened Common
  import opened Text

  datatype Category = Working | Episodic | Semantic

  function CategoryText(c: Category): string {
    match c
    case Working => "working"
    case Episodic => "episodic"
    case Semantic => "semantic"
  }

  function ReadCategory(s: string): Option<Category> {
    if s == "working" then Some(Working)
    else if s == "episodic" then Some(Episodic)
    else if s == "semantic" then Some(Semantic)
    else None
  }

  type ProcessId = string

  /** The text of a UUID: section 4 of RFC 9562. */
  predicate IsUuid(s: string) {
    |s| == 36 && forall i :: 0 <= i < 36 ==>
      if i in {8, 13, 18, 23} then s[i] == '-' else '0' <= s[i] <= '9' || 'a' <= s[i] <= 'f'
  }

  const DefaultSpace := "default"

  // ------------------------------------------------------------------
  // Printing and parsing keys
  // ------------------------------------------------------------------

  /** `_scoped_key`. */
  function Scoped(space: string, c: Category, p: ProcessId, key: string): string {
    space + ":" + (CategoryText(c) + ":" + (p + ":" + key))
  }

  function Legacy(c: Category, p: ProcessId, key: string): string {
    CategoryText(c) + ":" + (p + ":" + key)
  }

  function Find(s: string, c: char): (i: nat)
    ensures i <= |s| && (i < |s| ==> s[i] == c) && forall k :: 0 <= k < i ==> s[k] != c
  {
    if s == [] || s[0] == c then 0 else 1 + Find(s[1..], c)
  }

  /** `split(":", max)`. */
  function Split(s: string, max: nat): seq<string> {
    var i := Find(s, ':');
    if max == 0 || i == |s| then [s] else [s[..i]] + Split(s[i + 1..], max - 1)
  }

  datatype Parts = Parts(space: string, category: Category, process: ProcessId, key: string)

  function Checked(space: string, category: string, process: string, key: string): Option<Parts> {
    if ReadCategory(category).Some?
      && IsUuid(process) then Some(Parts(space, ReadCategory(category).value, process, key)) else None
  }

  /** `parse_scoped_memory_key`. */
  function Parse(text: string): Option<Parts> {
    var parts := Split(text, 3);
    if |parts| == 4 then Checked(parts[0], parts[1], parts[2], parts[3])
    else if |parts| == 3 then Checked(DefaultSpace, parts[0], parts[1], parts[2])
    else None
  }

  lemma {:induction false} FindAt(s: string, c: char, n: nat)
    requires n < |s| && s[n] == c && forall k :: 0 <= k < n ==> s[k] != c
    ensures Find(s, c) == n
  {
    if n > 0 {
      FindAt(s[1..], c, n - 1);
    }
  }

  lemma SplitFirst(a: string, b: string, max: nat)
    requires Free(a, ':') && max > 0
    ensures Split(a + ":" + b, max) == [a] + Split(b, max - 1)
  {
    var s := a + ":" + b;
    assert s[|a|] == ':' && forall k :: 0 <= k < |a| ==> s[k] == a[k];
    FindAt(s, ':', |a|);
    assert s[..|a|] == a && s[|a| + 1..] == b;
  }

  lemma SplitWhole(s: string, max: nat)
    requires Free(s, ':') || max == 0
    ensures Split(s, max) == [s]
  {}

  lemma CategoryFree(c: Category)
    ensures Free(CategoryText(c), ':') && ReadCategory(CategoryText(c)) == Some(c)
  {}

  lemma CategoryRead(s: string)
    ensures ReadCategory(s).Some? ==> CategoryText(ReadCategory(s).value) == s
  {}

  lemma UuidFree(s: string)
    requires IsUuid(s)
    ensures Free(s, ':') && ReadCategory(s) == None
  {
    forall i | 0 <= i < |s| ensures s[i] != ':' {
      assert i in {8, 13, 18, 23} || i !in {8, 13, 18, 23};
    }
  }

  /** What splitting at up to three colons leaves, joined again, is the text. */
  lemma SplitJoins(s: string, max: nat)
    ensures var parts := Split(s, max);
      && parts != []
      && (|parts| == 1 ==> parts[0] == s && (max == 0 || Free(s, ':')))
      && (|parts| > 1 ==>
            && max > 0 && Free(parts[0], ':')
            && exists rest :: s == parts[0] + ":" + rest && parts[1..] == Split(rest, max - 1))
  {
    var i := Find(s, ':');
    if max > 0 && i < |s| {
      assert s == s[..i] + ":" + s[i + 1..];
    }
  }

  /** Parsing a printed key gives its four parts back exactly when the space has no colon. */
  lemma RoundTrip(space: string, c: Category, p: ProcessId, key: string)
    requires IsUuid(p)
    ensures Parse(Scoped(space, c, p, key)) == Some(Parts(space, c, p, key)) <==> Free(space, ':')
  {
    hide Split, IsUuid, Free;
    CategoryFree(c);
    UuidFree(p);
    if Free(space, ':') {
      SplitFirst(space, CategoryText(c) + ":" + (p + ":" + key), 3);
      SplitFirst(CategoryText(c), p + ":" + key, 2);
      SplitFirst(p, key, 1);
      SplitWhole(key, 0);
    } else {
      ParsedSpaceIsFree(Scoped(space, c, p, key));
    }
  }

  lemma ParsedSpaceIsFree(text: string)
    ensures Parse(text).Some? ==> Free(Parse(text).value.space, ':')
  {
    SplitJoins(text, 3);
    hide Split, Free;
    assert Free(DefaultSpace, ':') by { DefaultIsFree(); }
  }

  lemma DefaultIsFree()
    ensures Free(DefaultSpace, ':')
  {}

  /** Whatever parses is the printed form of its parts, with or without the default space. */
  lemma ParseIsPrinted(text: string)
    requires Parse(text).Some?
    ensures var r := Parse(text).value;
      && IsUuid(r.process) && Free(r.space, ':')
      && (text == Scoped(r.space, r.category, r.process, r.key)
           || (r.space == DefaultSpace && text == Legacy(r.category, r.process, r.key)))
  {
    ParsedSpaceIsFree(text);
    hide Split, IsUuid, Free;
    var parts := Split(text, 3);
    SplitJoins(text, 3);
    var rest :| text == parts[0] + ":" + rest && parts[1..] == Split(rest, 2);
    SplitJoins(rest, 2);
    var rest2 :| rest == parts[1] + ":" + rest2 && parts[2..] == Split(rest2, 1);
    SplitJoins(rest2, 1);
    if |parts| == 4 {
      var rest3 :| rest2 == parts[2] + ":" + rest3 && parts[3..] == Split(rest3, 0);
      SplitJoins(rest3, 0);
      CategoryRead(parts[1]);
      assert text == parts[0] + ":" + (parts[1] + ":" + (parts[2] + ":" + parts[3]));
    } else {
      CategoryRead(parts[0]);
      assert text == parts[0] + ":" + (parts[1] + ":" + parts[2]);
    }
  }

  lemma ScopedInjective(a: Parts, b: Parts)
    requires IsUuid(a.process) && IsUuid(b.process) && Free(a.space, ':') && Free(b.space, ':')
    requires Scoped(a.space, a.category, a.process, a.key) == Scoped(b.space, b.category, b.process, b.key)
    ensures a == b
  {
    hide Scoped, Parse;
    RoundTrip(a.space, a.category, a.process, a.key);
    RoundTrip(b.space, b.category, b.process, b.key);
  }

  // ------------------------------------------------------------------
  // A clean store: scoped keys only
  // ------------------------------------------------------------------

  ghost predicate CleanKey(text: string) {
    Parse(text).Some? && var r := Parse(text).value; text == Scoped(r.space, r.category, r.process, r.key)
  }

  ghost predicate CleanStore(m: map<string, Value>) {
    forall text :: text in m ==> CleanKey(text)
  }

  function ScopedPrefix(space: string, p: ProcessId): string {
    space + ":" + ("working" + ":" + (p + ":"))
  }

  function LegacyPrefix(p: ProcessId): string {
    "working" + ":" + (p + ":")
  }

  lemma PrefixedKey(space: string, p: ProcessId, key: string)
    ensures Scoped(space, Working, p, key) == ScopedPrefix(space, p) + key
  {
    assert space + ":" + ("working" + ":" + (p + ":" + key)) == space + ":" + ("working" + ":" + (p + ":")) + key;
  }

  lemma LegacyPrefixedKey(p: ProcessId, key: string)
    ensures Legacy(Working, p, key) == LegacyPrefix(p) + key
  {
    assert "working" + ":" + (p + ":" + key) == "working" + ":" + (p + ":") + key;
  }

  lemma ScopedIsClean(space: string, c: Category, p: ProcessId, key: string)
    requires Free(space, ':') && IsUuid(p)
    ensures CleanKey(Scoped(space, c, p, key))
  {
    hide Scoped, Parse;
    RoundTrip(space, c, p, key);
  }

  /** No scoped key reads as a legacy key. */
  lemma LegacyIsNotClean(c: Category, p: ProcessId, key: string)
    requires IsUuid(p)
    ensures !CleanKey(Legacy(c, p, key))
  {
    var text := Legacy(c, p, key);
    CategoryFree(c);
    UuidFree(p);
    hide Free, IsUuid, ReadCategory, Parse, Scoped;
    if CleanKey(text) {
      var r := Parse(text).value;
      ParseIsPrinted(text);
      CleanIs(text);
      ScopedIsNotLegacy(r, c, p, key);
    }
  }

  /** Were a scoped key also a legacy one, a process id would have to be a category. */
  lemma ScopedIsNotLegacy(r: Parts, c: Category, p: ProcessId, key: string)
    requires Free(r.space, ':') && IsUuid(p)
    ensures Scoped(r.space, r.category, r.process, r.key) != Legacy(c, p, key)
  {
    CategoryFree(c);
    CategoryFree(r.category);
    UuidFree(p);
    hide Free, IsUuid, ReadCategory;
    if Scoped(r.space, r.category, r.process, r.key) == Legacy(c, p, key) {
      FirstPart(r.space, CategoryText(r.category) + ":" + (r.process + ":" + r.key), CategoryText(c), p + ":" + key,
        ':');
      FirstPart(CategoryText(r.category), r.process + ":" + r.key, p, key, ':');
    }
  }

  /** Among scoped keys the two prefixes of `working_snapshot` pick out exactly the process's own
      working keys in its space. */
  lemma OwnKeysOnly(space: string, p: ProcessId, text: string)
    requires CleanKey(text) && Free(space, ':') && IsUuid(p)
    ensures ScopedPrefix(space, p) <= text || LegacyPrefix(p) <= text <==>
      Parse(text).value.space == space && Parse(text).value.category == Working && Parse(text).value.process == p
    ensures !(LegacyPrefix(p) <= text)
  {
    hide CleanKey, Parse, Free, IsUuid, Scoped, ScopedPrefix, LegacyPrefix, Legacy;
    if LegacyPrefix(p) <= text {
      var key := text[|LegacyPrefix(p)|..];
      assert text == LegacyPrefix(p) + key;
      LegacyPrefixedKey(p, key);
      LegacyIsNotClean(Working, p, key);
    } else {
      CleanIs(text);
      var r := Parse(text).value;
      if ScopedPrefix(space, p) <= text {
        var key := text[|ScopedPrefix(space, p)|..];
        assert text == ScopedPrefix(space, p) + key;
        PrefixedKey(space, p, key);
        RoundTrip(space, Working, p, key);
      } else if r.space == space && r.category == Working && r.process == p {
        PrefixedKey(space, p, r.key);
      }
    }
  }

  lemma CleanIs(text: string)
    requires CleanKey(text)
    ensures Parse(text).Some? && var r := Parse(text).value; text == Scoped(r.space, r.category, r.process, r.key)
  {}

  // ------------------------------------------------------------------
  // A process's working memory
  // ------------------------------------------------------------------

  /** What `working_snapshot` is for: the process's own working entries, by short key. */
  ghost predicate IsSnapshot(view: map<string, Value>, m: map<string, Value>, space: string, p: ProcessId) {
    && (forall key :: key in view <==> Scoped(space, Working, p, key) in m)
    && (forall key :: key in view ==> view[key] == m[Scoped(space, Working, p, key)])
  }

  /** Restoring writes every entry of the view back under its scoped key. */
  ghost predicate IsRestored(m': map<string, Value>, m: map<string, Value>, space: string, p: ProcessId,
      view: map<string, Value>)
  {
    && (forall key :: key in view ==>
         Scoped(space, Working, p, key) in m' && m'[Scoped(space, Working, p, key)] == view[key])
    && (forall text :: (forall key :: key in view ==> text != Scoped(space, Working, p, key)) ==>
          (text in m' <==> text in m) && (text in m' ==> m'[text] == m[text]))
  }

  /** A checkpoint undoes whatever happened in between: if `view` was the process's working
      memory in `before`, then after restoring it into any later `now`, every entry it had has
      its old value again, and every other key of the store is as it was just before. */
  lemma RestoreUndoes(before: map<string, Value>, now: map<string, Value>, after: map<string, Value>, space: string,
      p: ProcessId, view: map<string, Value>)
    requires IsSnapshot(view, before, space, p) && IsRestored(after, now, space, p, view)
    requires CleanStore(before) && CleanStore(now) && Free(space, ':') && IsUuid(p)
    ensures forall text :: text in before && OwnWorking(text, space, p) ==> text in after && after[text] == before[text]
    ensures forall text :: !(text in before && OwnWorking(text, space, p)) ==>
      (text in after <==> text in now) && (text in after ==> after[text] == now[text])
  {
    hide Scoped, Parse, Free, IsUuid;
    forall text | text in before && OwnWorking(text, space, p) ensures text in after && after[text] == before[text] {
      assert CleanKey(text);
      var key := Parse(text).value.key;
      assert text == Scoped(space, Working, p, key);
    }
    forall text | !(text in before && OwnWorking(text, space, p))
      ensures (text in after <==> text in now) && (text in after ==> after[text] == now[text])
    {
      forall key | key in view ensures text != Scoped(space, Working, p, key) {
        RoundTrip(space, Working, p, key);
      }
    }
  }

  /** A working key of the process in its space. */
  ghost predicate OwnWorking(text: string, space: string, p: ProcessId) {
    Parse(text).Some? && var r := Parse(text).value; r.space == space && r.category == Working && r.process == p
  }

  /** The kernel's view of a restore: the process's working memory is overridden by the
      checkpoint's, and no other process's working memory changes. */
  lemma RestoredViews(m: map<string, Value>, m': map<string, Value>, space: string, p: ProcessId,
      view: map<string, Value>,
                      space2: string, q: ProcessId, seen: map<string, Value>)
    requires IsRestored(m', m, space, p, view) && Free(space, ':') && Free(space2, ':') && IsUuid(p) && IsUuid(q)
    requires IsSnapshot(seen, m, space2, q)
    ensures IsSnapshot(if space2 == space && q == p then seen + view else seen, m', space2, q)
  {
    hide Scoped, Free, IsUuid, IsRestored, IsSnapshot;
    var result := if space2 == space && q == p then seen + view else seen;
    forall key ensures ShowsKey(result, m', space2, q, key) {
      RestoredKey(m, m', space, p, view, space2, q, seen, key);
    }
    ShowsAll(result, m', space2, q);
  }

  ghost predicate ShowsKey(view: map<string, Value>, m: map<string, Value>, space: string, p: ProcessId, key: string) {
    && (key in view <==> Scoped(space, Working, p, key) in m)
    && (key in view ==> view[key] == m[Scoped(space, Working, p, key)])
  }

  lemma ShowsAll(view: map<string, Value>, m: map<string, Value>, space: string, p: ProcessId)
    requires forall key :: ShowsKey(view, m, space, p, key)
    ensures IsSnapshot(view, m, space, p)
  {
    hide Scoped;
    forall key ensures (key in view <==> Scoped(space, Working, p, key) in m)
      && (key in view ==> view[key] == m[Scoped(space, Working, p, key)])
    {
      assert ShowsKey(view, m, space, p, key);
    }
  }

  lemma RestoredKey(m: map<string, Value>, m': map<string, Value>, space: string, p: ProcessId,
      view: map<string, Value>,
                    space2: string, q: ProcessId, seen: map<string, Value>, key: string)
    requires IsRestored(m', m, space, p, view) && Free(space, ':') && Free(space2, ':') && IsUuid(p) && IsUuid(q)
    requires IsSnapshot(seen, m, space2, q)
    ensures ShowsKey(if space2 == space && q == p then seen + view else seen, m', space2, q, key)
  {
    hide Scoped, Free, IsUuid;
    if !(space2 == space && q == p && key in view) {
      forall k | k in view ensures Scoped(space2, Working, q, key) != Scoped(space, Working, p, k) {
        if Scoped(space2, Working, q, key) == Scoped(space, Working, p, k) {
          ScopedInjective(Parts(space2, Working, q, key), Parts(space, Working, p, k));
        }
      }
    }
  }
}
