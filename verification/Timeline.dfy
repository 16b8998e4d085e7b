/** The narrative timeline: memory events batched into runs, entries sorted by time and grouped
    by day, with no event lost, repeated or put under another day. */
module Timelines {
  import opened Common

  /** A logged event as the timeline sees it: its time in seconds, the plugin of its process, and
      either a memory key or the sentence told about it, if any. */
  datatype Ev =
    | MemoryStored(id: nat, time: int, plugin: Option<string>, key: string)
    | Other(id: nat, time: int, plugin: Option<string>, narrative: Option<string>)

  /** The UTC day of a time. */
  function Day(time: int): int {
    time / 86400
  }

  predicate Told(e: Ev) {
    e.MemoryStored? || e.narrative.Some?
  }

  function Visible(events: seq<Ev>): seq<Ev> {
    if events == [] then [] else (if Told(events[0]) then [events[0]] else []) + Visible(events[1..])
  }

  /** Two memory events that belong to one batch when adjacent. */
  predicate Joins(x: Ev, y: Ev) {
    x.MemoryStored? && y.MemoryStored? && x.plugin == y.plugin && x.key == y.key && Day(x.time) == Day(y.time)
  }

  /** A timeline row and the events it stands for; its time is the first one's. */
  datatype Entry = Entry(events: seq<Ev>, time: int)

  ghost predicate WellMade(e: Entry) {
    && e.events != [] && e.time == e.events[0].time
    && (forall x :: x in e.events ==> Told(x))
    && (|e.events| > 1 ==> forall x :: x in e.events ==> Joins(e.events[0], x))
  }

  /** The entry stands for a slice of the log: one event, or a run of joining memory events that
      cannot be extended on either side. */
  ghost predicate IsRun(events: seq<Ev>, e: Entry, from: nat, to: nat) {
    && from < to <= |events| && e.events == events[from..to]
    && (forall i :: from < i < to ==> Joins(events[i - 1], events[i]))
    && (from > 0 ==> !Joins(events[from - 1], events[from]))
    && (to < |events| ==> !Joins(events[to - 1], events[to]))
  }

  function Flat(entries: seq<Entry>): seq<Ev> {
    if entries == [] then [] else Flat(entries[..|entries| - 1]) + entries[|entries| - 1].events
  }

  ghost predicate ByTime(entries: seq<Entry>) {
    forall i, j :: 0 <= i < j < |entries| ==> entries[i].time <= entries[j].time
  }

  // ------------------------------------------------------------------
  // Batching
  // ------------------------------------------------------------------

  lemma {:induction false} VisibleSnoc(events: seq<Ev>, e: Ev)
    ensures Visible(events + [e]) == Visible(events) + if Told(e) then [e] else []
  {
    hide Told;
    if events == [] {
      assert [] + [e] == [e];
    } else {
      VisibleSnoc(events[1..], e);
      assert (events + [e])[1..] == events[1..] + [e];
    }
  }

  lemma FlatSnoc(entries: seq<Entry>, e: Entry)
    ensures Flat(entries + [e]) == Flat(entries) + e.events
  {
    assert (entries + [e])[..|entries + [e]| - 1] == entries;
  }

  ghost predicate SomeRun(events: seq<Ev>, e: Entry) {
    exists a, b :: IsRun(events, e, a, b)
  }

  /** The finished entries are runs of the log. */
  ghost predicate AllRuns(events: seq<Ev>, entries: seq<Entry>) {
    forall k :: 0 <= k < |entries| ==> WellMade(entries[k]) && SomeRun(events, entries[k])
  }

  /** The batch being collected is the run that ends here. */
  ghost predicate Open(events: seq<Ev>, i: nat, batch: seq<Ev>) {
    && |batch| <= i <= |events| && batch == events[i - |batch|..i]
    && (forall x :: x in batch ==> Joins(batch[0], x))
    && (batch != [] && i - |batch| > 0 ==> !Joins(events[i - |batch| - 1], events[i - |batch|]))
  }

  lemma BatchIsRun(events: seq<Ev>, i: nat, batch: seq<Ev>)
    requires batch != [] && Open(events, i, batch) && (i < |events| ==> !Joins(batch[0], events[i]))
    ensures var e := Entry(batch, batch[0].time); WellMade(e) && IsRun(events, e, i - |batch|, i)
  {
    var a := i - |batch|;
    forall j | a < j < i ensures Joins(events[j - 1], events[j]) {
      assert events[j - 1] == batch[j - 1 - a] && events[j] == batch[j - a];
      assert Joins(batch[0], batch[j - 1 - a]) && Joins(batch[0], batch[j - a]);
    }
    assert events[i - 1] == batch[|batch| - 1] && Joins(batch[0], batch[|batch| - 1]);
  }

  lemma OpenGrows(events: seq<Ev>, i: nat, batch: seq<Ev>)
    requires i < |events| && Open(events, i, batch) && batch != [] && Joins(batch[0], events[i])
    ensures Open(events, i + 1, batch + [events[i]])
  {
    assert events[i + 1 - |batch + [events[i]]|..i + 1] == batch + [events[i]];
  }

  /** Starting afresh after an event that does not join. */
  lemma OpenStarts(events: seq<Ev>, i: nat, batch: seq<Ev>)
    requires i < |events| && events[i].MemoryStored? && Open(events, i, batch)
    requires batch != [] ==> !Joins(batch[0], events[i])
    requires batch == [] && i > 0 ==> !events[i - 1].MemoryStored?
    ensures Open(events, i + 1, [events[i]])
  {
    assert events[i..i + 1] == [events[i]];
    if i > 0 {
      NotJoined(events, i, batch);
    }
    hide Joins;
    assert Joins(events[i], events[i]) by { JoinsItself(events[i]); }
  }

  lemma JoinsItself(e: Ev)
    requires e.MemoryStored?
    ensures Joins(e, e)
  {}

  lemma JoinsAlong(x: Ev, y: Ev, z: Ev)
    requires Joins(x, y)
    ensures Joins(x, z) <==> Joins(y, z)
  {}

  lemma NotJoined(events: seq<Ev>, i: nat, batch: seq<Ev>)
    requires 0 < i < |events| && Open(events, i, batch)
    requires batch != [] ==> !Joins(batch[0], events[i])
    requires batch == [] ==> !events[i - 1].MemoryStored?
    ensures !Joins(events[i - 1], events[i])
  {
    if batch != [] {
      assert events[i - 1] == batch[|batch| - 1] && batch[|batch| - 1] in batch;
      JoinsAlong(batch[0], events[i - 1], events[i]);
    }
  }

  lemma RunAdded(events: seq<Ev>, entries: seq<Entry>, e: Entry, a: nat, b: nat)
    requires AllRuns(events, entries) && WellMade(e) && IsRun(events, e, a, b)
    ensures AllRuns(events, entries + [e])
  {
    assert SomeRun(events, e);
    hide WellMade, IsRun, SomeRun;
  }

  lemma OtherIsRun(events: seq<Ev>, i: nat)
    requires i < |events| && events[i].Other? && Told(events[i])
    ensures WellMade(Entry([events[i]], events[i].time)) && IsRun(events, Entry([events[i]], events[i].time), i, i + 1)
  {
    assert events[i..i + 1] == [events[i]];
  }

  /** Appends the batch, if there is one. */
  method Flush(events: seq<Ev>, i: nat, entries: seq<Entry>, batch: seq<Ev>) returns (more: seq<Entry>)
    requires AllRuns(events, entries) && Open(events, i, batch)
      && (batch != [] && i < |events| ==> !Joins(batch[0], events[i]))
    ensures AllRuns(events, more) && Flat(more) == Flat(entries) + batch
  {
    hide AllRuns, WellMade, IsRun;
    if batch == [] {
      return entries;
    }
    var e := Entry(batch, batch[0].time);
    BatchIsRun(events, i, batch);
    RunAdded(events, entries, e, i - |batch|, i);
    FlatSnoc(entries, e);
    more := entries + [e];
  }

  /** The loop of `_build_entries`. */
  method Batch(events: seq<Ev>) returns (entries: seq<Entry>)
    ensures AllRuns(events, entries) && Flat(entries) == Visible(events)
  {
    hide AllRuns, WellMade, IsRun, Open, Flat, Visible;
    entries := [];
    var batch: seq<Ev> := [];
    var i := 0;
    Nothing(events);
    while i < |events|
      invariant 0 <= i <= |events| && AllRuns(events, entries) && Open(events, i, batch)
      invariant batch == [] && i > 0 ==> !events[i - 1].MemoryStored?
      invariant Flat(entries) + batch == Visible(events[..i])
    {
      var e := events[i];
      assert events[..i + 1] == events[..i] + [e];
      VisibleSnoc(events[..i], e);
      if e.MemoryStored? && batch != [] && Joins(batch[0], e) {
        OpenGrows(events, i, batch);
        batch := batch + [e];
      } else {
        entries := Flush(events, i, entries, batch);
        if e.MemoryStored? {
          OpenStarts(events, i, batch);
          batch := [e];
        } else {
          batch := [];
          NothingOpen(events, i + 1);
          if e.narrative.Some? {
            OtherIsRun(events, i);
            RunAdded(events, entries, Entry([e], e.time), i, i + 1);
            FlatSnoc(entries, Entry([e], e.time));
            entries := entries + [Entry([e], e.time)];
          }
        }
      }
      i := i + 1;
    }
    assert events[..i] == events;
    entries := Flush(events, i, entries, batch);
  }

  lemma Nothing(events: seq<Ev>)
    ensures AllRuns(events, []) && Open(events, 0, []) && Flat([]) == [] && Visible(events[..0]) == []
  {}

  lemma NothingOpen(events: seq<Ev>, i: nat)
    requires i <= |events|
    ensures Open(events, i, [])
  {}

  // ------------------------------------------------------------------
  // Sorting
  // ------------------------------------------------------------------

  /** Behind everything that is as early. */
  function InsertEntry(entries: seq<Entry>, e: Entry): seq<Entry> {
    if entries == [] || entries[|entries| - 1].time <= e.time then entries + [e]
    else InsertEntry(entries[..|entries| - 1], e) + [entries[|entries| - 1]]
  }

  lemma FlatNothing()
    ensures Flat([]) == []
  {}

  lemma {:induction false} InsertEntryFacts(entries: seq<Entry>, e: Entry)
    requires ByTime(entries)
    ensures ByTime(InsertEntry(entries, e))
      && multiset(Flat(InsertEntry(entries, e))) == multiset(Flat(entries)) + multiset(e.events)
    ensures forall x :: x in InsertEntry(entries, e) <==> x in entries || x == e
  {
    hide Flat;
    FlatNothing();
    if entries == [] || entries[|entries| - 1].time <= e.time {
      FlatSnoc(entries, e);
    } else {
      var front, last := entries[..|entries| - 1], entries[|entries| - 1];
      InsertEntryFacts(front, e);
      FlatSnoc(InsertEntry(front, e), last);
      FlatSnoc(front, last);
      assert entries == front + [last];
      var more := InsertEntry(front, e);
      forall i | 0 <= i < |more| ensures more[i].time <= last.time {
        assert more[i] in more;
      }
    }
  }

  /** `_build_entries`: every memory event and every event with a narrative is in exactly one
      entry, as often as in the log; batches are maximal runs; entries come in time order. */
  method BuildEntries(events: seq<Ev>) returns (sorted: seq<Entry>)
    ensures multiset(Flat(sorted)) == multiset(Visible(events))
    ensures ByTime(sorted)
    ensures forall e :: e in sorted ==> WellMade(e) && SomeRun(events, e)
  {
    hide WellMade, SomeRun, Visible, Flat, ByTime;
    var entries := Batch(events);
    sorted := SortByTime(entries);
  }

  method SortByTime(entries: seq<Entry>) returns (sorted: seq<Entry>)
    ensures multiset(Flat(sorted)) == multiset(Flat(entries)) && ByTime(sorted)
    ensures forall e :: e in sorted <==> e in entries
  {
    hide Flat, ByTime;
    sorted := [];
    NothingToSort();
    var i := 0;
    while i < |entries|
      invariant 0 <= i <= |entries| && ByTime(sorted)
      invariant multiset(Flat(sorted)) == multiset(Flat(entries[..i]))
      invariant forall e :: e in sorted <==> e in entries[..i]
    {
      InsertEntryFacts(sorted, entries[i]);
      assert entries[..i + 1] == entries[..i] + [entries[i]];
      FlatSnoc(entries[..i], entries[i]);
      sorted := InsertEntry(sorted, entries[i]);
      i := i + 1;
    }
    assert entries[..i] == entries;
  }

  lemma NothingToSort()
    ensures ByTime([])
  {}

  // ------------------------------------------------------------------
  // Days
  // ------------------------------------------------------------------

  /** ISO dates sort as their days do. */
  datatype Label = Tomorrow | Today | Yesterday | OnDay(day: int)

  /** `day_label`. */
  function DayLabel(time: int, now: int): Label {
    var day, today := Day(time), Day(now);
    if day == today then Today
    else if day == today - 1 then Yesterday
    else if day == today + 1 then Tomorrow
    else OnDay(day)
  }

  function Rank(l: Label): nat {
    match l
    case Tomorrow => 0
    case Today => 1
    case Yesterday => 2
    case OnDay(_) => 3
  }

  predicate LabelBefore(l: Label, m: Label) {
    Rank(l) < Rank(m) || (l.OnDay? && m.OnDay? && l.day < m.day)
  }

  datatype Group = Group(day: Label, entries: seq<Entry>)

  function WithLabel(entries: seq<Entry>, l: Label, now: int): seq<Entry> {
    if entries == [] then []
    else
      var last := entries[|entries| - 1];
      WithLabel(entries[..|entries| - 1], l, now) + if DayLabel(last.time, now) == l then [last] else []
  }

  ghost predicate InOrder(labels: seq<Label>) {
    forall i, j :: 0 <= i < j < |labels| ==> LabelBefore(labels[i], labels[j])
  }

  function InsertLabel(labels: seq<Label>, l: Label): seq<Label> {
    if labels == [] || LabelBefore(l, labels[0]) then [l] + labels else [labels[0]] + InsertLabel(labels[1..], l)
  }

  lemma {:induction false} InsertLabelFacts(labels: seq<Label>, l: Label)
    requires InOrder(labels) && l !in labels
    ensures InOrder(InsertLabel(labels, l)) && forall x :: x in InsertLabel(labels, l) <==> x in labels || x == l
  {
    if labels != [] && !LabelBefore(l, labels[0]) {
      assert labels == [labels[0]] + labels[1..];
      InsertLabelFacts(labels[1..], l);
      var more := InsertLabel(labels[1..], l);
      forall j | 0 <= j < |more| ensures LabelBefore(labels[0], more[j]) {
        assert more[j] in more;
      }
    }
  }

  /** The groups' events, in the groups' order. */
  function Regrouped(entries: seq<Entry>, labels: seq<Label>, now: int): seq<Ev> {
    if labels == [] then [] else Flat(WithLabel(entries, labels[0], now)) + Regrouped(entries, labels[1..], now)
  }

  function FlatGroups(groups: seq<Group>): seq<Ev> {
    if groups == [] then [] else Flat(groups[0].entries) + FlatGroups(groups[1..])
  }

  lemma WithLabelSnoc(entries: seq<Entry>, e: Entry, l: Label, now: int)
    ensures WithLabel(entries + [e], l, now) == WithLabel(entries, l, now) + if DayLabel(e.time, now) == l then [e]
      else []
  {
    assert (entries + [e])[..|entries + [e]| - 1] == entries;
  }

  /** One more entry goes into one group, if its label is there. */
  lemma {:induction false} RegroupedSnoc(entries: seq<Entry>, e: Entry, labels: seq<Label>, now: int)
    requires InOrder(labels)
    ensures multiset(Regrouped(entries + [e], labels, now)) ==
      multiset(Regrouped(entries, labels, now)) + if DayLabel(e.time, now) in labels then multiset(e.events)
        else multiset{}
  {
    hide WithLabel, DayLabel, Flat, LabelBefore;
    if labels != [] {
      RegroupedSnoc(entries, e, labels[1..], now);
      WithLabelSnoc(entries, e, labels[0], now);
      var l := DayLabel(e.time, now);
      assert l in labels <==> l == labels[0] || l in labels[1..] by { assert labels == [labels[0]] + labels[1..]; }
      var mine := WithLabel(entries, labels[0], now);
      if l == labels[0] {
        FlatSnoc(mine, e);
        FirstOnce(labels);
      } else {
        assert WithLabel(entries + [e], labels[0], now) == mine + [] == mine;
      }
    }
  }

  lemma FirstOnce(labels: seq<Label>)
    requires InOrder(labels) && labels != []
    ensures labels[0] !in labels[1..]
  {}

  lemma {:induction false} RegroupingConserves(entries: seq<Entry>, labels: seq<Label>, now: int)
    requires InOrder(labels) && forall e :: e in entries ==> DayLabel(e.time, now) in labels
    ensures multiset(Regrouped(entries, labels, now)) == multiset(Flat(entries))
  {
    hide DayLabel;
    if entries == [] {
      RegroupedNothing(labels, now);
    } else {
      var front, last := entries[..|entries| - 1], entries[|entries| - 1];
      assert entries == front + [last] && last in entries;
      RegroupingConserves(front, labels, now);
      RegroupedSnoc(front, last, labels, now);
    }
  }

  lemma {:induction false} RegroupedNothing(labels: seq<Label>, now: int)
    ensures Regrouped([], labels, now) == []
  {
    if labels != [] {
      RegroupedNothing(labels[1..], now);
    }
  }

  /** `group_entries_by_day`: each group holds exactly the entries of its label, in their order;
      the labels come once each, tomorrow, today and yesterday first; nothing is lost. */
  method GroupByDay(entries: seq<Entry>, now: int) returns (groups: seq<Group>)
    ensures forall i, j :: 0 <= i < j < |groups| ==> LabelBefore(groups[i].day, groups[j].day)
    ensures forall g :: g in groups ==> g.entries == WithLabel(entries, g.day, now) && g.entries != []
    ensures forall e :: e in entries ==> exists g :: g in groups && g.day == DayLabel(e.time, now) && e in g.entries
    ensures multiset(FlatGroups(groups)) == multiset(Flat(entries))
  {
    hide DayLabel, WithLabel, LabelBefore, InsertLabel;
    var buckets: map<Label, seq<Entry>> := map[];
    var labels: seq<Label> := [];
    var i := 0;
    NothingLabelled(now);
    while i < |entries|
      invariant 0 <= i <= |entries| && InOrder(labels)
      invariant forall l :: l in labels <==> l in buckets
      invariant forall l :: l in buckets ==> buckets[l] == WithLabel(entries[..i], l, now) && buckets[l] != []
      invariant forall e :: e in entries[..i] ==>
        DayLabel(e.time, now) in buckets && e in buckets[DayLabel(e.time, now)]
      invariant forall l :: l !in buckets ==> WithLabel(entries[..i], l, now) == []
    {
      var e := entries[i];
      var l := DayLabel(e.time, now);
      assert entries[..i + 1] == entries[..i] + [e];
      AddToBuckets(entries[..i], e, now);
      if l !in buckets {
        InsertLabelFacts(labels, l);
        labels := InsertLabel(labels, l);
        buckets := buckets[l := []];
      }
      buckets := buckets[l := buckets[l] + [e]];
      i := i + 1;
    }
    assert entries[..i] == entries;
    groups := Collect(entries, labels, buckets, now);
    RegroupingConserves(entries, labels, now);
    forall e | e in entries ensures exists g :: g in groups && g.day == DayLabel(e.time, now) && e in g.entries {
      var l := DayLabel(e.time, now);
      var k :| 0 <= k < |labels| && labels[k] == l;
      assert groups[k] in groups;
    }
  }

  lemma NothingLabelled(now: int)
    ensures forall l :: WithLabel([], l, now) == []
  {}

  lemma AddToBuckets(entries: seq<Entry>, e: Entry, now: int)
    ensures forall l :: WithLabel(entries + [e], l, now) == WithLabel(entries, l, now) + if DayLabel(e.time, now) == l
      then [e] else []
  {
    hide WithLabel, DayLabel;
    forall l ensures WithLabel(entries + [e], l, now) == WithLabel(entries, l, now) + if DayLabel(e.time, now) == l
      then [e] else []
    {
      WithLabelSnoc(entries, e, l, now);
    }
  }

  method Collect(entries: seq<Entry>, labels: seq<Label>, buckets: map<Label, seq<Entry>>,
      now: int) returns (groups: seq<Group>)
    requires InOrder(labels) && forall l :: l in labels ==> l in buckets
    requires forall l :: l in buckets ==> buckets[l] == WithLabel(entries, l, now) && buckets[l] != []
    ensures |groups| == |labels|
    ensures forall i :: 0 <= i < |groups| ==>
      groups[i] == Group(labels[i], WithLabel(entries, labels[i], now)) && groups[i].entries != []
    ensures FlatGroups(groups) == Regrouped(entries, labels, now)
  {
    hide WithLabel, Flat;
    groups := [];
    var i := |labels|;
    while i > 0
      invariant 0 <= i <= |labels| && |groups| == |labels| - i
      invariant forall k :: 0 <= k < |groups| ==>
        groups[k] == Group(labels[i + k], WithLabel(entries, labels[i + k], now)) && groups[k].entries != []
      invariant FlatGroups(groups) == Regrouped(entries, labels[i..], now)
    {
      i := i - 1;
      assert labels[i] in labels && labels[i..][1..] == labels[i + 1..];
      var g := Group(labels[i], buckets[labels[i]]);
      assert ([g] + groups)[1..] == groups;
      groups := [g] + groups;
    }
    assert labels[0..] == labels;
  }

  /** The label is right for every event of the entry, not only the first. */
  lemma LabelFitsAll(e: Entry, x: Ev, now: int)
    requires WellMade(e) && x in e.events
    ensures DayLabel(x.time, now) == DayLabel(e.time, now)
  {
    if |e.events| > 1 {
      assert Joins(e.events[0], x);
    } else {
      assert x == e.events[0];
    }
  }

  /** The timeline as a whole: the events told, each as often as in the log, each under the label
      of its own day. */
  method BuildTimeline(events: seq<Ev>, now: int) returns (groups: seq<Group>)
    ensures multiset(FlatGroups(groups)) == multiset(Visible(events))
    ensures forall g, e, x :: g in groups && e in g.entries && x in e.events ==> DayLabel(x.time, now) == g.day
    ensures forall i, j :: 0 <= i < j < |groups| ==> LabelBefore(groups[i].day, groups[j].day)
  {
    hide DayLabel, WellMade, IsRun, LabelBefore, Visible, FlatGroups;
    var entries := BuildEntries(events);
    groups := GroupByDay(entries, now);
    forall g, e, x | g in groups && e in g.entries && x in e.events ensures DayLabel(x.time, now) == g.day {
      WithLabelElements(entries, g.day, now);
      LabelFitsAll(e, x, now);
    }
  }

  lemma {:induction false} WithLabelElements(entries: seq<Entry>, l: Label, now: int)
    ensures forall e :: e in WithLabel(entries, l, now) <==> e in entries && DayLabel(e.time, now) == l
  {
    hide DayLabel;
    if entries != [] {
      WithLabelElements(entries[..|entries| - 1], l, now);
      assert entries == entries[..|entries| - 1] + [entries[|entries| - 1]];
    }
  }

  // ------------------------------------------------------------------
  // What days, labels and runs are
  // ------------------------------------------------------------------

  /** A day is 86400 seconds long and starts at midnight, also before the epoch. */
  lemma DayMeans(time: int)
    ensures 86400 * Day(time) <= time < 86400 * (Day(time) + 1)
  {}

  /** Today, yesterday and tomorrow are the days around now, and every other day is named itself, so
      that two times have one label exactly when they lie on one day. */
  lemma LabelMeans(time: int, other: int, now: int)
    ensures DayLabel(time, now) == Today <==> Day(time) == Day(now)
    ensures DayLabel(time, now) == Yesterday <==> Day(time) + 1 == Day(now)
    ensures DayLabel(time, now) == Tomorrow <==> Day(time) == Day(now) + 1
    ensures DayLabel(time, now).OnDay? ==> DayLabel(time, now).day == Day(time)
    ensures DayLabel(time, now) == DayLabel(other, now) <==> Day(time) == Day(other)
  {
    hide Day;
  }

  /** Tomorrow comes first, then today, then yesterday, then the other days from the earliest on. */
  lemma LabelsInOrder(d: int, e: int)
    ensures LabelBefore(Tomorrow, Today) && LabelBefore(Today, Yesterday) && LabelBefore(Yesterday, OnDay(d))
    ensures LabelBefore(OnDay(d), OnDay(e)) <==> d < e
    ensures forall l, m :: LabelBefore(l, m) ==> !LabelBefore(m, l)
  {}

  /** Two events are memory events of one plugin, key and day. */
  predicate Alike(x: Ev, y: Ev) {
    x.MemoryStored? && y.MemoryStored? && x.plugin == y.plugin && x.key == y.key && Day(x.time) == Day(y.time)
  }

  /** An entry for more than one event stands for memory events of one plugin, key and day that follow
      each other in the log, and the events before and after it are not like them. */
  lemma RunMeans(events: seq<Ev>, e: Entry, from: nat, to: nat)
    requires WellMade(e) && IsRun(events, e, from, to)
    ensures e.events == events[from..to] && e.time == events[from].time
    ensures to > from + 1 ==> forall i, j :: from <= i < to && from <= j < to ==> Alike(events[i], events[j])
    ensures from > 0 ==> !Alike(events[from - 1], events[from])
    ensures to < |events| ==> !Alike(events[to - 1], events[to])
  {
    hide Day;
    if to > from + 1 {
      forall i, j | from <= i < to && from <= j < to ensures Alike(events[i], events[j]) {
        assert e.events[i - from] in e.events && e.events[j - from] in e.events;
        assert Joins(e.events[0], e.events[i - from]) && Joins(e.events[0], e.events[j - from]);
      }
    }
  }
}
