/**
 * The collaborators the diagnostics decorator talks to. Their implementations
 * live outside the modelled files, so each is reduced to the state the
 * decorator reads and writes: the diagnostics collector (a timetable of lap
 * times and a keyed table of report sections), the wrapped host (whose start
 * and stop outcome is not known in advance) and the modules of the boot
 * sequence that contribute their own diagnostics.
 *
 * A ghost Journal shared by all of them records every call they receive, so
 * that the order in which the decorator calls them can be stated.
 */
module Collaborators {
  import opened Wrappers

  /** One timetable entry: its name, the clock reading in ticks, and the ticks since the previous lap. */
  datatype LapTime = LapTime(name: string, at: int, elapsed: int)

  /** A value section: its headline and the lines written into its text buffer. */
  datatype Section = Section(headline: string, lines: seq<string>)

  /** A section together with the key it is stored under. */
  datatype SectionEntry = SectionEntry(key: string, section: Section)

  /**
   * The collector's named sections: a later write under a key replaces the
   * section stored there, and sections are listed in the order their keys
   * were first written.
   */
  datatype SectionTable = SectionTable(byKey: map<string, Section>, order: seq<string>) {
    ghost predicate Valid() {
      && (forall k :: k in byKey <==> k in order)
      && (forall i, j :: 0 <= i < j < |order| ==> order[i] != order[j])
    }

    function Get(key: string): (r: Option<Section>)
      ensures r.Some? <==> key in byKey
      ensures r.Some? ==> r.value == byKey[key]
    {
      if key in byKey then Some(byKey[key]) else None
    }

    function Put(key: string, s: Section): (t: SectionTable)
      ensures order <= t.order
      ensures key in byKey ==> t.order == order
      ensures Valid() ==> t.Valid()
    {
      SectionTable(byKey[key := s], if key in byKey then order else order + [key])
    }

    /** After a write, the key holds the new section and every other key what it held before. */
    lemma PutGet(key: string, s: Section, k: string)
      ensures Put(key, s).Get(k) == if k == key then Some(s) else Get(k)
    {
    }

    /** The stored sections, in first-write order. */
    function InOrder(): (ss: seq<Section>)
      requires Valid()
      ensures |ss| == |order|
      ensures forall i :: 0 <= i < |order| ==> ss[i] == byKey[order[i]]
    {
      seq(|order|, i requires 0 <= i < |order| => byKey[order[i]])
    }
  }

  /** The table after writing every entry of `entries`, first to last. */
  function AddAll(t: SectionTable, entries: seq<SectionEntry>): (r: SectionTable)
    ensures t.Valid() ==> r.Valid()
    ensures t.order <= r.order
  {
    if entries == [] then t
    else
      var last := entries[|entries| - 1];
      AddAll(t, entries[..|entries| - 1]).Put(last.key, last.section)
  }

  lemma {:induction false} AddAllConcat(t: SectionTable, a: seq<SectionEntry>, b: seq<SectionEntry>)
    ensures AddAll(t, a + b) == AddAll(AddAll(t, a), b)
    decreases |b|
  {
    if b == [] {
      assert a + b == a;
    } else {
      var last := b[|b| - 1];
      assert (a + b)[..|a + b| - 1] == a + b[..|b| - 1];
      AddAllConcat(t, a, b[..|b| - 1]);
    }
  }

  /** A later entry under a key wins over every earlier one, whatever the starting table. */
  lemma {:induction false} AddAllLastWins(t: SectionTable, entries: seq<SectionEntry>, i: nat)
    requires i < |entries|
    requires forall j :: i < j < |entries| ==> entries[j].key != entries[i].key
    ensures AddAll(t, entries).Get(entries[i].key) == Some(entries[i].section)
    decreases |entries|
  {
    var last := entries[|entries| - 1];
    if i < |entries| - 1 {
      AddAllLastWins(t, entries[..|entries| - 1], i);
    }
    AddAll(t, entries[..|entries| - 1]).PutGet(last.key, last.section, entries[i].key);
  }

  /** Writing entries under other keys leaves a key's section as it was. */
  lemma {:induction false} AddAllUntouched(t: SectionTable, entries: seq<SectionEntry>, key: string)
    requires forall j :: 0 <= j < |entries| ==> entries[j].key != key
    ensures AddAll(t, entries).Get(key) == t.Get(key)
    decreases |entries|
  {
    if entries != [] {
      var last := entries[|entries| - 1];
      AddAllUntouched(t, entries[..|entries| - 1], key);
      AddAll(t, entries[..|entries| - 1]).PutGet(last.key, last.section, key);
    }
  }

  /** Regrouping a concatenation; the solver does not find this on its own in larger proofs. */
  lemma ConcatAssoc<T>(a: seq<T>, b: seq<T>, c: seq<T>)
    ensures (a + b) + c == a + (b + c)
  {
  }

  /** The calls the collaborators receive, in the order they receive them. */
  datatype Event =
    | Lap(name: string)
    | TimetableCleared
    | SectionAdded(key: string)
    | InnerStart
    | InnerStop
    | InnerDispose
    | Diagnosed(moduleName: string)

  class Journal {
    ghost var events: seq<Event>

    constructor ()
      ensures events == []
    {
      events := [];
    }
  }

  /** The AddSection calls that writing `entries` one by one produces. */
  function SectionEvents(entries: seq<SectionEntry>): seq<Event>
  {
    if entries == [] then []
    else SectionEvents(entries[..|entries| - 1]) + [SectionAdded(entries[|entries| - 1].key)]
  }

  /** The outcome of an asynchronous start or stop: it completes or it throws. */
  datatype Outcome = Completed | Faulted

  /** A lap registered by someone other than the decorator: its name and clock reading. */
  datatype Mark = Mark(name: string, at: int)

  /** The lap the `k`-th mark becomes: measured against the mark before it, the first against `prev`. */
  function MarkLap(prev: int, marks: seq<Mark>, k: nat): LapTime
    requires k < |marks|
  {
    LapTime(marks[k].name, marks[k].at, marks[k].at - if k == 0 then prev else marks[k - 1].at)
  }

  /** The RegisterLapTime calls that registering `marks` one by one produces. */
  function LapEvents(marks: seq<Mark>): seq<Event>
  {
    if marks == [] then []
    else LapEvents(marks[..|marks| - 1]) + [Lap(marks[|marks| - 1].name)]
  }

  /**
   * The wrapped host. It shares the process-wide collector with the
   * decorator: while it starts or stops, the modules it drives register laps
   * there. Which laps, and whether the start or stop completes, is not known
   * to the decorator.
   */
  class InnerHost {
    const journal: Journal
    const collector: DiagnosticsCollector
    /** Identity of the host's service provider. */
    const services: nat
    var disposed: bool

    constructor (journal: Journal, collector: DiagnosticsCollector, services: nat)
      ensures this.journal == journal && this.collector == collector && this.services == services && !disposed
    {
      this.journal := journal;
      this.collector := collector;
      this.services := services;
      disposed := false;
    }

    /** Registers some laps in the shared collector (possibly none), then completes or faults. */
    method StartAsync() returns (o: Outcome, marks: seq<Mark>)
      requires collector.Valid() && collector.journal == journal
      modifies collector, journal
      ensures collector.Valid()
      ensures collector.State() == old(collector.State()).WithMarks(marks)
      ensures journal.events == old(journal.events) + [InnerStart] + LapEvents(marks)
    {
      journal.events := journal.events + [InnerStart];
      marks :| true;
      RegisterAll(collector, marks);
      o :| true;
    }

    /** Registers some laps in the shared collector (possibly none), then completes or faults. */
    method StopAsync() returns (o: Outcome, marks: seq<Mark>)
      requires collector.Valid() && collector.journal == journal
      modifies collector, journal
      ensures collector.Valid()
      ensures collector.State() == old(collector.State()).WithMarks(marks)
      ensures journal.events == old(journal.events) + [InnerStop] + LapEvents(marks)
    {
      journal.events := journal.events + [InnerStop];
      marks :| true;
      RegisterAll(collector, marks);
      o :| true;
    }

    method Dispose()
      modifies this, journal
      ensures disposed
      ensures journal.events == old(journal.events) + [InnerDispose]
    {
      disposed := true;
      journal.events := journal.events + [InnerDispose];
    }
  }

  /** Registers `marks` in the collector one RegisterLapTime call at a time. */
  method RegisterAll(collector: DiagnosticsCollector, marks: seq<Mark>)
    requires collector.Valid()
    modifies collector, collector.journal
    ensures collector.Valid()
    ensures collector.State() == old(collector.State()).WithMarks(marks)
    ensures collector.journal.events == old(collector.journal.events) + LapEvents(marks)
  {
    var i := 0;
    while i < |marks|
      invariant 0 <= i <= |marks|
      invariant collector.Valid()
      invariant collector.State() == old(collector.State()).WithMarks(marks[..i])
      invariant collector.journal.events == old(collector.journal.events) + LapEvents(marks[..i])
    {
      ghost var prefix := marks[..i + 1];
      assert prefix[..i] == marks[..i] && prefix[i] == marks[i];
      collector.RegisterLapTime(marks[i].name, marks[i].at);
      i := i + 1;
    }
    assert marks[..i] == marks;
  }

  /** What the collector holds: the timetable, the clock reading of the last lap, and the sections. */
  datatype CollectorState = CollectorState(timetable: seq<LapTime>, lastAt: int, sections: SectionTable) {
    ghost predicate Valid() {
      sections.Valid()
    }

    /** A lap appended at clock reading `now`, measured against the previous one. */
    function WithLap(name: string, now: int): CollectorState
    {
      this.(timetable := timetable + [LapTime(name, now, now - lastAt)], lastAt := now)
    }

    /** The laps of `marks` appended one by one, each measured against the one before. */
    function WithMarks(marks: seq<Mark>): CollectorState
      decreases |marks|
    {
      if marks == [] then this
      else WithMarks(marks[..|marks| - 1]).WithLap(marks[|marks| - 1].name, marks[|marks| - 1].at)
    }

    /**
     * Registering `marks` keeps the sections and the earlier laps, and appends
     * one lap per mark, in order, the first measured against the last reading
     * and every other against the mark before it.
     */
    lemma {:induction false} WithMarksShape(marks: seq<Mark>)
      ensures var r := WithMarks(marks);
        && r.sections == sections
        && |r.timetable| == |timetable| + |marks|
        && r.timetable[..|timetable|] == timetable
        && (forall k :: 0 <= k < |marks| ==> r.timetable[|timetable| + k] == MarkLap(lastAt, marks, k))
        && r.lastAt == (if marks == [] then lastAt else marks[|marks| - 1].at)
      decreases |marks|
    {
      if marks != [] {
        var init := marks[..|marks| - 1];
        WithMarksShape(init);
        var p := WithMarks(init);
        var m := marks[|marks| - 1];
        var t := p.timetable + [LapTime(m.name, m.at, m.at - p.lastAt)];
        assert WithMarks(marks) == p.WithLap(m.name, m.at);
        assert WithMarks(marks).timetable == t;
        assert t[..|timetable|] == p.timetable[..|timetable|];
        forall k | 0 <= k < |marks|
          ensures t[|timetable| + k] == MarkLap(lastAt, marks, k)
        {
          if k < |init| {
            assert t[|timetable| + k] == p.timetable[|timetable| + k] == MarkLap(lastAt, init, k);
            assert init[k] == marks[k] && (k > 0 ==> init[k - 1] == marks[k - 1]);
          } else {
            assert k > 0 ==> init[k - 1] == marks[k - 1];
          }
        }
      }
    }

    function Cleared(): CollectorState
    {
      this.(timetable := [])
    }

    function WithSection(key: string, s: Section): CollectorState
    {
      this.(sections := sections.Put(key, s))
    }

    function WithSections(entries: seq<SectionEntry>): CollectorState
    {
      this.(sections := AddAll(sections, entries))
    }
  }

  /**
   * The diagnostics collector: lap times are appended to the timetable, each
   * measured against the previous lap (the first against the collector's
   * creation); sections are written into a SectionTable.
   */
  class DiagnosticsCollector {
    const journal: Journal
    var timetable: seq<LapTime>
    var lastAt: int
    var sections: SectionTable

    ghost predicate Valid()
      reads this
    {
      sections.Valid()
    }

    function State(): (s: CollectorState)
      reads this
      ensures s.timetable == timetable && s.lastAt == lastAt && s.sections == sections
    {
      CollectorState(timetable, lastAt, sections)
    }

    constructor (journal: Journal, createdAt: int)
      ensures Valid() && this.journal == journal
      ensures State() == CollectorState([], createdAt, SectionTable(map[], []))
    {
      this.journal := journal;
      timetable := [];
      lastAt := createdAt;
      sections := SectionTable(map[], []);
    }

    method RegisterLapTime(name: string, now: int)
      requires Valid()
      modifies this, journal
      ensures Valid()
      ensures State() == old(State()).WithLap(name, now)
      ensures journal.events == old(journal.events) + [Lap(name)]
    {
      timetable := timetable + [LapTime(name, now, now - lastAt)];
      lastAt := now;
      journal.events := journal.events + [Lap(name)];
    }

    method ClearTimetable()
      requires Valid()
      modifies this, journal
      ensures Valid()
      ensures State() == old(State()).Cleared()
      ensures journal.events == old(journal.events) + [TimetableCleared]
    {
      timetable := [];
      journal.events := journal.events + [TimetableCleared];
    }

    method AddSection(key: string, section: Section)
      requires Valid()
      modifies this, journal
      ensures Valid()
      ensures State() == old(State()).WithSection(key, section)
      ensures journal.events == old(journal.events) + [SectionAdded(key)]
    {
      sections := sections.Put(key, section);
      journal.events := journal.events + [SectionAdded(key)];
    }

    function Get(key: string): (r: Option<Section>)
      reads this
      ensures r == sections.Get(key)
    {
      sections.Get(key)
    }

    function Sections(): (ss: seq<Section>)
      reads this
      requires Valid()
      ensures |ss| == |sections.order|
      ensures forall i :: 0 <= i < |ss| ==> ss[i] == sections.byKey[sections.order[i]]
    {
      sections.InOrder()
    }
  }

  /**
   * A module of the boot sequence: its name and, when it takes part in
   * diagnostics, the sections its Diagnose call writes into the collector.
   */
  datatype BootModule = BootModule(name: string, diagnostics: Option<seq<SectionEntry>>)

  function Names(modules: seq<BootModule>): (names: seq<string>)
    ensures |names| == |modules|
    ensures forall i :: 0 <= i < |modules| ==> names[i] == modules[i].name
  {
    seq(|modules|, i requires 0 <= i < |modules| => modules[i].name)
  }

  /** The sections a module contributes (none when it does not take part in diagnostics). */
  function Contributions(m: BootModule): seq<SectionEntry>
  {
    if m.diagnostics.Some? then m.diagnostics.value else []
  }

  /** The sections the whole boot sequence contributes, module by module. */
  function Contributed(modules: seq<BootModule>): seq<SectionEntry>
  {
    if modules == [] then []
    else Contributed(modules[..|modules| - 1]) + Contributions(modules[|modules| - 1])
  }

  /** The calls one module's diagnostics produce: its Diagnose call, then the sections it adds. */
  function ModuleEvents(m: BootModule): seq<Event>
  {
    if m.diagnostics.Some? then [Diagnosed(m.name)] + SectionEvents(m.diagnostics.value) else []
  }

  function DiagnoseEvents(modules: seq<BootModule>): seq<Event>
  {
    if modules == [] then []
    else DiagnoseEvents(modules[..|modules| - 1]) + ModuleEvents(modules[|modules| - 1])
  }

  lemma ContributedStep(modules: seq<BootModule>, i: nat)
    requires i < |modules|
    ensures Contributed(modules[..i + 1]) == Contributed(modules[..i]) + Contributions(modules[i])
    ensures DiagnoseEvents(modules[..i + 1]) == DiagnoseEvents(modules[..i]) + ModuleEvents(modules[i])
  {
    assert modules[..i + 1][..i] == modules[..i];
  }

  /** A diagnostics module's Diagnose call: it writes its sections into the collector, in order. */
  method Diagnose(m: BootModule, collector: DiagnosticsCollector)
    requires m.diagnostics.Some? && collector.Valid()
    modifies collector, collector.journal
    ensures collector.Valid()
    ensures collector.State() == old(collector.State()).WithSections(Contributions(m))
    ensures collector.journal.events == old(collector.journal.events) + ModuleEvents(m)
  {
    collector.journal.events := collector.journal.events + [Diagnosed(m.name)];
    AddEntries(collector, m.diagnostics.value);
  }

  /** Writes `entries` into the collector one AddSection call at a time. */
  method AddEntries(collector: DiagnosticsCollector, entries: seq<SectionEntry>)
    requires collector.Valid()
    modifies collector, collector.journal
    ensures collector.Valid()
    ensures collector.State() == old(collector.State()).WithSections(entries)
    ensures collector.journal.events == old(collector.journal.events) + SectionEvents(entries)
  {
    var i := 0;
    while i < |entries|
      invariant 0 <= i <= |entries|
      invariant collector.Valid()
      invariant collector.State() == old(collector.State()).WithSections(entries[..i])
      invariant collector.journal.events == old(collector.journal.events) + SectionEvents(entries[..i])
    {
      ghost var prefix := entries[..i + 1];
      assert prefix[..i] == entries[..i] && prefix[i] == entries[i];
      collector.AddSection(entries[i].key, entries[i].section);
      i := i + 1;
    }
    assert entries[..i] == entries;
  }
}
