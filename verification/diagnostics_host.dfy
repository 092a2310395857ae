/**
 * The startup/shutdown diagnostics decorator: a host that wraps another host,
 * records lap times around the wrapped host's start and stop, and renders a
 * report of named sections (Flags, Modules, Timetable and whatever the
 * diagnostics modules of the boot sequence add).
 */
module Diagnostics {
  import opened Wrappers
  import opened Collaborators
  import opened Rendering

  const TimetableSectionKey := "Timetable"

  /** What the decorator reads from its other collaborators: the flags, the module lists and the boot sequence. */
  datatype Setup = Setup(flags: RuntimeFlags, enabledModules: seq<string>, disabledModules: seq<string>,
                         bootSequence: seq<BootModule>)

  /** AddTimetableSection: the timetable rendered into the Timetable section, then emptied. */
  function WithTimetableSection(s: CollectorState): CollectorState
  {
    s.Cleared().WithSection(TimetableSectionKey, TimetableSection(s.timetable))
  }

  /**
   * The collector after a start whose wrapped host completed, having itself
   * registered the laps `inner` between "Host starting" and "Host started".
   */
  function Startup(s: CollectorState, setup: Setup, startingAt: int, inner: seq<Mark>, startedAt: int): CollectorState
  {
    var started := s.WithLap("Host starting", startingAt).WithMarks(inner).WithLap("Host started", startedAt);
    WithTimetableSection(
      started.WithSection("Flags", FlagsSection(setup.flags))
             .WithSection("Modules", ModulesSection(setup.enabledModules, setup.disabledModules, Names(setup.bootSequence))))
      .WithSections(Contributed(setup.bootSequence))
  }

  /** The collector after a stop whose wrapped host completed, having itself registered the laps `inner`. */
  function Shutdown(s: CollectorState, stoppingAt: int, inner: seq<Mark>, stoppedAt: int): CollectorState
  {
    WithTimetableSection(s.WithLap("Host stopping", stoppingAt).WithMarks(inner).WithLap("Host stopped", stoppedAt))
  }

  /** The calls a completed start makes on the collector, the wrapped host and the diagnostics modules. */
  function StartupEvents(setup: Setup, inner: seq<Mark>): seq<Event>
  {
    [Lap("Host starting"), InnerStart] + LapEvents(inner) + AfterStartCalls + DiagnoseEvents(setup.bootSequence)
  }

  /** The calls of a completed start between the wrapped host's return and the diagnostics modules. */
  const AfterStartCalls: seq<Event> :=
    [Lap("Host started"), SectionAdded("Flags"), SectionAdded("Modules"), TimetableCleared, SectionAdded(TimetableSectionKey)]

  lemma AfterStartCallsInOrder(e: seq<Event>)
    ensures e + [Lap("Host started")] + [SectionAdded("Flags")] + [SectionAdded("Modules")]
      + [TimetableCleared, SectionAdded(TimetableSectionKey)]
      == e + AfterStartCalls
  {
    var tail := [Lap("Host started")] + [SectionAdded("Flags")] + [SectionAdded("Modules")]
      + [TimetableCleared, SectionAdded(TimetableSectionKey)];
    assert tail == AfterStartCalls;
  }

  /** The calls a completed stop makes on the collector and the wrapped host. */
  function ShutdownEvents(inner: seq<Mark>): seq<Event>
  {
    [Lap("Host stopping"), InnerStop] + LapEvents(inner) + [Lap("Host stopped"), TimetableCleared, SectionAdded(TimetableSectionKey)]
  }

  /**
   * The timetable with the laps of a start or a stop appended: `first`, then
   * the wrapped host's own laps, then `second`, each measured against the lap
   * before it.
   */
  function Bracketed(s: CollectorState, first: string, firstAt: int, inner: seq<Mark>, second: string, secondAt: int)
    : (laps: seq<LapTime>)
    ensures |laps| == |s.timetable| + |inner| + 2 && laps[..|s.timetable|] == s.timetable
    ensures laps[|s.timetable|] == LapTime(first, firstAt, firstAt - s.lastAt)
    ensures forall k :: 0 <= k < |inner| ==> laps[|s.timetable| + 1 + k] == MarkLap(firstAt, inner, k)
    ensures laps[|laps| - 1]
      == LapTime(second, secondAt, secondAt - if inner == [] then firstAt else inner[|inner| - 1].at)
  {
    var p := s.WithLap(first, firstAt);
    p.WithMarksShape(inner);
    var q := p.WithMarks(inner);
    assert q.timetable[..|s.timetable|] == q.timetable[..|p.timetable|][..|s.timetable|];
    q.WithLap(second, secondAt).timetable
  }

  /**
   * After a completed start the timetable is empty, and the Timetable section
   * (unless a diagnostics module overwrites it) holds exactly one line per lap
   * recorded before the clear, "Host starting", the wrapped host's own laps
   * and "Host started" last, each line ending with its lap's name.
   */
  lemma StartupTimetable(s: CollectorState, setup: Setup, startingAt: int, inner: seq<Mark>, startedAt: int)
    requires forall j :: 0 <= j < |Contributed(setup.bootSequence)| ==> Contributed(setup.bootSequence)[j].key != TimetableSectionKey
    ensures var r := Startup(s, setup, startingAt, inner, startedAt);
      var laps := Bracketed(s, "Host starting", startingAt, inner, "Host started", startedAt);
      && r.timetable == [] && r.lastAt == startedAt
      && r.sections.Get(TimetableSectionKey) == Some(TimetableSection(laps))
      && |TimetableSection(laps).lines| == |laps|
      && forall i :: 0 <= i < |laps| ==>
           var line := TimetableSection(laps).lines[i];
           |laps[i].name| < |line| && line[|line| - |laps[i].name|..] == laps[i].name
  {
    var laps := Bracketed(s, "Host starting", startingAt, inner, "Host started", startedAt);
    var started := s.WithLap("Host starting", startingAt).WithMarks(inner).WithLap("Host started", startedAt);
    assert started.timetable == laps;
    var named := started.WithSection("Flags", FlagsSection(setup.flags))
      .WithSection("Modules", ModulesSection(setup.enabledModules, setup.disabledModules, Names(setup.bootSequence)));
    var t := WithTimetableSection(named);
    assert t.sections.byKey[TimetableSectionKey] == TimetableSection(laps);
    AddAllUntouched(t.sections, Contributed(setup.bootSequence), TimetableSectionKey);
    forall i | 0 <= i < |laps| {
      TimetableLineShape(laps[i]);
    }
  }

  /** Flags, Modules and Timetable written into an empty table are listed in that order. */
  lemma FixedKeys(flags: Section, modules: Section, timetable: Section)
    ensures SectionTable(map[], []).Put("Flags", flags).Put("Modules", modules).Put(TimetableSectionKey, timetable).order
      == ["Flags", "Modules", TimetableSectionKey]
  {
    var t1 := SectionTable(map[], []).Put("Flags", flags);
    assert t1.order == ["Flags"] && t1.byKey == map["Flags" := flags];
    var t2 := t1.Put("Modules", modules);
    assert "Modules" !in t1.byKey;
    assert t2.order == ["Flags", "Modules"] && t2.byKey == t1.byKey["Modules" := modules];
    assert TimetableSectionKey !in t2.byKey;
  }

  /** Keys listed first in a table keep their places ahead of whatever is written after them. */
  lemma FixedOrder(t: SectionTable, entries: seq<SectionEntry>)
    requires t.order == ["Flags", "Modules", TimetableSectionKey]
    ensures var r := AddAll(t, entries); |r.order| >= 3 && r.order[..3] == t.order
  {
    assert t.order <= AddAll(t, entries).order;
  }

  /**
   * On a collector with no sections yet, a completed start lists Flags,
   * Modules and Timetable first, in that order, whatever the diagnostics
   * modules add after them.
   */
  lemma StartupOrder(s: CollectorState, setup: Setup, startingAt: int, inner: seq<Mark>, startedAt: int)
    requires s.sections == SectionTable(map[], [])
    ensures var r := Startup(s, setup, startingAt, inner, startedAt);
      |r.sections.order| >= 3 && r.sections.order[..3] == ["Flags", "Modules", TimetableSectionKey]
  {
    var laps := Bracketed(s, "Host starting", startingAt, inner, "Host started", startedAt);
    var p := s.WithLap("Host starting", startingAt);
    p.WithMarksShape(inner);
    var started := p.WithMarks(inner).WithLap("Host started", startedAt);
    assert started.timetable == laps && started.sections == s.sections;
    var named := started.WithSection("Flags", FlagsSection(setup.flags))
      .WithSection("Modules", ModulesSection(setup.enabledModules, setup.disabledModules, Names(setup.bootSequence)));
    FixedKeys(FlagsSection(setup.flags),
              ModulesSection(setup.enabledModules, setup.disabledModules, Names(setup.bootSequence)),
              TimetableSection(laps));
    FixedOrder(WithTimetableSection(named).sections, Contributed(setup.bootSequence));
  }

  /**
   * The Flags and Modules sections hold what the flags and the module lists
   * say, unless a diagnostics module overwrites them.
   */
  lemma StartupSections(s: CollectorState, setup: Setup, startingAt: int, inner: seq<Mark>, startedAt: int)
    requires forall j :: 0 <= j < |Contributed(setup.bootSequence)| ==>
      Contributed(setup.bootSequence)[j].key != "Flags" && Contributed(setup.bootSequence)[j].key != "Modules"
    ensures var r := Startup(s, setup, startingAt, inner, startedAt);
      && r.sections.Get("Flags") == Some(FlagsSection(setup.flags))
      && r.sections.Get("Modules")
         == Some(ModulesSection(setup.enabledModules, setup.disabledModules, Names(setup.bootSequence)))
  {
    var started := s.WithLap("Host starting", startingAt).WithMarks(inner).WithLap("Host started", startedAt);
    var named := started.WithSection("Flags", FlagsSection(setup.flags))
      .WithSection("Modules", ModulesSection(setup.enabledModules, setup.disabledModules, Names(setup.bootSequence)));
    var t := WithTimetableSection(named);
    assert "Flags" != TimetableSectionKey && "Modules" != TimetableSectionKey && "Flags" != "Modules";
    assert t.sections.byKey["Flags"] == FlagsSection(setup.flags);
    AddAllUntouched(t.sections, Contributed(setup.bootSequence), "Flags");
    AddAllUntouched(t.sections, Contributed(setup.bootSequence), "Modules");
  }

  /**
   * A completed stop empties the timetable and replaces the Timetable section
   * with one line per lap recorded since the last clear, "Host stopping", the
   * wrapped host's own laps and "Host stopped" last; every other section is
   * left as it was.
   */
  lemma ShutdownTimetable(s: CollectorState, stoppingAt: int, inner: seq<Mark>, stoppedAt: int, key: string)
    ensures var r := Shutdown(s, stoppingAt, inner, stoppedAt);
      var laps := Bracketed(s, "Host stopping", stoppingAt, inner, "Host stopped", stoppedAt);
      && r.timetable == [] && r.lastAt == stoppedAt
      && r.sections.Get(TimetableSectionKey) == Some(TimetableSection(laps))
      && (key != TimetableSectionKey ==> r.sections.Get(key) == s.sections.Get(key))
  {
    var p := s.WithLap("Host stopping", stoppingAt);
    p.WithMarksShape(inner);
    var stopped := p.WithMarks(inner).WithLap("Host stopped", stoppedAt);
    assert stopped.timetable == Bracketed(s, "Host stopping", stoppingAt, inner, "Host stopped", stoppedAt);
    assert stopped.sections == s.sections;
    stopped.sections.PutGet(TimetableSectionKey, TimetableSection(stopped.timetable), key);
  }

  class DiagnosticsHost {
    /** The wrapped host. */
    const host: InnerHost
    const collector: DiagnosticsCollector
    /** The runtime flags, the module manager's enabled and disabled module names, and the boot sequence. */
    const setup: Setup

    /**
     * The wrapped host registers its laps in this decorator's collector, both
     * report to one call log, and the collector's table is well formed.
     */
    ghost predicate Valid()
      reads collector
    {
      host.collector == collector && host.journal == collector.journal && collector.Valid()
    }

    constructor (host: InnerHost, collector: DiagnosticsCollector, setup: Setup)
      ensures this.host == host && this.collector == collector && this.setup == setup
    {
      this.host := host;
      this.collector := collector;
      this.setup := setup;
    }

    method Dispose()
      requires Valid()
      modifies host, collector.journal
      ensures host.disposed
      ensures collector.journal.events == old(collector.journal.events) + [InnerDispose]
      ensures unchanged(collector)
    {
      host.Dispose();
    }

    function Services(): (provider: nat)
      ensures provider == host.services
    {
      host.services
    }

    /** `inner` is the laps the wrapped host registered in the collector while it started. */
    method StartAsync(startingAt: int, startedAt: int) returns (o: Outcome, report: seq<string>, ghost inner: seq<Mark>)
      requires Valid()
      modifies collector, collector.journal
      ensures Valid()
      ensures o == Faulted ==>
        && collector.State() == old(collector.State()).WithLap("Host starting", startingAt).WithMarks(inner)
        && collector.journal.events == old(collector.journal.events) + [Lap("Host starting"), InnerStart] + LapEvents(inner)
        && report == []
      ensures o == Completed ==>
        && collector.State() == Startup(old(collector.State()), setup, startingAt, inner, startedAt)
        && collector.journal.events == old(collector.journal.events) + StartupEvents(setup, inner)
        && report == StartupReport(collector.Sections())
    {
      ghost var state0, events0 := collector.State(), collector.journal.events;
      collector.RegisterLapTime("Host starting", startingAt);
      var marks;
      o, marks := host.StartAsync();
      inner := marks;
      ConcatAssoc(events0, [Lap("Host starting")], [InnerStart]);
      assert [Lap("Host starting")] + [InnerStart] == [Lap("Host starting"), InnerStart];
      if o == Faulted {
        report := [];
        return;
      }
      ghost var front := [Lap("Host starting"), InnerStart] + LapEvents(inner);
      ConcatAssoc(events0, [Lap("Host starting"), InnerStart], LapEvents(inner));
      assert collector.journal.events == events0 + front;
      collector.RegisterLapTime("Host started", startedAt);
      ghost var started := state0.WithLap("Host starting", startingAt).WithMarks(inner).WithLap("Host started", startedAt);
      assert collector.State() == started;

      AddFlagsSection();
      AddModulesSection();
      ghost var named := started.WithSection("Flags", FlagsSection(setup.flags))
        .WithSection("Modules", ModulesSection(setup.enabledModules, setup.disabledModules, Names(setup.bootSequence)));
      assert collector.State() == named;
      AddTimetableSection();
      assert collector.State() == WithTimetableSection(named);
      AfterStartCallsInOrder(events0 + front);
      ConcatAssoc(events0, front, AfterStartCalls);
      AddModuleDiagnostics();
      ConcatAssoc(events0, front + AfterStartCalls, DiagnoseEvents(setup.bootSequence));

      var builder := ["", "STARTUP DIAGNOSTICS", ""];
      report := AppendDiagnosticsSections(builder, collector.Sections());
    }

    /** `inner` is the laps the wrapped host registered in the collector while it stopped. */
    method StopAsync(stoppingAt: int, stoppedAt: int) returns (o: Outcome, report: seq<string>, ghost inner: seq<Mark>)
      requires Valid()
      modifies collector, collector.journal
      ensures Valid()
      ensures o == Faulted ==>
        && collector.State() == old(collector.State()).WithLap("Host stopping", stoppingAt).WithMarks(inner)
        && collector.journal.events == old(collector.journal.events) + [Lap("Host stopping"), InnerStop] + LapEvents(inner)
        && report == []
      ensures o == Completed ==>
        && collector.State() == Shutdown(old(collector.State()), stoppingAt, inner, stoppedAt)
        && collector.journal.events == old(collector.journal.events) + ShutdownEvents(inner)
        && report == ShutdownReport(TimetableSection(
             Bracketed(old(collector.State()), "Host stopping", stoppingAt, inner, "Host stopped", stoppedAt)))
    {
      ghost var events0 := collector.journal.events;
      collector.RegisterLapTime("Host stopping", stoppingAt);
      var marks;
      o, marks := host.StopAsync();
      inner := marks;
      ConcatAssoc(events0, [Lap("Host stopping")], [InnerStop]);
      assert [Lap("Host stopping")] + [InnerStop] == [Lap("Host stopping"), InnerStop];
      if o == Faulted {
        report := [];
        return;
      }
      ghost var front := [Lap("Host stopping"), InnerStop] + LapEvents(inner);
      ConcatAssoc(events0, [Lap("Host stopping"), InnerStop], LapEvents(inner));
      collector.RegisterLapTime("Host stopped", stoppedAt);
      ghost var laps := Bracketed(old(collector.State()), "Host stopping", stoppingAt, inner, "Host stopped", stoppedAt);
      assert collector.timetable == laps;

      AddTimetableSection();
      ghost var back := [Lap("Host stopped"), TimetableCleared, SectionAdded(TimetableSectionKey)];
      assert [Lap("Host stopped")] + [TimetableCleared, SectionAdded(TimetableSectionKey)] == back;
      ConcatAssoc(events0 + front, [Lap("Host stopped")], [TimetableCleared, SectionAdded(TimetableSectionKey)]);
      ConcatAssoc(events0, front, back);

      var builder := ["", "SHUTDOWN DIAGNOSTICS", ""];
      var timetable := collector.Get(TimetableSectionKey);
      report := AppendDiagnosticsSections(builder, [timetable.value]);
    }

    method AddFlagsSection()
      requires Valid()
      modifies collector, collector.journal
      ensures Valid()
      ensures collector.State() == old(collector.State()).WithSection("Flags", FlagsSection(setup.flags))
      ensures collector.journal.events == old(collector.journal.events) + [SectionAdded("Flags")]
    {
      var value := [];
      value := value + ["- diagnostics: " + BoolText(setup.flags.diagnostics)];
      value := value + ["- verbose: " + BoolText(setup.flags.verbose)];
      assert value == FlagsSection(setup.flags).lines;
      collector.AddSection("Flags", Section("Flags", value));
    }

    method AddModulesSection()
      requires Valid()
      modifies collector, collector.journal
      ensures Valid()
      ensures collector.State() == old(collector.State()).WithSection("Modules",
        ModulesSection(setup.enabledModules, setup.disabledModules, Names(setup.bootSequence)))
      ensures collector.journal.events == old(collector.journal.events) + [SectionAdded("Modules")]
    {
      var section := NewModulesSection(setup.enabledModules, setup.disabledModules, Names(setup.bootSequence));
      collector.AddSection("Modules", section);
    }

    /** Renders the current timetable into a section, then empties the timetable. */
    method AddTimetableSection()
      requires Valid()
      modifies collector, collector.journal
      ensures Valid()
      ensures collector.State() == WithTimetableSection(old(collector.State()))
      ensures collector.journal.events == old(collector.journal.events) + [TimetableCleared, SectionAdded(TimetableSectionKey)]
    {
      var section := NewTimetableSection(collector.timetable);
      collector.ClearTimetable();
      collector.AddSection(TimetableSectionKey, section);
    }

    /** Lets every diagnostics module of the boot sequence, in order, add its own sections. */
    method AddModuleDiagnostics()
      requires Valid()
      modifies collector, collector.journal
      ensures Valid()
      ensures collector.State() == old(collector.State()).WithSections(Contributed(setup.bootSequence))
      ensures collector.journal.events == old(collector.journal.events) + DiagnoseEvents(setup.bootSequence)
    {
      var modules := setup.bootSequence;
      for i := 0 to |modules|
        invariant Valid()
        invariant collector.State() == old(collector.State()).WithSections(Contributed(modules[..i]))
        invariant collector.journal.events == old(collector.journal.events) + DiagnoseEvents(modules[..i])
      {
        var m := modules[i];
        ContributedStep(modules, i);
        AddAllConcat(old(collector.sections), Contributed(modules[..i]), Contributions(m));
        if m.diagnostics.Some? {
          Diagnose(m, collector);
          ConcatAssoc(old(collector.journal.events), DiagnoseEvents(modules[..i]), ModuleEvents(m));
        } else {
          assert Contributions(m) == [] && ModuleEvents(m) == [];
          assert Contributed(modules[..i]) + [] == Contributed(modules[..i]);
          assert DiagnoseEvents(modules[..i]) + [] == DiagnoseEvents(modules[..i]);
        }
      }
      assert modules[..|modules|] == modules;
    }
  }
}
