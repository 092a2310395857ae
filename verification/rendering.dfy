/**
 * The text the diagnostics decorator produces. A StringBuilder filled with
 * AppendLine calls is modelled as the sequence of lines appended to it;
 * AppendLine() with no argument appends the empty line.
 */
module Rendering {
  import opened Collaborators

  /** Width every section headline is padded to. */
  const HeadlineWidth := 60

  /**
   * String.PadRight: `s` followed by as many copies of `fill` as bring it to
   * `width`; `s` itself when it is already that long.
   */
  function PadRight(s: string, width: int, fill: char): (r: string)
    ensures |r| == if width > |s| then width else |s|
    ensures r[..|s|] == s
    ensures forall i :: |s| <= i < |r| ==> r[i] == fill
  {
    if width <= |s| then s else s + seq(width - |s|, _ => fill)
  }

  /** The first line of a rendered section: the headline and a space, padded with '-' to 60 columns. */
  function HeadlineLine(headline: string): string
  {
    PadRight(headline + " ", HeadlineWidth, '-')
  }

  /**
   * A headline line starts with the headline and a space, is 60 characters
   * long or one longer than the headline when that is longer, and is '-'
   * from there on.
   */
  lemma HeadlineLineShape(headline: string)
    ensures var r := HeadlineLine(headline);
      && |r| == (if |headline| + 1 < HeadlineWidth then HeadlineWidth else |headline| + 1)
      && r[..|headline|] == headline && r[|headline|] == ' '
      && (forall i :: |headline| < i < |r| ==> r[i] == '-')
  {
    var r := HeadlineLine(headline);
    var h := headline + " ";
    assert r[..|h|] == h;
    assert r[..|headline|] == h[..|headline|] == headline;
  }

  /** How C# interpolates a bool. */
  function BoolText(b: bool): string
  {
    if b then "True" else "False"
  }

  function DigitChar(d: nat): (c: char)
    requires d < 10
    ensures '0' <= c <= '9'
  {
    "0123456789"[d]
  }

  function NatText(n: nat): (r: string)
    ensures |r| > 0
    ensures forall i :: 0 <= i < |r| ==> '0' <= r[i] <= '9'
  {
    if n < 10 then [DigitChar(n)] else NatText(n / 10) + [DigitChar(n % 10)]
  }

  /** Rendering of a clock reading or an elapsed time, both counted in ticks. */
  function TickText(t: int): (r: string)
    ensures |r| > 0 && ' ' !in r
  {
    if t < 0 then "-" + NatText(-t) else NatText(t)
  }

  /** The process-wide runtime flags shown in the Flags section. */
  datatype RuntimeFlags = RuntimeFlags(diagnostics: bool, verbose: bool)

  function FlagsSection(flags: RuntimeFlags): (s: Section)
    ensures s.headline == "Flags" && |s.lines| == 2
    ensures s.lines[0] == "- diagnostics: " + BoolText(flags.diagnostics)
    ensures s.lines[1] == "- verbose: " + BoolText(flags.verbose)
  {
    Section("Flags", ["- diagnostics: " + BoolText(flags.diagnostics), "- verbose: " + BoolText(flags.verbose)])
  }

  /** One bulleted line per name, in the order of `names`. */
  function NameLines(names: seq<string>): (lines: seq<string>)
    ensures |lines| == |names|
    ensures forall i :: 0 <= i < |names| ==> lines[i] == "   - " + names[i]
  {
    if names == [] then []
    else NameLines(names[..|names| - 1]) + ["   - " + names[|names| - 1]]
  }

  function ModulesLines(enabled: seq<string>, disabled: seq<string>, bootSequence: seq<string>): seq<string>
  {
    ["- Enabled modules"] + NameLines(enabled)
    + ["- Disabled modules"] + NameLines(disabled)
    + ["- Autorun modules"]
    + ["- Boot sequence"] + NameLines(bootSequence)
  }

  function ModulesSection(enabled: seq<string>, disabled: seq<string>, bootSequence: seq<string>): Section
  {
    Section("Modules", ModulesLines(enabled, disabled, bootSequence))
  }

  /**
   * Where each part of the Modules section sits: the enabled names, the
   * disabled names, the (empty) autorun list and the boot sequence, each under
   * its header and each in its source order.
   */
  lemma ModulesLinesLayout(enabled: seq<string>, disabled: seq<string>, bootSequence: seq<string>)
    ensures var lines := ModulesLines(enabled, disabled, bootSequence);
      var e, d := |enabled|, |disabled|;
      && |lines| == 4 + e + d + |bootSequence|
      && lines[0] == "- Enabled modules"
      && (forall i :: 0 <= i < e ==> lines[1 + i] == "   - " + enabled[i])
      && lines[1 + e] == "- Disabled modules"
      && (forall i :: 0 <= i < d ==> lines[2 + e + i] == "   - " + disabled[i])
      && lines[2 + e + d] == "- Autorun modules"
      && lines[3 + e + d] == "- Boot sequence"
      && (forall i :: 0 <= i < |bootSequence| ==> lines[4 + e + d + i] == "   - " + bootSequence[i])
  {
    var e, d := |enabled|, |disabled|;
    var lines := ModulesLines(enabled, disabled, bootSequence);
    var front := ["- Enabled modules"] + NameLines(enabled) + ["- Disabled modules"] + NameLines(disabled)
      + ["- Autorun modules"] + ["- Boot sequence"];
    assert lines == front + NameLines(bootSequence);
    assert |front| == 4 + e + d;
    forall i | 0 <= i < |bootSequence|
      ensures lines[4 + e + d + i] == "   - " + bootSequence[i]
    {
      assert lines[|front| + i] == NameLines(bootSequence)[i];
    }
  }

  /** A timetable line: the lap's clock reading, its elapsed time and its name. */
  function TimetableLine(lap: LapTime): string
  {
    TickText(lap.at) + " " + TickText(lap.elapsed) + " " + lap.name
  }

  /** A timetable line starts with the lap's clock reading and ends with a space and the lap's name. */
  lemma TimetableLineShape(lap: LapTime)
    ensures var line := TimetableLine(lap);
      && |TickText(lap.at)| < |line| && line[..|TickText(lap.at)|] == TickText(lap.at)
      && |lap.name| < |line| && line[|line| - |lap.name|..] == lap.name
      && line[|line| - |lap.name| - 1] == ' '
  {
    var prefix := TickText(lap.at) + " " + TickText(lap.elapsed) + " ";
    assert TimetableLine(lap) == prefix + lap.name;
    assert (prefix + lap.name)[..|TickText(lap.at)|] == prefix[..|TickText(lap.at)|] == TickText(lap.at);
    assert (prefix + lap.name)[|prefix|..] == lap.name;
  }

  /** One line per lap, in timetable order. */
  function TimetableLines(laps: seq<LapTime>): (lines: seq<string>)
    ensures |lines| == |laps|
    ensures forall i :: 0 <= i < |laps| ==> lines[i] == TimetableLine(laps[i])
  {
    seq(|laps|, i requires 0 <= i < |laps| => TimetableLine(laps[i]))
  }

  function TimetableSection(laps: seq<LapTime>): Section
  {
    Section("Timetable", TimetableLines(laps))
  }

  /** A section as it appears in a report: its padded headline line, then its own lines. */
  function RenderedSection(s: Section): seq<string>
  {
    [HeadlineLine(s.headline)] + s.lines
  }

  /** The sections rendered one after another. */
  function Rendered(sections: seq<Section>): seq<string>
  {
    if sections == [] then []
    else Rendered(sections[..|sections| - 1]) + RenderedSection(sections[|sections| - 1])
  }

  lemma {:induction false} RenderedConcat(a: seq<Section>, b: seq<Section>)
    ensures Rendered(a + b) == Rendered(a) + Rendered(b)
    decreases |b|
  {
    if b == [] {
      assert a + b == a;
    } else {
      assert (a + b)[..|a + b| - 1] == a + b[..|b| - 1];
      RenderedConcat(a, b[..|b| - 1]);
    }
  }

  lemma RenderedSnoc(sections: seq<Section>, i: nat)
    requires i < |sections|
    ensures Rendered(sections[..i + 1]) == Rendered(sections[..i]) + RenderedSection(sections[i])
  {
    assert sections[..i + 1][..i] == sections[..i];
  }

  /** In a report every section, in order, is its padded headline line followed by its own lines. */
  lemma RenderedAt(sections: seq<Section>, i: nat)
    requires i < |sections|
    ensures Rendered(sections) == Rendered(sections[..i]) + RenderedSection(sections[i]) + Rendered(sections[i + 1..])
    ensures RenderedSection(sections[i]) == [HeadlineLine(sections[i].headline)] + sections[i].lines
  {
    assert sections == sections[..i + 1] + sections[i + 1..];
    RenderedConcat(sections[..i + 1], sections[i + 1..]);
    RenderedSnoc(sections, i);
  }

  function StartupReport(sections: seq<Section>): seq<string>
  {
    ["", "STARTUP DIAGNOSTICS", ""] + Rendered(sections)
  }

  function ShutdownReport(timetable: Section): seq<string>
  {
    ["", "SHUTDOWN DIAGNOSTICS", ""] + Rendered([timetable])
  }

  /** The shutdown report is the timetable section alone: its headline line, then one line per lap. */
  lemma ShutdownReportShape(laps: seq<LapTime>)
    ensures ShutdownReport(TimetableSection(laps)) == ["", "SHUTDOWN DIAGNOSTICS", ""] + RenderedSection(TimetableSection(laps))
    ensures RenderedSection(TimetableSection(laps)) == [HeadlineLine("Timetable")] + TimetableLines(laps)
  {
    var s := TimetableSection(laps);
    assert [s][..0] == [] && [s][0] == s;
    assert Rendered([s]) == Rendered([]) + RenderedSection(s);
    assert Rendered([]) == [];
    assert Rendered([s]) == RenderedSection(s);
  }

  /** The foreach loop that appends one bulleted line per module name. */
  method AppendNameLines(builder: seq<string>, names: seq<string>) returns (b: seq<string>)
    ensures b == builder + NameLines(names)
  {
    b := builder;
    for i := 0 to |names|
      invariant b == builder + NameLines(names[..i])
    {
      assert names[..i + 1][..i] == names[..i];
      b := b + ["   - " + names[i]];
    }
    assert names[..|names|] == names;
  }

  /** Builds the Modules section from the module manager's lists and the boot sequence's names. */
  method NewModulesSection(enabled: seq<string>, disabled: seq<string>, bootSequence: seq<string>)
    returns (s: Section)
    ensures s == ModulesSection(enabled, disabled, bootSequence)
  {
    var value := ["- Enabled modules"];
    value := AppendNameLines(value, enabled);
    value := value + ["- Disabled modules"];
    value := AppendNameLines(value, disabled);
    value := value + ["- Autorun modules"];
    value := value + ["- Boot sequence"];
    value := AppendNameLines(value, bootSequence);
    s := Section("Modules", value);
  }

  /** Builds the Timetable section: one line per lap of the current timetable. */
  method NewTimetableSection(laps: seq<LapTime>) returns (s: Section)
    ensures s == TimetableSection(laps)
  {
    var value := [];
    for i := 0 to |laps|
      invariant |value| == i
      invariant forall j :: 0 <= j < i ==> value[j] == TimetableLine(laps[j])
    {
      value := value + [TimetableLine(laps[i])];
    }
    assert value == TimetableLines(laps);
    s := Section("Timetable", value);
  }

  /** Appends every section: its headline line, then its own lines. */
  method AppendDiagnosticsSections(builder: seq<string>, sections: seq<Section>) returns (b: seq<string>)
    ensures b == builder + Rendered(sections)
  {
    b := builder;
    for i := 0 to |sections|
      invariant b == builder + Rendered(sections[..i])
    {
      assert sections[..i + 1][..i] == sections[..i];
      var section := sections[i];
      b := b + [HeadlineLine(section.headline)];
      b := b + section.lines;
    }
    assert sections[..|sections|] == sections;
  }
}
