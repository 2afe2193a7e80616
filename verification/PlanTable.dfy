/** The master plan's sessions table: the demo's printer, and the parser that
    reads phases back from any plan's markdown. */
module PlanTable {
  import opened Values
  import opened Text

  datatype Phase = Phase(id: string, planFile: string, scope: string, effort: string)

  // ----- the parser ---------------------------------------------------------------------

  /** `## Session(s) index` on a line of its own, in any case. */
  predicate HeaderLine(line: string) {
    var t := LowerAll(TrimEnd(line));
    && StartsWith(t, "##")
    && var rest := t[2..];
       && rest != "" && Space(rest[0])
       && var words := TrimStart(rest);
          && StartsWith(words, "session")
          && var tail := if StartsWith(words[7..], "s") then words[8..] else words[7..];
             tail != "" && Space(tail[0]) && TrimStart(tail) == "index"
  }

  predicate SeparatorChar(c: char) {
    Space(c) || c == '-' || c == ':' || c == '|'
  }

  predicate Separator(s: string) {
    |s| >= 3 && s[0] == '|' && s[|s| - 1] == '|' && forall i :: 0 < i < |s| - 1 ==> SeparatorChar(s[i])
  }

  function StripAll(parts: seq<string>): seq<string> {
    seq(|parts|, i requires 0 <= i < |parts| => Strip(parts[i]))
  }

  function SplitRow(row: string): seq<string> {
    StripAll(SplitOn(StripChar(Strip(row), '|'), '|'))
  }

  /** The text of a markdown link that is the whole cell: up to the first
      `](` whose target runs to the closing parenthesis. */
  function LinkEnd(raw: string, k: nat): (r: Option<nat>)
    requires 2 <= k
    ensures r.Some? ==> k <= r.value < |raw|
    decreases |raw| - k
  {
    if k + 2 >= |raw| then None
    else if raw[k] == ']' && raw[k + 1] == '(' && raw[|raw| - 1] == ')' && ')' !in raw[k + 2..|raw| - 1] then Some(k)
    else LinkEnd(raw, k + 1)
  }

  function LinkText(raw: string): (r: string)
    ensures |r| <= |raw|
  {
    if raw != "" && raw[0] == '[' && LinkEnd(raw, 2).Some?
    then Strip(raw[1..LinkEnd(raw, 2).value]) else raw
  }

  /** The last component of a path; empty components and `.` do not count. */
  function BaseName(path: string): string
    decreases |path|
  {
    if path == "" then ""
    else if LastPart(path) == "" || LastPart(path) == "." then BaseName(path[..|path| - 1])
    else LastPart(path)
  }

  function LastPart(path: string): string {
    if path == "" || path[|path| - 1] == '/' then "" else LastPart(path[..|path| - 1]) + [path[|path| - 1]]
  }

  /** Index of the last dot, or the length. */
  function LastDot(name: string, n: nat): nat
    requires n <= |name|
  {
    if n == 0 then |name| else if name[n - 1] == '.' then n - 1 else LastDot(name, n - 1)
  }

  /** A file name without its last suffix. */
  function Stem(path: string): string {
    var name := BaseName(path);
    var dot := LastDot(name, |name|);
    if 0 < dot < |name| - 1 then name[..dot] else name
  }

  function PhaseId(file: string, master: string): string {
    var base := Stem(file);
    if StartsWith(base, master + "-") then base[|master| + 1..] else base
  }

  function PhaseOf(cells: seq<string>, master: string): Phase
    requires |cells| >= 4
  {
    var file := StripChar(LinkText(Strip(cells[1])), '`');
    Phase.Phase(PhaseId(file, master), file, Strip(cells[2]), Strip(cells[3]))
  }

  function Prepend(p: Option<Phase>, r: Result<seq<Phase>>): Result<seq<Phase>> {
    if p.None? || r.Err? then r else Ok([p.value] + r.value)
  }

  /** What one line does: end the table, refuse the plan, or go on - inside the
      table or not, past the separator or not, perhaps with one more phase. */
  datatype Turn = Stop | Refuse | Go(inTable: bool, separated: bool, found: Option<Phase>)

  function TurnOf(s: string, master: string, inTable: bool, separated: bool): Turn {
    if !inTable && StartsWith(s, "##") then Stop
    else if !inTable && !StartsWith(s, "|") then Go(false, separated, None)
    else if s == "" || StartsWith(s, "##") then Stop
    else if Separator(s) then Go(true, true, None)
    else if !separated || |SplitRow(s)| < 4 then Go(true, separated, None)
    else
      var phase := PhaseOf(SplitRow(s), master);
      if !AcceptedSlug(phase.id) then Refuse else Go(true, separated, Some(phase))
  }

  /** The rows of the first table after the header. */
  function Rows(lines: seq<string>, master: string, inTable: bool, separated: bool): Result<seq<Phase>>
    decreases |lines|
  {
    if lines == [] then Ok([])
    else match TurnOf(Strip(lines[0]), master, inTable, separated)
      case Stop => Ok([])
      case Refuse => Err(InvalidSlug)
      case Go(inTable', separated', found) => Prepend(found, Rows(lines[1..], master, inTable', separated'))
  }

  function AfterHeader(lines: seq<string>): Option<seq<string>> {
    if lines == [] then None else if HeaderLine(lines[0]) then Some(lines[1..]) else AfterHeader(lines[1..])
  }

  /** What a plan's text says its phases are. */
  function Phases(text: string, master: string): Result<seq<Phase>> {
    var after := AfterHeader(Lines(text));
    if after.None? then Ok([]) else Rows(after.value, master, false, false)
  }

  function Together(done: seq<Phase>, r: Result<seq<Phase>>): Result<seq<Phase>> {
    if r.Err? then r else Ok(done + r.value)
  }

  method ParseSessionsIndex(text: string, master: string) returns (r: Result<seq<Phase>>)
    ensures r == Phases(text, master)
  {
    var all := Lines(text);
    var h := 0;
    while h < |all| && !HeaderLine(all[h])
      invariant h <= |all| && AfterHeader(all[h..]) == AfterHeader(all)
    {
      assert all[h..][0] == all[h] && all[h..][1..] == all[h + 1..];
      h := h + 1;
    }
    if h == |all| {
      assert all[h..] == [];
      return Ok([]);
    }
    assert all[h..][0] == all[h] && all[h..][1..] == all[h + 1..];
    var lines := all[h + 1..];
    var phases: seq<Phase> := [];
    var inTable, separated := false, false;
    TogetherNone(Rows(lines, master, false, false));
    assert lines[0..] == lines;
    hide Rows, Strip, Separator, SplitRow, PhaseOf, Together, Prepend, AfterHeader, HeaderLine, AcceptedSlug, StartsWith;
    for i := 0 to |lines|
      invariant Together(phases, Rows(lines[i..], master, inTable, separated)) == Rows(lines, master, false, false)
    {
      RowsTurn(lines, master, i, inTable, separated, phases);
      var s := Strip(lines[i]);
      if !inTable {
        if StartsWith(s, "##") { return Ok(phases); }
        if !StartsWith(s, "|") { continue; }
        inTable := true;
      }
      if s == "" { return Ok(phases); }
      if StartsWith(s, "##") { return Ok(phases); }
      if Separator(s) {
        separated := true;
        continue;
      }
      if !separated { continue; }
      var cells := SplitRow(s);
      if |cells| < 4 { continue; }
      var phase := PhaseOf(cells, master);
      if !AcceptedSlug(phase.id) { return Err(InvalidSlug); }
      phases := phases + [phase];
    }
    RowsEnd(lines, master, inTable, separated, phases);
    r := Ok(phases);
  }

  lemma TogetherNone(r: Result<seq<Phase>>)
    ensures Together([], r) == r
  {
    if r.Ok? {
      assert [] + r.value == r.value;
    }
  }

  lemma RowsEnd(lines: seq<string>, master: string, inTable: bool, separated: bool, phases: seq<Phase>)
    ensures Together(phases, Rows(lines[|lines|..], master, inTable, separated)) == Ok(phases)
  {
    assert lines[|lines|..] == [];
    assert phases + [] == phases;
  }

  /** One turn of the loop. */
  lemma RowsTurn(lines: seq<string>, master: string, i: nat, inTable: bool, separated: bool, phases: seq<Phase>)
    requires i < |lines|
    ensures Together(phases, Rows(lines[i..], master, inTable, separated)) ==
              match TurnOf(Strip(lines[i]), master, inTable, separated)
              case Stop => Ok(phases)
              case Refuse => Err(InvalidSlug)
              case Go(inTable', separated', found) =>
                Together(if found.Some? then phases + [found.value] else phases,
                         Rows(lines[i + 1..], master, inTable', separated'))
  {
    assert lines[i..][0] == lines[i] && lines[i..][1..] == lines[i + 1..];
    assert phases + [] == phases;
    match TurnOf(Strip(lines[i]), master, inTable, separated) {
      case Stop =>
      case Refuse =>
      case Go(inTable', separated', found) =>
        var r := Rows(lines[i + 1..], master, inTable', separated');
        if found.Some? && r.Ok? {
          assert phases + ([found.value] + r.value) == (phases + [found.value]) + r.value;
        }
    }
  }

  // ----- the printer ----------------------------------------------------------------------

  const SCOPE := "synthetic demo work"
  const EFFORT := "1h"

  function PlanFile(slug: string, id: string): string {
    slug + "-" + id + ".md"
  }

  /** Cells between bars, a space on each side. */
  function Cells(cells: seq<string>): string {
    if cells == [] then "" else " " + cells[0] + " |" + Cells(cells[1..])
  }

  function TableRow(cells: seq<string>): string {
    "|" + Cells(cells)
  }

  function RowCells(slug: string, id: string): seq<string> {
    [id, "`" + PlanFile(slug, id) + "`", SCOPE, EFFORT]
  }

  function Row(slug: string, id: string): string {
    TableRow(RowCells(slug, id))
  }

  function PrintedRows(slug: string, ids: seq<string>): string {
    if ids == [] then "" else Row(slug, ids[0]) + "\n" + PrintedRows(slug, ids[1..])
  }

  function Head(slug: string): seq<string> {
    ["# Demo plan: " + slug, "", "## Sessions index", "", "| Session | Plan file | Scope | Effort |", "|---|---|---|---|"]
  }

  /** A master plan with one row per phase id; every line ends in a newline. */
  function MasterPlan(slug: string, ids: seq<string>): string {
    Join(Head(slug)) + PrintedRows(slug, ids)
  }

  function RowLines(slug: string, ids: seq<string>): seq<string> {
    seq(|ids|, i requires 0 <= i < |ids| => Row(slug, ids[i]))
  }

  function Expected(slug: string, ids: seq<string>): seq<Phase> {
    seq(|ids|, i requires 0 <= i < |ids| => Phase.Phase(ids[i], PlanFile(slug, ids[i]), SCOPE, EFFORT))
  }

  // ----- the round trip ---------------------------------------------------------------------

  lemma SlugChars(s: string)
    requires Slug(s)
    ensures Bare(s) && '\n' !in s && '|' !in s && '`' !in s && '/' !in s && '.' !in s
  {
  }

  lemma FileChars(slug: string, id: string)
    requires Slug(slug) && Slug(id)
    ensures var f := PlanFile(slug, id);
            && Bare(f) && '\n' !in f && '|' !in f && '`' !in f && '/' !in f
            && f[0] != '[' && |f| == |slug| + |id| + 4 && f[..|slug| + 1 + |id|] == slug + "-" + id
              && f[|slug| + 1 + |id|..] == ".md"
            && forall i :: 0 <= i < |slug| + 1 + |id| ==> f[i] != '.'
  {
    SlugChars(slug);
    SlugChars(id);
    var f := PlanFile(slug, id);
    assert f == (slug + "-" + id) + ".md";
    assert f[0] == slug[0];
  }

  lemma {:induction false} LastPartWhole(name: string)
    requires '/' !in name
    ensures LastPart(name) == name
  {
    if name != "" {
      LastPartWhole(name[..|name| - 1]);
      assert name == name[..|name| - 1] + [name[|name| - 1]];
    }
  }

  lemma FileStem(slug: string, id: string)
    requires Slug(slug) && Slug(id)
    ensures Stem(PlanFile(slug, id)) == slug + "-" + id && PhaseId(PlanFile(slug, id), slug) == id
  {
    var f, n := PlanFile(slug, id), |slug| + 1 + |id|;
    FileChars(slug, id);
    LastPartWhole(f);
    assert f[n] == '.' && f[n + 1] == 'm' && f[n + 2] == 'd';
    assert LastDot(f, n + 3) == LastDot(f, n + 2) == LastDot(f, n + 1) == n;
    assert (slug + "-" + id)[..|slug| + 1] == slug + "-";
    assert (slug + "-" + id)[|slug| + 1..] == id;
  }

  /** A row without its outer bars. */
  function Inner(cells: seq<string>): string
    requires cells != []
  {
    if |cells| == 1 then " " + cells[0] + " " else " " + cells[0] + " |" + Inner(cells[1..])
  }

  predicate PlainCells(cells: seq<string>) {
    forall i :: 0 <= i < |cells| ==> Bare(cells[i]) && '|' !in cells[i] && '\n' !in cells[i]
  }

  lemma {:induction false} CellsAreInner(cells: seq<string>)
    requires cells != [] && PlainCells(cells)
    ensures Cells(cells) == Inner(cells) + "|" && '\n' !in Cells(cells)
    ensures |Inner(cells)| >= 2 && Inner(cells)[0] == ' ' && Inner(cells)[|Inner(cells)| - 1] == ' '
  {
    var c := cells[0];
    if |cells| == 1 {
      assert Cells(cells[1..]) == "";
      assert " " + c + " |" + "" == (" " + c + " ") + "|";
    } else {
      CellsAreInner(cells[1..]);
      var front, tail := " " + c + " |", Inner(cells[1..]);
      assert front + (tail + "|") == (front + tail) + "|";
    }
  }

  lemma StripAllCons(part: string, parts: seq<string>)
    ensures StripAll([part] + parts) == [Strip(part)] + StripAll(parts)
  {
    hide Strip;
  }

  lemma InnerCons(cells: seq<string>)
    requires |cells| > 1
    ensures Inner(cells) == (" " + cells[0] + " ") + ['|'] + Inner(cells[1..])
  {
  }

  lemma {:induction false} InnerSplits(cells: seq<string>)
    requires cells != [] && PlainCells(cells)
    ensures StripAll(SplitOn(Inner(cells), '|')) == cells
  {
    var c := cells[0];
    var spaced := " " + c + " ";
    StripSpaced(c);
    StripAllCons(spaced, []);
    if |cells| == 1 {
      SplitNone(spaced, '|');
      assert cells == [c] && [spaced] + [] == [spaced];
    } else {
      var rest := Inner(cells[1..]);
      InnerCons(cells);
      InnerSplits(cells[1..]);
      SplitFirst(spaced, rest, '|');
      hide Strip, Bare, Inner, SplitOn, StripAll;
      StripAllCons(spaced, SplitOn(rest, '|'));
      assert cells == [c] + cells[1..];
    }
  }

  /** Splitting a printed row gives its cells back. */
  lemma TableRowSplits(cells: seq<string>)
    requires cells != [] && PlainCells(cells)
    ensures var row := TableRow(cells);
            Bare(row) && row[0] == '|' && '\n' !in row && Strip(row) == row && SplitRow(row) == cells
  {
    var row, inner := TableRow(cells), Inner(cells);
    CellsAreInner(cells);
    InnerSplits(cells);
    assert row == ['|'] + inner + ['|'];
    StripBare(row);
    StripCharOnce(inner, '|');
    hide Cells, Inner, SplitOn, Strip, StripChar;
  }

  lemma RowIsPlain(slug: string, id: string)
    requires Slug(slug) && Slug(id)
    ensures PlainCells(RowCells(slug, id))
  {
    SlugChars(id);
    FileChars(slug, id);
  }

  lemma RowIsData(slug: string, id: string)
    requires Slug(slug) && Slug(id)
    ensures !Separator(Row(slug, id))
  {
    SlugChars(id);
    var rest := Cells(RowCells(slug, id)[1..]);
    var row := Row(slug, id);
    assert row == "|" + (" " + id + " |" + rest);
    assert row[2] == id[0] && !SeparatorChar(id[0]);
  }

  lemma RowPhase(slug: string, id: string)
    requires Slug(slug) && Slug(id)
    ensures TurnOf(Strip(Row(slug, id)), slug, true, true) ==
              Go(true, true, Some(Phase.Phase(id, PlanFile(slug, id), SCOPE, EFFORT)))
  {
    RowIsPlain(slug, id);
    RowIsData(slug, id);
    TableRowSplits(RowCells(slug, id));
    FileChars(slug, id);
    FileStem(slug, id);
    var f := PlanFile(slug, id);
    var cell := "`" + f + "`";
    StripBare(cell);
    StripBare(SCOPE);
    StripBare(EFFORT);
    assert cell == ['`'] + f + ['`'];
    StripCharOnce(f, '`');
    hide TableRow, SplitRow, Separator, Strip, StripChar, PhaseId, PlanFile, Slug, PlainCells;
    assert cell[0] == '`';
    assert LinkText(cell) == cell;
  }

  lemma RowLinesCons(slug: string, ids: seq<string>)
    requires ids != []
    ensures RowLines(slug, ids) == [Row(slug, ids[0])] + RowLines(slug, ids[1..])
  {
    hide Row;
  }

  lemma FirstRow(slug: string, ids: seq<string>)
    requires ids != [] && Slug(slug) && Slug(ids[0])
    ensures Rows(RowLines(slug, ids), slug, true, true) ==
              Prepend(Some(Phase.Phase(ids[0], PlanFile(slug, ids[0]), SCOPE, EFFORT)),
                Rows(RowLines(slug, ids[1..]), slug, true, true))
  {
    hide *;
    RowPhase(slug, ids[0]);
    RowLinesCons(slug, ids);
    var lines := RowLines(slug, ids);
    assert lines[0] == Row(slug, ids[0]) && lines[1..] == RowLines(slug, ids[1..]);
    OneTurn(lines, slug, true, true);
  }

  lemma ExpectedCons(slug: string, ids: seq<string>)
    requires ids != []
    ensures Prepend(Some(Phase.Phase(ids[0], PlanFile(slug, ids[0]), SCOPE, EFFORT)), Ok(Expected(slug, ids[1..])))
        == Ok(Expected(slug, ids))
  {
    hide PlanFile;
    assert Expected(slug, ids) == [Phase.Phase(ids[0], PlanFile(slug, ids[0]), SCOPE, EFFORT)] + Expected(slug, ids[1..]);
  }

  lemma {:induction false} RowsParse(slug: string, ids: seq<string>)
    requires Slug(slug) && forall i :: 0 <= i < |ids| ==> Slug(ids[i])
    ensures Rows(RowLines(slug, ids), slug, true, true) == Ok(Expected(slug, ids))
  {
    if ids != [] {
      hide *;
      FirstRow(slug, ids);
      RowsParse(slug, ids[1..]);
      ExpectedCons(slug, ids);
    } else {
      assert Expected(slug, ids) == [] && RowLines(slug, ids) == [];
    }
  }

  lemma {:induction false} PrintedLines(slug: string, ids: seq<string>)
    ensures PrintedRows(slug, ids) == Join(RowLines(slug, ids))
  {
    if ids != [] {
      PrintedLines(slug, ids[1..]);
      assert RowLines(slug, ids)[1..] == RowLines(slug, ids[1..]);
    }
  }

  lemma HeadIsSingle(slug: string)
    requires Slug(slug)
    ensures SingleLines(Head(slug))
  {
    SlugChars(slug);
  }

  lemma MasterLines(slug: string, ids: seq<string>)
    requires Slug(slug) && forall i :: 0 <= i < |ids| ==> Slug(ids[i])
    ensures Lines(MasterPlan(slug, ids)) == Head(slug) + RowLines(slug, ids)
  {
    PrintedLines(slug, ids);
    HeadIsSingle(slug);
    forall i | 0 <= i < |ids|
      ensures '\n' !in Row(slug, ids[i])
    {
      RowIsPlain(slug, ids[i]);
      TableRowSplits(RowCells(slug, ids[i]));
    }
    hide Join, Head, Row, PrintedRows, Lines, Slug;
    JoinConcat(Head(slug), RowLines(slug, ids));
    LinesOfJoin(Head(slug) + RowLines(slug, ids));
  }

  lemma TitleIsNoHeader(slug: string)
    ensures !HeaderLine("# Demo plan: " + slug) && !HeaderLine("")
  {
    var s := "# Demo plan: " + slug;
    var r := TrimEnd(s);
    assert |r| >= 2 ==> LowerAll(r)[1] == Lower(s[1]);
    assert TrimEnd("") == "";
  }

  lemma LoweredIndex()
    ensures LowerAll(TrimEnd("## Sessions index")) == "## sessions index"
  {
    var s := "## Sessions index";
    assert TrimEnd(s) == s;
    assert LowerAll(s) == "## sessions index";
  }

  lemma TrimmedTails()
    ensures TrimStart(" sessions index") == "sessions index" && TrimStart(" index") == "index"
  {
    assert " sessions index"[1..] == "sessions index";
    assert " index"[1..] == "index";
  }

  lemma IndexIsHeader()
    ensures HeaderLine("## Sessions index")
  {
    LoweredIndex();
    TrimmedTails();
    hide TrimEnd, LowerAll, TrimStart, Lower;
    assert "## sessions index"[2..] == " sessions index";
    assert "sessions index"[7..] == "s index" && "sessions index"[8..] == " index";
    assert StartsWith("sessions index", "session") && StartsWith("s index", "s");
  }

  const TITLES := "| Session | Plan file | Scope | Effort |"
  const RULE := "|---|---|---|---|"

  lemma TableOpens(master: string)
    ensures TurnOf(Strip(""), master, false, false) == Go(false, false, None)
    ensures TurnOf(Strip(TITLES), master, false, false) == Go(true, false, None)
    ensures TurnOf(Strip(RULE), master, true, false) == Go(true, true, None)
  {
    assert Strip("") == "";
    StripBare(TITLES);
    StripBare(RULE);
    assert !SeparatorChar(TITLES[2]);
    assert Separator(RULE);
  }

  lemma HeadTurns(slug: string, rows: seq<string>)
    ensures AfterHeader(Head(slug) + rows) == Some(["", TITLES, RULE] + rows)
    ensures Rows(["", TITLES, RULE] + rows, slug, false, false) == Rows(rows, slug, true, true)
  {
    TitleIsNoHeader(slug);
    IndexIsHeader();
    TableOpens(slug);
    hide HeaderLine, TurnOf, Strip;
    var all := Head(slug) + rows;
    assert all[0] == "# Demo plan: " + slug && all[1] == "" && all[2] == "## Sessions index";
    assert all[1..][0] == "" && all[1..][1..][0] == "## Sessions index";
    OneHeader(all);
    OneHeader(all[1..]);
    OneHeader(all[1..][1..]);
    assert all[1..][1..][1..] == ["", TITLES, RULE] + rows;
    var body := ["", TITLES, RULE] + rows;
    assert body[0] == "" && body[1..][0] == TITLES && body[1..][1..][0] == RULE && body[1..][1..][1..] == rows;
    OneTurn(body, slug, false, false);
    OneTurn(body[1..], slug, false, false);
    OneTurn(body[1..][1..], slug, true, false);
  }

  lemma OneTurn(lines: seq<string>, master: string, inTable: bool, separated: bool)
    requires lines != []
    ensures var t := TurnOf(Strip(lines[0]), master, inTable, separated);
            t.Go? ==> Rows(lines, master, inTable, separated)
                        == match t.found { case None => Rows(lines[1..], master, t.inTable, t.separated)
                                           case Some(p) => Prepend(Some(p), Rows(lines[1..], master, t.inTable, t.separated)) }
  {
    hide TurnOf, Strip;
  }

  lemma OneHeader(lines: seq<string>)
    requires lines != []
    ensures AfterHeader(lines) == if HeaderLine(lines[0]) then Some(lines[1..]) else AfterHeader(lines[1..])
  {
  }

  /** Reading back a printed master plan gives its phases, in order, with their
      plan files. */
  lemma PrintedPlanReadsBack(slug: string, ids: seq<string>)
    requires Slug(slug) && forall i :: 0 <= i < |ids| ==> Slug(ids[i])
    ensures Phases(MasterPlan(slug, ids), slug) == Ok(Expected(slug, ids))
  {
    MasterLines(slug, ids);
    HeadTurns(slug, RowLines(slug, ids));
    RowsParse(slug, ids);
    hide Rows, Head, Lines, RowLines, AfterHeader, MasterPlan, Slug, Expected;
  }

  // ----- exactly when it does ----------------------------------------------------------------

  lemma CellsOneLine(s: string)
    requires '\n' !in s
    ensures forall i :: 0 <= i < |SplitRow(s)| ==> '\n' !in SplitRow(s)[i]
  {
    var inner := StripChar(Strip(s), '|');
    StripInvents(s, '\n');
    StripCharInvents(Strip(s), '|', '\n');
    SplitInvents(inner, '|', '\n');
    forall i | 0 <= i < |SplitRow(s)|
      ensures '\n' !in SplitRow(s)[i]
    {
      StripInvents(SplitOn(inner, '|')[i], '\n');
    }
  }

  lemma FileOneLine(cells: seq<string>, master: string)
    requires |cells| >= 4 && '\n' !in cells[1]
    ensures '\n' !in PhaseOf(cells, master).planFile
  {
    StripInvents(cells[1], '\n');
    var raw := Strip(cells[1]);
    if LinkText(raw) != raw {
      StripInvents(raw[1..LinkEnd(raw, 2).value], '\n');
    }
    StripCharInvents(LinkText(raw), '`', '\n');
  }

  lemma TurnOneLine(s: string, master: string, inTable: bool, separated: bool)
    requires '\n' !in s
    ensures var t := TurnOf(s, master, inTable, separated);
            t.Go? && t.found.Some? ==> '\n' !in t.found.value.planFile
  {
    CellsOneLine(s);
    if |SplitRow(s)| >= 4 {
      FileOneLine(SplitRow(s), master);
    }
    hide SplitRow, Separator, PhaseOf;
  }

  predicate FilesOneLine(phases: seq<Phase>) {
    forall i :: 0 <= i < |phases| ==> '\n' !in phases[i].planFile
  }

  lemma {:induction false} RowsOneLine(lines: seq<string>, master: string, inTable: bool, separated: bool)
    requires SingleLines(lines)
    ensures var r := Rows(lines, master, inTable, separated); r.Ok? ==> FilesOneLine(r.value)
  {
    if lines != [] {
      StripInvents(lines[0], '\n');
      TurnOneLine(Strip(lines[0]), master, inTable, separated);
      var t := TurnOf(Strip(lines[0]), master, inTable, separated);
      hide TurnOf, Strip;
      if t.Go? {
        RowsOneLine(lines[1..], master, t.inTable, t.separated);
      }
    }
  }

  lemma {:induction false} AfterHeaderSingle(lines: seq<string>)
    requires SingleLines(lines)
    ensures AfterHeader(lines).Some? ==> SingleLines(AfterHeader(lines).value)
  {
    hide HeaderLine;
    if lines != [] {
      AfterHeaderSingle(lines[1..]);
    }
  }

  /** No plan file read from a table holds a line break. */
  lemma ParsedFilesAreOneLine(text: string, master: string)
    ensures Phases(text, master).Ok? ==> FilesOneLine(Phases(text, master).value)
  {
    LinesAreSingle(text);
    AfterHeaderSingle(Lines(text));
    hide Rows, Lines, AfterHeader;
    if AfterHeader(Lines(text)).Some? {
      RowsOneLine(AfterHeader(Lines(text)).value, master, false, false);
    }
  }

  lemma AcceptedUnlessBroken(s: string)
    requires AcceptedSlug(s)
    ensures Slug(s) <==> '\n' !in s
  {
    if '\n' !in s {
      assert s[|s| - 1] in s;
    }
  }

  /** The validator also accepts a slug with a final line break, and such a
      plan does not read back: for accepted slugs, and at least one phase, the
      round trip holds exactly when every one of them keeps to the alphabet. */
  lemma ReadsBackIffPlainSlugs(slug: string, ids: seq<string>)
    requires AcceptedSlug(slug) && ids != [] && forall i :: 0 <= i < |ids| ==> AcceptedSlug(ids[i])
    ensures Phases(MasterPlan(slug, ids), slug) == Ok(Expected(slug, ids))
            <==> Slug(slug) && forall i :: 0 <= i < |ids| ==> Slug(ids[i])
  {
    if Slug(slug) && forall i :: 0 <= i < |ids| ==> Slug(ids[i]) {
      PrintedPlanReadsBack(slug, ids);
    } else {
      ParsedFilesAreOneLine(MasterPlan(slug, ids), slug);
      var k := if !Slug(slug) then 0 else BrokenId(ids);
      AcceptedUnlessBroken(slug);
      AcceptedUnlessBroken(ids[k]);
      BrokenFile(slug, ids[k]);
      assert Expected(slug, ids)[k].planFile == PlanFile(slug, ids[k]);
      hide Phases, MasterPlan, PlanFile, Slug;
    }
  }

  ghost function BrokenId(ids: seq<string>): (k: nat)
    requires exists i :: 0 <= i < |ids| && !Slug(ids[i])
    ensures k < |ids| && !Slug(ids[k])
  {
    var k: nat :| k < |ids| && !Slug(ids[k]);
    k
  }

  lemma BrokenFile(slug: string, id: string)
    requires '\n' in slug || '\n' in id
    ensures '\n' in PlanFile(slug, id)
  {
    var f := PlanFile(slug, id);
    if '\n' in slug {
      var i :| 0 <= i < |slug| && slug[i] == '\n';
      assert f[i] == '\n';
    } else {
      var i :| 0 <= i < |id| && id[i] == '\n';
      assert f[|slug| + 1 + i] == '\n';
    }
  }
}
