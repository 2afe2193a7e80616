/** What the sessions-table parser reads, said about the text itself: its
    header, its links, its file names, and every table it accepts or refuses. */
module TableReadings {
  import opened Values
  import opened Text
  import opened PlanTable

  // ----- the header line ------------------------------------------------------------------

  /** The small-letter word `p` with any of its letters capital. */
  predicate AnyCase(w: string, p: string) {
    |w| == |p| && forall i :: 0 <= i < |w| ==> w[i] == p[i] || ('a' <= p[i] <= 'z' && w[i] as int + 32 == p[i] as int)
  }

  predicate Titled(line: string, lead: string, word: string, mid: string, index: string, trail: string) {
    && line == "##" + lead + word + mid + index + trail
    && lead != "" && Blank(lead) && mid != "" && Blank(mid) && Blank(trail)
    && (AnyCase(word, "session") || AnyCase(word, "sessions")) && AnyCase(index, "index")
  }

  ghost predicate TitleLine(line: string) {
    exists lead, word, mid, index, trail :: Titled(line, lead, word, mid, index, trail)
  }

  lemma AnyCaseLowers(w: string, p: string)
    requires forall i :: 0 <= i < |p| ==> 'a' <= p[i] <= 'z'
    ensures AnyCase(w, p) <==> LowerAll(w) == p
  {
    if LowerAll(w) == p {
      forall i | 0 <= i < |w|
        ensures w[i] == p[i] || w[i] as int + 32 == p[i] as int
      {
        assert LowerAll(w)[i] == Lower(w[i]);
      }
    }
  }

  lemma LowerConcat(a: string, b: string)
    ensures LowerAll(a + b) == LowerAll(a) + LowerAll(b)
  {
  }

  lemma LowerBlank(s: string)
    requires Blank(s)
    ensures LowerAll(s) == s
  {
  }

  lemma {:induction false} TrimStartLowers(s: string)
    ensures TrimStart(LowerAll(s)) == LowerAll(TrimStart(s))
    decreases |s|
  {
    if s != "" && Space(s[0]) {
      assert LowerAll(s)[1..] == LowerAll(s[1..]);
      TrimStartLowers(s[1..]);
    }
  }

  /** The header's letters in small: two hashes, blanks, the word, blanks, the
      last word. */
  predicate LowHeader(t: string, lead: string, w: string, mid: string) {
    && t == "##" + (lead + (w + (mid + "index")))
    && lead != "" && Blank(lead) && mid != "" && Blank(mid) && (w == "session" || w == "sessions")
  }

  lemma LowHeaderReads(line: string, lead: string, w: string, mid: string)
    requires LowHeader(LowerAll(TrimEnd(line)), lead, w, mid)
    ensures HeaderLine(line)
  {
    TrimStartBlank(lead, w + (mid + "index"));
    TrimStartBlank(mid, "index");
    assert TrimStart("index") == "index";
    assert TrimStart(w + (mid + "index")) == w + (mid + "index");
    hide TrimEnd, TrimStart, LowerAll, Blank;
    var t := LowerAll(TrimEnd(line));
    var tail := mid + "index";
    assert t[2..] == lead + (w + tail) && t[2..][0] == lead[0];
    if w == "session" {
      assert ("session" + tail)[7..] == tail && tail[0] == mid[0];
    } else {
      assert ("sessions" + tail)[7..] == "s" + tail && ("s" + tail)[1..] == tail && ("sessions" + tail)[8..] == tail;
      assert "session" <= "sessions" + tail;
    }
  }

  lemma LowerHead(lead: string, word: string, mid: string, index: string)
    requires Blank(lead) && Blank(mid)
    ensures LowerAll("##" + (lead + (word + (mid + index)))) ==
              "##" + (lead + (LowerAll(word) + (mid + LowerAll(index))))
  {
    LowerBlank(lead);
    LowerBlank(mid);
    assert LowerAll("##") == "##";
    hide LowerAll;
    LowerConcat(mid, index);
    LowerConcat(word, mid + index);
    LowerConcat(lead, word + (mid + index));
    LowerConcat("##", lead + (word + (mid + index)));
  }

  lemma EndsInLetter(index: string)
    requires AnyCase(index, "index")
    ensures index != "" && !Space(index[|index| - 1])
  {
    assert "index"[4] == 'x';
  }

  lemma Untrimmed(s: string)
    requires s != "" && !Space(s[|s| - 1])
    ensures TrimEnd(s) == s
  {
  }

  lemma TitledIsHeader(line: string, lead: string, word: string, mid: string, index: string, trail: string)
    requires Titled(line, lead, word, mid, index, trail)
    ensures HeaderLine(line)
  {
    AnyCaseLowers(word, "session");
    AnyCaseLowers(word, "sessions");
    AnyCaseLowers(index, "index");
    EndsInLetter(index);
    hide HeaderLine, LowerAll, TrimEnd, Space, Blank, AnyCase, TrimStart, StartsWith;
    assert line == "##" + (lead + (word + (mid + index))) + trail;
    TrimmedHead(lead, word, mid, index, trail);
    LowerHead(lead, word, mid, index);
    LowHeaderReads(line, lead, LowerAll(word), mid);
  }

  lemma TrimmedHead(lead: string, word: string, mid: string, index: string, trail: string)
    requires Blank(trail) && index != "" && !Space(index[|index| - 1])
    ensures var head := "##" + (lead + (word + (mid + index))); TrimEnd(head + trail) == head
  {
    var head := "##" + (lead + (word + (mid + index)));
    TrimEndBlank(head, trail);
    hide TrimEnd, Space, Blank;
    assert head[|head| - 1] == index[|index| - 1];
    Untrimmed(head);
  }

  lemma WordsSplit(words: string) returns (word: string, mid: string, index: string)
    requires var low := LowerAll(words);
             && StartsWith(low, "session")
             && var tail := if StartsWith(low[7..], "s") then low[8..] else low[7..];
                tail != "" && Space(tail[0]) && TrimStart(tail) == "index"
    ensures words == word + mid + index && mid != "" && Blank(mid)
    ensures (LowerAll(word) == "session" || LowerAll(word) == "sessions") && LowerAll(index) == "index"
  {
    var low := LowerAll(words);
    var n := if StartsWith(low[7..], "s") then 8 else 7;
    word := words[..n];
    var tail := words[n..];
    assert LowerAll(tail) == low[n..];
    assert LowerAll(word) == low[..n];
    mid := TrimmedStart(tail);
    TrimStartLowers(tail);
    index := TrimStart(tail);
    assert Lower(tail[0]) == low[n..][0];
  }

  lemma HashesSplit(head: string) returns (lead: string, words: string)
    requires var t := LowerAll(head);
             StartsWith(t, "##") && t[2..] != "" && Space(t[2..][0])
    ensures head == "##" + lead + words && lead != "" && Blank(lead)
    ensures TrimStart(LowerAll(head)[2..]) == LowerAll(words)
  {
    var t, rest := LowerAll(head), head[2..];
    assert LowerAll(rest) == t[2..];
    assert t[0] == '#' && t[1] == '#';
    assert Lower(head[0]) == t[0] && Lower(head[1]) == t[1];
    lead := TrimmedStart(rest);
    TrimStartLowers(rest);
    words := TrimStart(rest);
    assert Lower(rest[0]) == t[2..][0];
    assert head == "##" + rest;
  }

  lemma HeaderIsTitled(line: string) returns (lead: string, word: string, mid: string, index: string, trail: string)
    requires HeaderLine(line)
    ensures Titled(line, lead, word, mid, index, trail)
  {
    var words;
    lead, words := HashesSplit(TrimEnd(line));
    word, mid, index := WordsSplit(words);
    trail := TrimmedEnd(line);
    hide HeaderLine, TrimEnd, TrimStart, LowerAll, AnyCase, Blank, Space, StartsWith;
    AnyCaseLowers(word, "session");
    AnyCaseLowers(word, "sessions");
    AnyCaseLowers(index, "index");
    assert line == "##" + lead + word + mid + index + trail;
  }

  /** The header is two hashes, blanks, `session` or `sessions`, blanks and
      `index`, in any case, with blanks behind, and nothing else is. */
  lemma HeaderIs(line: string)
    ensures HeaderLine(line) <==> TitleLine(line)
  {
    if HeaderLine(line) {
      var lead, word, mid, index, trail := HeaderIsTitled(line);
      assert Titled(line, lead, word, mid, index, trail);
    }
    if TitleLine(line) {
      var lead, word, mid, index, trail :| Titled(line, lead, word, mid, index, trail);
      TitledIsHeader(line, lead, word, mid, index, trail);
    }
  }

  // ----- links and file names ----------------------------------------------------------------

  predicate Link(raw: string, text: string, target: string) {
    raw == "[" + text + "](" + target + ")" && text != "" && ')' !in target
  }

  predicate LinkAt(raw: string, k: nat) {
    2 <= k && k + 2 < |raw| && Link(raw, raw[1..k], raw[k + 2..|raw| - 1])
  }

  lemma LinkHere(raw: string, text: string, target: string)
    requires Link(raw, text, target)
    ensures LinkAt(raw, |text| + 1) && raw[1..|text| + 1] == text
  {
    assert raw[1..|text| + 1] == text && raw[|text| + 3..|raw| - 1] == target;
  }

  lemma LinkTest(raw: string, k: nat)
    requires 2 <= k && k + 2 < |raw| && raw[0] == '['
    ensures LinkAt(raw, k) <==> raw[k] == ']' && raw[k + 1] == '(' && raw[|raw| - 1] == ')' && ')' !in raw[k + 2..|raw| - 1]
  {
    if raw[k] == ']' && raw[k + 1] == '(' && raw[|raw| - 1] == ')' {
      assert raw == "[" + raw[1..k] + "](" + raw[k + 2..|raw| - 1] + ")";
    }
  }

  lemma {:induction false} LinkEndIs(raw: string, k: nat)
    requires raw != "" && raw[0] == '[' && 2 <= k
    ensures match LinkEnd(raw, k)
            case None => forall j: nat :: k <= j ==> !LinkAt(raw, j)
            case Some(e) => k <= e && LinkAt(raw, e) && forall j: nat :: k <= j < e ==> !LinkAt(raw, j)
    decreases |raw| - k
  {
    if k + 2 < |raw| {
      LinkTest(raw, k);
      LinkEndIs(raw, k + 1);
      hide LinkAt;
    }
  }

  /** A cell that is a link reads as its text, up to the first bracket whose
      target runs to the closing parenthesis. */
  lemma LinkReadsAsText(raw: string, text: string, target: string)
    requires Link(raw, text, target)
    requires forall t, u :: Link(raw, t, u) ==> |text| <= |t|
    ensures LinkText(raw) == Strip(text)
  {
    LinkHere(raw, text, target);
    LinkEndIs(raw, 2);
    var e := LinkEnd(raw, 2).value;
    assert Link(raw, raw[1..e], raw[e + 2..|raw| - 1]);
  }

  lemma NoLinkReadsAsItself(raw: string)
    requires forall t, u :: !Link(raw, t, u)
    ensures LinkText(raw) == raw
  {
    if raw != "" && raw[0] == '[' {
      LinkEndIs(raw, 2);
    }
  }

  lemma {:induction false} LastPartOf(dir: string, name: string)
    requires (dir == "" || dir[|dir| - 1] == '/') && '/' !in name
    ensures LastPart(dir + name) == name
    decreases |name|
  {
    var p := dir + name;
    if name == "" {
      assert p == dir;
    } else {
      var n := |name| - 1;
      LastPartOf(dir, name[..n]);
      LastPartGrows(p);
      hide LastPart;
      assert p[..|p| - 1] == dir + name[..n] && p[|p| - 1] == name[n];
      assert name == name[..n] + [name[n]];
    }
  }

  lemma LastPartGrows(path: string)
    requires path != "" && path[|path| - 1] != '/'
    ensures LastPart(path) == LastPart(path[..|path| - 1]) + [path[|path| - 1]]
  {
  }

  predicate Folder(dir: string) {
    dir == "" || dir[|dir| - 1] == '/'
  }

  predicate Suffix(ext: string) {
    ext == "" || (|ext| > 1 && ext[0] == '.' && '.' !in ext[1..] && '/' !in ext)
  }

  lemma {:induction false} LastDotFrom(name: string, n: nat, at: nat)
    requires at < n <= |name| && name[at] == '.' && forall i :: at < i < n ==> name[i] != '.'
    ensures LastDot(name, n) == at
    decreases n
  {
    if n > at + 1 {
      LastDotFrom(name, n - 1, at);
    }
  }

  lemma {:induction false} NoDot(name: string, n: nat)
    requires n <= |name| && forall i :: 0 <= i < n ==> name[i] != '.'
    ensures LastDot(name, n) == |name|
    decreases n
  {
    if n > 0 {
      NoDot(name, n - 1);
    }
  }

  /** The stem of a path is its last component without the last suffix. */
  lemma StemIs(dir: string, stem: string, ext: string)
    requires Folder(dir) && Suffix(ext) && stem != "" && '/' !in stem && (ext == "" ==> '.' !in stem)
    ensures Stem(dir + stem + ext) == stem
  {
    var name := stem + ext;
    assert dir + stem + ext == dir + name;
    LastPartOf(dir, name);
    assert name != ".";
    if ext == "" {
      assert name == stem;
      NoDot(name, |name|);
    } else {
      assert name[|stem|] == '.' && forall i :: |stem| < i < |name| ==> name[i] == ext[1..][i - |stem| - 1];
      LastDotFrom(name, |name|, |stem|);
    }
  }

  // ----- whole tables ------------------------------------------------------------------------

  /** One cell with its padding. */
  datatype Cell = Cell(pre: string, text: string, post: string) {
    function Raw(): string {
      pre + text + post
    }

    predicate Fits() {
      && Blank(pre) && Blank(post) && (text == "" || Bare(text)) && '|' !in text && '\n' !in Raw()
    }
  }

  /** How a row may spell its plan file: as it is or between ticks, and either
      of them as the text of a link. */
  datatype Spelling = Spelling(ticked: bool, target: Option<string>)

  /** A plan file: folder, the master's name or not, phase id, suffix. */
  datatype Entry = Entry(folder: string, prefixed: bool, id: string, suffix: string, how: Spelling)

  /** A line of a table with the blanks around it: a rule, or cells between
      bars, of which an entry's second cell names its plan file. */
  datatype Line =
    | Rule(pre: string, body: string, post: string)
    | Thin(pre: string, cells: seq<Cell>, post: string)
    | Data(pre: string, cells: seq<Cell>, entry: Entry, post: string)

  function FileOf(e: Entry, master: string): string {
    e.folder + (if e.prefixed then master + "-" + e.id else e.id) + e.suffix
  }

  function Spelled(e: Entry, master: string): string {
    var file := FileOf(e, master);
    var name := if e.how.ticked then "`" + file + "`" else file;
    if e.how.target.None? then name else "[" + name + "](" + e.how.target.value + ")"
  }

  /** The path can be taken apart again: nothing in it looks like another
      separator. */
  predicate Legible(e: Entry, master: string) {
    && Folder(e.folder) && Suffix(e.suffix) && e.id != "" && '/' !in e.id && '/' !in master
    && (e.suffix == "" ==> '.' !in e.id && '.' !in master)
    && (!e.prefixed ==> !(master + "-" <= e.id))
    && Bare(FileOf(e, master)) && FileOf(e, master)[0] != '['
    && (forall c <- FileOf(e, master) :: c != '`' && c != ']')
    && (e.how.target.Some? ==> ')' !in e.how.target.value)
  }

  function Between(cells: seq<Cell>): string {
    if cells == [] then "" else if |cells| == 1 then cells[0].Raw() else cells[0].Raw() + "|" + Between(cells[1..])
  }

  function Written(l: Line): string {
    match l
    case Rule(pre, body, post) => pre + "|" + body + "|" + post
    case Thin(pre, cells, post) => pre + "|" + Between(cells) + "|" + post
    case Data(pre, cells, _, post) => pre + "|" + Between(cells) + "|" + post
  }

  /** Some cell says something: not every character would do in a rule. */
  predicate Says(cells: seq<Cell>) {
    exists i, j :: 0 <= i < |cells| && 0 <= j < |cells[i].text| && !RuleChar(cells[i].text[j])
  }

  predicate RuleChar(c: char) {
    Space(c) || c == '-' || c == ':' || c == '|'
  }

  predicate CellsFit(cells: seq<Cell>) {
    && cells != [] && cells[0].Raw() != "" && cells[|cells| - 1].Raw() != "" && Says(cells)
    && forall i :: 0 <= i < |cells| ==> cells[i].Fits()
  }

  predicate LineFits(l: Line, master: string) {
    && Blank(l.pre) && Blank(l.post)
    && match l
       case Rule(_, body, _) => body != "" && forall c <- body :: RuleChar(c)
       case Thin(_, cells, _) => CellsFit(cells) && |cells| < 4
       case Data(_, cells, e, _) => CellsFit(cells) && |cells| >= 4 && Legible(e, master) && cells[1].text == Spelled(e, master)
  }

  function Texts(cells: seq<Cell>): seq<string> {
    seq(|cells|, i requires 0 <= i < |cells| => cells[i].text)
  }

  lemma RawReads(c: Cell)
    requires c.Fits()
    ensures Strip(c.Raw()) == c.text && '|' !in c.Raw()
  {
    if c.text == "" {
      TrimEndBlank("", c.Raw());
      assert "" + c.Raw() == c.Raw();
    } else {
      StripBlanks(c.pre, c.text, c.post);
    }
  }

  predicate AllFit(cells: seq<Cell>) {
    forall i :: 0 <= i < |cells| ==> cells[i].Fits()
  }

  lemma {:induction false} BetweenSplits(cells: seq<Cell>)
    requires cells != [] && AllFit(cells)
    ensures StripAll(SplitOn(Between(cells), '|')) == Texts(cells)
  {
    var raw := cells[0].Raw();
    RawReads(cells[0]);
    if |cells| == 1 {
      SplitNone(raw, '|');
      assert [raw] == [raw] + [];
      StripAllCons(raw, []);
    } else {
      var rest := Between(cells[1..]);
      BetweenSplits(cells[1..]);
      SplitFirst(raw, rest, '|');
      assert Between(cells) == raw + ['|'] + rest;
      hide Strip, SplitOn, StripAll, Between;
      StripAllCons(raw, SplitOn(rest, '|'));
      assert Texts(cells) == [cells[0].text] + Texts(cells[1..]);
    }
  }

  lemma {:induction false} BetweenEnds(cells: seq<Cell>)
    requires cells != [] && AllFit(cells) && cells[0].Raw() != "" && cells[|cells| - 1].Raw() != ""
    ensures var b := Between(cells); b != "" && b[0] != '|' && b[|b| - 1] != '|'
  {
    RawReads(cells[0]);
    RawReads(cells[|cells| - 1]);
    BetweenLast(cells);
    hide Strip, Cell.Fits;
    assert Between(cells)[0] == cells[0].Raw()[0];
  }

  lemma {:induction false} BetweenLast(cells: seq<Cell>)
    requires cells != [] && cells[|cells| - 1].Raw() != ""
    ensures var b, r := Between(cells), cells[|cells| - 1].Raw(); |b| >= |r| && b[|b| - 1] == r[|r| - 1]
  {
    if |cells| > 1 {
      BetweenLast(cells[1..]);
    }
  }

  lemma {:induction false} BetweenHolds(cells: seq<Cell>, i: nat, c: char)
    requires i < |cells| && c in cells[i].Raw()
    ensures c in Between(cells)
  {
    if |cells| > 1 && i > 0 {
      BetweenHolds(cells[1..], i - 1, c);
    }
  }

  /** Between its blanks and bars a row is its cells. */
  lemma RowReads(pre: string, cells: seq<Cell>, post: string)
    requires Blank(pre) && Blank(post) && CellsFit(cells)
    ensures var row := "|" + Between(cells) + "|";
            && Strip(pre + "|" + Between(cells) + "|" + post) == row && row != "" && row[0] == '|'
            && SplitRow(row) == Texts(cells) && !Separator(row)
  {
    var b := Between(cells);
    var row := "|" + b + "|";
    BetweenEnds(cells);
    BetweenSplits(cells);
    assert pre + "|" + b + "|" + post == pre + row + post;
    StripBlanks(pre, row, post);
    StripBare(row);
    StripCharOnce(b, '|');
    assert row == ['|'] + b + ['|'];
    hide Strip, StripChar, SplitOn, StripAll, Between;
    SaysIsNoRule(cells);
  }

  lemma SaysIsNoRule(cells: seq<Cell>)
    requires CellsFit(cells)
    ensures !Separator("|" + Between(cells) + "|")
  {
    var i, j :| 0 <= i < |cells| && 0 <= j < |cells[i].text| && !RuleChar(cells[i].text[j]);
    var c, b := cells[i].text[j], Between(cells);
    assert cells[i].Raw()[|cells[i].pre| + j] == c;
    BetweenHolds(cells, i, c);
    hide Between;
    var k :| 0 <= k < |b| && b[k] == c;
    assert ("|" + b + "|")[k + 1] == c;
  }

  lemma RuleReads(pre: string, body: string, post: string)
    requires Blank(pre) && Blank(post) && body != "" && forall c <- body :: RuleChar(c)
    ensures var row := "|" + body + "|"; Strip(pre + row + post) == row && Separator(row)
  {
    var row := "|" + body + "|";
    StripBlanks(pre, row, post);
    forall i | 0 < i < |row| - 1
      ensures SeparatorChar(row[i])
    {
      assert row[i] == body[i - 1] && RuleChar(body[i - 1]);
    }
  }

  /** A spelled plan file reads back, and so does its phase id. */
  lemma EntryReads(e: Entry, master: string)
    requires Legible(e, master)
    ensures StripChar(LinkText(Spelled(e, master)), '`') == FileOf(e, master)
    ensures PlanTable.PhaseId(FileOf(e, master), master) == e.id
  {
    FileReads(e, master);
    IdReads(e, master);
  }

  lemma IdReads(e: Entry, master: string)
    requires Legible(e, master)
    ensures PlanTable.PhaseId(FileOf(e, master), master) == e.id
  {
    var stem := if e.prefixed then master + "-" + e.id else e.id;
    StemIs(e.folder, stem, e.suffix);
    hide Stem, Bare;
    if e.prefixed {
      assert stem[..|master + "-"|] == master + "-" && stem[|master| + 1..] == e.id;
    }
  }

  lemma StripCharNone(s: string, c: char)
    requires s != "" && s[0] != c && s[|s| - 1] != c
    ensures StripChar(s, c) == s
  {
  }

  lemma FileReads(e: Entry, master: string)
    requires Legible(e, master)
    ensures StripChar(LinkText(Spelled(e, master)), '`') == FileOf(e, master)
  {
    var file := FileOf(e, master);
    var name := if e.how.ticked then "`" + file + "`" else file;
    assert Bare(name) && name[0] != '[' && ']' !in name;
    assert file[0] in file && file[|file| - 1] in file;
    StripCharNone(file, '`');
    assert "`" + file + "`" == ['`'] + file + ['`'];
    StripCharOnce(file, '`');
    hide FileOf, StripChar;
    if e.how.target.Some? {
      var raw, target := Spelled(e, master), e.how.target.value;
      assert Link(raw, name, target);
      forall t, u | Link(raw, t, u)
        ensures |name| <= |t|
      {
        assert raw[|t| + 1] == ']';
        assert forall i :: 0 < i <= |name| ==> raw[i] == name[i - 1];
      }
      LinkReadsAsText(raw, name, target);
      StripBare(name);
    } else {
      assert LinkText(name) == name;
    }
  }

  function PhaseOfLine(l: Line, master: string): PlanTable.Phase
    requires l.Data? && |l.cells| >= 4
  {
    PlanTable.Phase.Phase(l.entry.id, FileOf(l.entry, master), l.cells[2].text, l.cells[3].text)
  }

  function TurnFor(l: Line, master: string): Turn
    requires LineFits(l, master)
  {
    if !l.Data? then Go(true, true, None)
    else if AcceptedSlug(l.entry.id) then Go(true, true, Some(PhaseOfLine(l, master))) else Refuse
  }

  lemma RuleTurn(s: string, master: string, inTable: bool, separated: bool)
    requires s != "" && s[0] == '|' && Separator(s)
    ensures TurnOf(s, master, inTable, separated) == Go(true, true, None)
  {
  }

  lemma RowTurn(s: string, master: string, inTable: bool, separated: bool)
    requires s != "" && s[0] == '|' && !Separator(s)
    ensures TurnOf(s, master, inTable, separated) ==
              if !separated || |SplitRow(s)| < 4 then Go(true, separated, None)
              else if AcceptedSlug(PhaseOf(SplitRow(s), master).id) then Go(true, true, Some(PhaseOf(SplitRow(s), master)))
              else Refuse
  {
  }

  /** What any line of the table does, past the first rule or before it, and
      whether or not the table has begun. */
  lemma LineTurn(l: Line, master: string, inTable: bool, separated: bool)
    requires LineFits(l, master)
    ensures TurnOf(Strip(Written(l)), master, inTable, separated) ==
              if l.Rule? then Go(true, true, None) else if separated then TurnFor(l, master) else Go(true, false, None)
  {
    hide Strip, SplitRow, Separator, Between, CellsFit, PhaseOf, Legible, FileOf, Spelled, Texts, TurnOf, AcceptedSlug, Blank;
    var s := Strip(Written(l));
    if l.Rule? {
      RuleReads(l.pre, l.body, l.post);
      assert Written(l) == l.pre + ("|" + l.body + "|") + l.post;
      RuleTurn(s, master, inTable, separated);
    } else {
      RowReads(l.pre, l.cells, l.post);
      RowTurn(s, master, inTable, separated);
      TextsMatch(l.cells);
      if l.Data? {
        DataReads(l, master);
      }
    }
  }

  lemma TextsMatch(cells: seq<Cell>)
    ensures |Texts(cells)| == |cells|
  {
  }

  lemma DataReads(l: Line, master: string)
    requires l.Data? && LineFits(l, master)
    ensures PhaseOf(Texts(l.cells), master) == PhaseOfLine(l, master)
  {
    EntryReads(l.entry, master);
    forall i | 1 <= i <= 3
      ensures Strip(Texts(l.cells)[i]) == l.cells[i].text
    {
      assert l.cells[i].Fits();
      StripAgain(l.cells[i].text);
    }
    hide Strip, StripChar, LinkText, FileOf, Spelled, Legible, CellsFit;
  }

  lemma StripAgain(s: string)
    requires s == "" || Bare(s)
    ensures Strip(s) == s
  {
  }

  /** After any blanks, the line opens with the mark. */
  predicate Opens(line: string, mark: string, pre: string) {
    Blank(pre) && pre + mark <= line
  }

  ghost predicate Marked(line: string, mark: string) {
    exists pre :: Opens(line, mark, pre)
  }

  lemma {:induction false} TrimEndAfter(head: string, more: string)
    requires head != "" && !Space(head[|head| - 1])
    ensures TrimEnd(head + more) == head + TrimEnd(more)
    decreases |more|
  {
    var s, n := head + more, |more| - 1;
    if more == "" {
      assert s == head;
    } else if Space(more[n]) {
      assert s[..|s| - 1] == head + more[..n];
      TrimEndAfter(head, more[..n]);
    } else {
      assert s[|s| - 1] == more[n];
    }
  }

  lemma OpensStarts(line: string, mark: string, pre: string)
    requires Opens(line, mark, pre) && mark != "" && forall c <- mark :: !Space(c)
    ensures StartsWith(Strip(line), mark)
  {
    var more := line[|pre + mark|..];
    var head, kept := pre + mark, TrimEnd(more);
    assert head[|head| - 1] == mark[|mark| - 1] && mark[|mark| - 1] in mark && mark[0] in mark;
    TrimEndAfter(head, more);
    TrimStartBlank(pre, mark + kept);
    hide TrimEnd, Blank;
    assert line == head + more;
    assert TrimEnd(line) == pre + (mark + kept);
    assert (mark + kept)[0] == mark[0];
  }

  lemma MarkedIs(line: string, mark: string)
    requires mark != "" && forall c <- mark :: !Space(c)
    ensures Marked(line, mark) <==> StartsWith(Strip(line), mark)
  {
    if StartsWith(Strip(line), mark) {
      var pre, post := StrippedParts(line);
      hide Strip, Blank;
      assert pre + mark <= pre + Strip(line) <= line;
      assert Opens(line, mark, pre);
    }
    if Marked(line, mark) {
      var pre :| Opens(line, mark, pre);
      OpensStarts(line, mark, pre);
    }
  }

  lemma BlankIs(line: string)
    ensures Blank(line) <==> Strip(line) == ""
  {
    if Blank(line) {
      TrimEndBlank("", line);
      assert "" + line == line;
    } else {
      var pre, post := StrippedParts(line);
      var i :| 0 <= i < |line| && !Space(line[i]);
      assert Strip(line) == "" ==> line == pre + post;
      assert i < |pre| ==> line[i] == pre[i];
    }
  }

  /** Where a table stops: at the end, at a blank line, or at a heading. */
  ghost predicate Ends(rest: seq<string>) {
    rest == [] || Blank(rest[0]) || Marked(rest[0], "##")
  }

  function WrittenAll(ls: seq<Line>): seq<string> {
    seq(|ls|, i requires 0 <= i < |ls| => Written(ls[i]))
  }

  predicate AllLinesFit(ls: seq<Line>, master: string) {
    forall i :: 0 <= i < |ls| ==> LineFits(ls[i], master)
  }

  /** One to 64 small letters, digits, dashes and underscores, the first a
      letter or a digit. */
  predicate PlainId(s: string) {
    && 1 <= |s| <= 64 && ('a' <= s[0] <= 'z' || '0' <= s[0] <= '9')
    && forall c <- s :: 'a' <= c <= 'z' || '0' <= c <= '9' || c == '-' || c == '_'
  }

  predicate IdsPlain(ls: seq<Line>) {
    forall i :: 0 <= i < |ls| && ls[i].Data? ==> PlainId(ls[i].entry.id)
  }

  lemma SlugIs(s: string)
    ensures Slug(s) <==> PlainId(s)
  {
    assert forall i :: 0 <= i < |s| ==> s[i] in s;
  }

  /** The validator's slugs: plain ids, with or without one final line break. */
  lemma AcceptedIs(s: string)
    ensures AcceptedSlug(s) <==> PlainId(s) || (s != "" && s[|s| - 1] == '\n' && PlainId(s[..|s| - 1]))
  {
    SlugIs(s);
    if s != "" {
      SlugIs(s[..|s| - 1]);
    }
    hide Slug, PlainId;
  }

  /** The phases the entries of these lines name, in order. */
  function Listed(ls: seq<Line>, master: string): seq<PlanTable.Phase>
    requires AllLinesFit(ls, master)
  {
    if ls == [] then [] else (if ls[0].Data? then [PhaseOfLine(ls[0], master)] else []) + Listed(ls[1..], master)
  }

  lemma WrittenCons(ls: seq<Line>, rest: seq<string>)
    requires ls != []
    ensures var all := WrittenAll(ls) + rest;
            all[0] == Written(ls[0]) && all[1..] == WrittenAll(ls[1..]) + rest
  {
  }

  lemma {:induction false} BodyReads(ls: seq<Line>, rest: seq<string>, master: string)
    requires AllLinesFit(ls, master) && IdsPlain(ls)
    ensures Rows(WrittenAll(ls) + rest, master, true, true) == Together(Listed(ls, master), Rows(rest, master, true, true))
  {
    if ls == [] {
      assert WrittenAll(ls) + rest == rest;
      TogetherNone(Rows(rest, master, true, true));
    } else {
      WrittenCons(ls, rest);
      LineTurn(ls[0], master, true, true);
      BodyReads(ls[1..], rest, master);
      hide Rows, TurnOf, Strip, Written, LineFits, AcceptedSlug, PlainId, WrittenAll;
      OneTurn(WrittenAll(ls) + rest, master, true, true);
      if ls[0].Data? {
        AcceptedIs(ls[0].entry.id);
        TogetherCons(PhaseOfLine(ls[0], master), Listed(ls[1..], master), Rows(rest, master, true, true));
      } else {
        assert [] + Listed(ls[1..], master) == Listed(ls[1..], master);
      }
    }
  }

  lemma TogetherCons(p: PlanTable.Phase, done: seq<PlanTable.Phase>, r: Result<seq<PlanTable.Phase>>)
    ensures Prepend(Some(p), Together(done, r)) == Together([p] + done, r)
  {
    if r.Ok? {
      assert [p] + (done + r.value) == ([p] + done) + r.value;
    }
  }

  /** Rows before the first rule say nothing, whatever they name. */
  lemma {:induction false} HeadingReads(ls: seq<Line>, rest: seq<string>, master: string, inTable: bool)
    requires AllLinesFit(ls, master) && forall l <- ls :: !l.Rule?
    ensures Rows(WrittenAll(ls) + rest, master, inTable, false) == Rows(rest, master, inTable || ls != [], false)
    decreases |ls|
  {
    if ls == [] {
      assert WrittenAll(ls) + rest == rest;
    } else {
      WrittenCons(ls, rest);
      LineTurn(ls[0], master, inTable, false);
      HeadingReads(ls[1..], rest, master, true);
      hide Rows, TurnOf, Strip, Written, LineFits, WrittenAll;
      OneTurn(WrittenAll(ls) + rest, master, inTable, false);
    }
  }

  /** Lines that open neither a table nor a section are passed over. */
  lemma {:induction false} GapReads(gap: seq<string>, rest: seq<string>, master: string)
    requires forall l <- gap :: !Marked(l, "|") && !Marked(l, "##")
    ensures Rows(gap + rest, master, false, false) == Rows(rest, master, false, false)
  {
    if gap == [] {
      assert gap + rest == rest;
    } else {
      assert (gap + rest)[0] == gap[0] && (gap + rest)[1..] == gap[1..] + rest;
      MarkedIs(gap[0], "|");
      MarkedIs(gap[0], "##");
      GapReads(gap[1..], rest, master);
      hide Rows, Strip, Marked;
      OneTurn(gap + rest, master, false, false);
    }
  }

  lemma {:induction false} TitleFound(before: seq<string>, title: string, rest: seq<string>)
    requires TitleLine(title) && forall l <- before :: !TitleLine(l)
    ensures AfterHeader(before + [title] + rest) == Some(rest)
  {
    var all := before + [title] + rest;
    if before == [] {
      HeaderIs(title);
      assert all[0] == title && all[1..] == rest;
    } else {
      HeaderIs(before[0]);
      assert all[0] == before[0] && all[1..] == before[1..] + [title] + rest;
      TitleFound(before[1..], title, rest);
    }
    hide HeaderLine, TitleLine;
    OneHeader(all);
  }

  lemma EndReads(rest: seq<string>, master: string, separated: bool)
    requires Ends(rest)
    ensures Rows(rest, master, true, separated) == Ok([])
  {
    if rest != [] {
      BlankIs(rest[0]);
      MarkedIs(rest[0], "##");
      hide Strip, Marked, Blank;
    }
  }

  /** A plan's text: what comes before the sessions header, the header, lines
      that open nothing, the table's rows, and what comes after them. */
  ghost predicate Layout(text: string, before: seq<string>, title: string, gap: seq<string>, table: seq<Line>,
                         rest: seq<string>)
  {
    && text == Join(before + [title] + (gap + (WrittenAll(table) + rest)))
    && SingleLines(before + [title] + (gap + (WrittenAll(table) + rest)))
    && TitleLine(title) && (forall l <- before :: !TitleLine(l))
    && (forall l <- gap :: !Marked(l, "|") && !Marked(l, "##"))
  }

  lemma LayoutReads(text: string, before: seq<string>, title: string, gap: seq<string>, table: seq<Line>,
                    rest: seq<string>, master: string)
    requires Layout(text, before, title, gap, table, rest)
    ensures PlanTable.Phases(text, master) == Rows(WrittenAll(table) + rest, master, false, false)
  {
    var after := gap + (WrittenAll(table) + rest);
    LinesOfJoin(before + [title] + after);
    TitleFound(before, title, after);
    GapReads(gap, WrittenAll(table) + rest, master);
    hide Rows, Join, Lines, TitleLine, AfterHeader, Marked, SingleLines;
  }

  lemma WrittenAllConcat(xs: seq<Line>, ys: seq<Line>)
    ensures WrittenAll(xs + ys) == WrittenAll(xs) + WrittenAll(ys)
  {
    hide Written;
  }

  lemma TableRows(heading: seq<Line>, rule: Line, body: seq<Line>, rest: seq<string>, master: string)
    requires AllLinesFit(heading + [rule] + body, master) && (forall l <- heading :: !l.Rule?) && rule.Rule? && IdsPlain(body)
    ensures AllLinesFit(body, master)
    ensures Rows(WrittenAll(heading + [rule] + body) + rest, master, false, false) ==
              Together(Listed(body, master), Rows(rest, master, true, true))
  {
    var all := heading + [rule] + body;
    forall i | 0 <= i < |heading|
      ensures LineFits(heading[i], master)
    {
      assert all[i] == heading[i];
    }
    forall i | 0 <= i < |body|
      ensures LineFits(body[i], master)
    {
      assert all[|heading| + 1 + i] == body[i];
    }
    assert all[|heading|] == rule;
    hide LineFits, Written, Rows, IdsPlain, Listed;
    var after := WrittenAll(body) + rest;
    WrittenAllConcat(heading + [rule], body);
    WrittenAllConcat(heading, [rule]);
    assert WrittenAll([rule]) == [Written(rule)];
    assert WrittenAll(all) + rest == WrittenAll(heading) + ([Written(rule)] + after);
    HeadingReads(heading, [Written(rule)] + after, master, false);
    LineTurn(rule, master, heading != [], false);
    OneTurn([Written(rule)] + after, master, heading != [], false);
    assert ([Written(rule)] + after)[1..] == after;
    BodyReads(body, rest, master);
  }

  /** Every table laid out so reads back as the entries below its first rule,
      in order: what comes before the header, before the rule, after the end,
      and rows too short to be entries, say nothing. */
  lemma TableReadsBack(text: string, before: seq<string>, title: string, gap: seq<string>, heading: seq<Line>, rule: Line,
                       body: seq<Line>, rest: seq<string>, master: string)
    requires AllLinesFit(heading + [rule] + body, master) && (forall l <- heading :: !l.Rule?) && rule.Rule?
    requires Layout(text, before, title, gap, heading + [rule] + body, rest) && Ends(rest) && IdsPlain(body)
    ensures AllLinesFit(body, master) && PlanTable.Phases(text, master) == Ok(Listed(body, master))
  {
    hide Layout, AllLinesFit, Ends, Listed, Rows, PlanTable.Phases, IdsPlain;
    LayoutReads(text, before, title, gap, heading + [rule] + body, rest, master);
    TableRows(heading, rule, body, rest, master);
    EndReads(rest, master, true);
    assert Listed(body, master) + [] == Listed(body, master);
  }

  /** The first entry whose phase id the validator does not accept refuses the
      whole plan, whatever follows. */
  lemma BadIdRefuses(text: string, before: seq<string>, title: string, gap: seq<string>, heading: seq<Line>, rule: Line,
                     body: seq<Line>, bad: Line, rest: seq<string>, master: string)
    requires AllLinesFit(heading + [rule] + body, master) && (forall l <- heading :: !l.Rule?) && rule.Rule? && IdsPlain(body)
    requires bad.Data? && LineFits(bad, master) && !PlainId(bad.entry.id) && '\n' !in bad.entry.id
    requires Layout(text, before, title, gap, heading + [rule] + body, [Written(bad)] + rest)
    ensures PlanTable.Phases(text, master) == Err(InvalidSlug)
  {
    AcceptedIs(bad.entry.id);
    var after := [Written(bad)] + rest;
    hide Layout, AllLinesFit, Listed, PlanTable.Phases, IdsPlain, LineFits, AcceptedSlug, Written, PlainId, Strip, TurnOf;
    LayoutReads(text, before, title, gap, heading + [rule] + body, after, master);
    TableRows(heading, rule, body, after, master);
    LineTurn(bad, master, true, true);
    assert after[0] == Written(bad);
  }

  /** Without a rule there is no entry, and without a table there is nothing. */
  lemma UnruledListsNothing(text: string, before: seq<string>, title: string, gap: seq<string>, heading: seq<Line>,
                            rest: seq<string>, master: string)
    requires AllLinesFit(heading, master) && forall l <- heading :: !l.Rule?
    requires Layout(text, before, title, gap, heading, rest)
    requires if heading != [] then Ends(rest) else rest == [] || Marked(rest[0], "##")
    ensures PlanTable.Phases(text, master) == Ok([])
  {
    LayoutReads(text, before, title, gap, heading, rest, master);
    HeadingReads(heading, rest, master, false);
    hide Layout, PlanTable.Phases, LineFits, Strip, Marked, Blank, WrittenAll;
    if heading != [] {
      EndReads(rest, master, false);
    } else if rest != [] {
      MarkedIs(rest[0], "##");
    }
  }

  /** Without the header there are no phases. */
  lemma NoTableNoPhases(text: string, lines: seq<string>, master: string)
    requires text == Join(lines) && SingleLines(lines) && forall l <- lines :: !TitleLine(l)
    ensures PlanTable.Phases(text, master) == Ok([])
  {
    LinesOfJoin(lines);
    NoTitle(lines);
    hide Join, Lines, TitleLine, SingleLines, AfterHeader;
  }

  lemma {:induction false} NoTitle(lines: seq<string>)
    requires forall l <- lines :: !TitleLine(l)
    ensures AfterHeader(lines) == None
  {
    if lines != [] {
      HeaderIs(lines[0]);
      hide HeaderLine, TitleLine;
      NoTitle(lines[1..]);
    }
  }
}
